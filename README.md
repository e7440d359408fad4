# knowbe4-data-archiver in Dafny

This is a model of the archiver, a Lambda function that copies KnowBe4
phishing-campaign reporting data into an S3 bucket. One run does five things
in order:

1. It pages through the campaigns, flattens each one and stores them as one
   object.
2. It does the same for groups.
3. It pages through the phishing security tests (PSTs) and flattens them.
4. It stores the tests as one object.
5. For the first `MaxFileCount` tests (all tests when it is 0), it pages
   through the test's recipients and stores them under
   `recipients/knowbe4_recipients_<pst id>.json`. Tests are taken in groups
   of five. Once at least five tasks have failed, the run reports an error,
   but every test is still tried.

The first stage that fails ends the run.

The model is organised as follows:

- `results.dfy`: `Option` and `Result`.
- `text.dfy`: `strings.Join` and `strconv.Itoa`, with their inverses (split,
  decimal parse). They are used to show what the flattened records still
  carry.
- `records.dfy`: the record types of `types.go`. `*time.Time` becomes
  `Option<Time>` and `float64` becomes `real`.
- `flatten.dfy`: the flatteners.
  - The comma-join helpers and the list flatteners are methods that fill an
    array, as the original fills a `make`d slice.
  - Each record flattener is a function with its fields mapped one by one.
  - Each flattener has an "unflatten" partner and a round-trip lemma.
- `fixtures.dfy`: the test fixtures of `fixtures_test.go`, with lemmas that
  flattening each example record gives the expected flat record.
- `pagination.dfy`: the page loop shared by every `getAll*` function. It
  runs over an abstract page source `nat -> Result<seq<T>, E>`.
  - `CollectPages` is the loop.
  - `Collected` is its specification: pages 1..k concatenated, where k is
    the first page that is shorter than 500 or fails.
- `api.dfy`: `callAPI` and one page request.
  - The network, the JSON decoders and the S3 upload are function
    parameters, bundled in `Backend`.
- `collectors.dfy`: `getAllCampaigns`, `getAllGroups`, `getAllSecurityTests`
  and `getAllRecipientsForSecurityTest`.
- `dispatcher.dfy`: `saveRecipientsForSecTest` and
  `saveRecipientsToS3Async`. The latter is modelled as the sequential
  loop it amounts to, because each goroutine's result is received before
  the next goroutine starts.
- `handler.dfy`: the `handler` run.
  - `Run` is its specification: what the run reports, how many stages it
    reached and which tests it archived.

Termination of the unbounded page loops (`for i := 1; ; i++`) is stated as
a precondition, `EventuallyStops`: some page is short or fails. The handler
requires it only of the collections a run actually reaches (`RunStops`):
the groups only after the campaigns succeeded, the security tests only
after the groups succeeded, and the recipients only of the tests that are
handed to the recipient stage.

## Model

| member | source | states |
|---|---|---|
| Text.SplitJoin | archiver/main.go:516-522 | splitting a comma-joined list gives the parts back when no part contains a comma |
| Text.JoinSplit | archiver/main.go:516-522 | joining the pieces of a split gives the original string back |
| Text.SplitCountJoin | archiver/main.go:516-533 | given the element count, a comma-free name list, including an empty list or one empty name, is recovered from its joined string |
| Text.JoinIsLossyOnSeparator | archiver/main.go:521 | a name containing a comma joins to the same string as two names, so the joined form cannot always be split back |
| Text.NatDigitsRoundTrip | archiver/main.go:592 | the digits written for a natural number are all digits and parse back to that number |
| Text.DecimalRoundTrip | archiver/main.go:592 | the decimal text of any integer, with a leading '-' when negative, parses back to the integer |
| Text.DecimalHasNoComma | archiver/main.go:592 | decimal text is non-empty and has no comma, so it is safe to comma-join |
| Text.ParseEachDecimal | archiver/main.go:589-595 | parsing each decimal string gives the integer list back |
| Text.JoinedDecimalsRoundTrip | archiver/main.go:589-603 | a comma-joined list of decimals parses back to exactly the integer list, the empty list included |
| Flatten.FlattenGroupSummaries | archiver/main.go:516-522 | the result is the group names in order, joined with ','; with comma-free names it splits back into exactly those names |
| Flatten.FlattenCategories | archiver/main.go:524-533 | the result is the category names in order, joined with ','; with comma-free names it splits back into exactly those names |
| Flatten.FlattenIntSlice | archiver/main.go:589-595 | the result is the decimal form of each integer in order, joined with ','; it parses back to the same list |
| Flatten.FlattenPstSlice | archiver/main.go:597-603 | the result is the comma-joined decimal PST IDs in order; it parses back to those IDs |
| Flatten.FlattenTests | archiver/main.go:488-498 | one flat test per test, the i-th one being the i-th test flattened |
| Flatten.FlattenRecipients | archiver/main.go:535-545 | one flat recipient per recipient, in order |
| Flatten.FlattenCampaigns | archiver/main.go:564-574 | one flat campaign per campaign, in order |
| Flatten.FlattenGroups | archiver/main.go:605-615 | one flat group per group, in order |
| Flatten.GroupsRoundTrip | archiver/main.go:516-522 | the group IDs and the split joined names rebuild the group list exactly |
| Flatten.CategoriesRoundTrip | archiver/main.go:524-533 | the category IDs and the split joined names rebuild the category list exactly |
| Flatten.FlattenTestRoundTrip | archiver/main.go:500-514 | a flat test plus the dropped group and category IDs gives back the original test: every other field is carried over, and the template and landing page move into their own fields |
| Flatten.FlattenRecipientRoundTrip | archiver/main.go:547-562 | flattening a recipient loses nothing: the user and template fields can be put back into the nested record |
| Flatten.FlattenCampaignRoundTrip | archiver/main.go:576-587 | a flat campaign plus the group IDs and PST details gives back the campaign; the difficulty filter and PST IDs parse back from their joined strings |
| Flatten.FlattenGroupRoundTrip | archiver/main.go:617-624 | a flat group is the group without its risk-score history, and nothing else is lost |
| Flatten.FlattenTestIgnoresIds | archiver/main.go:506-507 | the flat test depends only on the group and category names, not their IDs |
| Flatten.CommaInGroupNameCollides | archiver/main.go:506 | a test with the group "a,b" flattens to the same record as one with the groups "a" and "b" |
| Fixtures.SecurityTestFixture | archiver/fixtures_test.go:3-79 | the example security test flattens to the expected flat test, with the groups "Corporate Employees,Volunteers" |
| Fixtures.RecipientFixture | archiver/fixtures_test.go:81-141 | the example recipient flattens to the expected flat recipient |
| Fixtures.CampaignFixture | archiver/fixtures_test.go:143-194 | the example campaign flattens to the expected flat campaign |
| Pagination.LastPageUnique | archiver/main.go:154-167 | at most one page is the first one that ends the loop |
| Pagination.LastPage | archiver/main.go:154-167 | the loop's last page is the first page from 1 that is short or fails; every earlier page is full and succeeded |
| Pagination.CollectPages | archiver/main.go:150-172 | the loop requests pages 1, 2, … up to the last page, in that order. Its result is the concatenation of those pages, or the first failing page's error with no partial data |
| Pagination.PrefixAt | archiver/main.go:160-161 | record t of page j lands at offset (records of pages before j) + t, so page order and in-page order are kept |
| Pagination.PrefixLength | archiver/main.go:163-165 | n pages of at least 500 records give at least 500·n records |
| Pagination.FullPagesThenShort | archiver/main.go:154-167 | n full pages followed by a short one end the loop at page n+1 with 500·n plus that page's records |
| Pagination.ExactLength | archiver/main.go:160-161 | n pages of exactly 500 records collect 500·n records |
| Pagination.EmptyFirstPage | archiver/main.go:154-167 | an empty first page ends the loop at once with no records |
| Pagination.CollectedFailsAtFirstError | archiver/main.go:155-159 | an error on page k after full pages aborts the whole collection with that page's error |
| Pagination.CollectedOk | archiver/main.go:154-167 | a successful collection means every requested page succeeded, and it holds at least 500 records per page before the last |
| Api.RequestUrlParts | archiver/main.go:94 | the request URL is the base URL, one '/', then the path, and both parts can be read back |
| Api.PageQueryRoundTrip | archiver/main.go:127-130 | every page request carries exactly per_page=500 and page=n |
| Api.CallApi | archiver/main.go:90-124 | the response is returned exactly when the request went through and the status code is below 300. A code of 300 or more is an error with the URL, code and status. A transport failure is an error |
| Api.GetPageOk | archiver/main.go:126-148 | a page is obtained exactly when callAPI succeeds and the body decodes; its records are the decoded ones |
| Collectors.GetAllCampaigns | archiver/main.go:252-272 | the result is all campaign pages collected and flattened, or the first page error |
| Collectors.GetAllGroups | archiver/main.go:298-318 | the result is all group pages collected and flattened, or the first page error |
| Collectors.GetAllSecurityTests | archiver/main.go:150-172 | the result is all security-test pages collected and flattened, or the first page error |
| Collectors.GetAllRecipientsForSecurityTest | archiver/main.go:174-226 | the result is the test's recipient pages, each flattened and concatenated, or the first page error |
| Collectors.PrefixEach | archiver/main.go:197-218 | flattening page by page and then concatenating equals concatenating and then flattening |
| Collectors.RecipientsFlattenedPerPage | archiver/main.go:205-226 | flattening per page changes neither where the loop stops nor the records, apart from flattening each one |
| Dispatcher.RecipientsKeyRoundTrip | archiver/main.go:330 | the test ID can be read back from its recipients object key |
| Dispatcher.RecipientsKeysDistinct | archiver/main.go:330 | different tests get different recipients keys, so no test overwrites another's object |
| Dispatcher.SaveRecipientsForSecTest | archiver/main.go:320-340 | a test's task fails with a fetch error if its recipients cannot be collected, else with a store error naming the bucket and key if the upload fails; otherwise it succeeds |
| Dispatcher.BatchesConcat | archiver/main.go:353-371 | the groups of five, read in order, are exactly the test IDs: each test is tried once, in list order |
| Dispatcher.BatchesShape | archiver/main.go:356-361 | there are (number of tests)/5 + 1 passes; all but the last cover exactly five tests and the last fewer |
| Dispatcher.FailureCountAppend | archiver/main.go:367-370 | the error count is cumulative across groups, never reset |
| Dispatcher.FailureCountBound | archiver/main.go:367-370 | at most one error is counted per test |
| Dispatcher.AllTasksFail | archiver/main.go:353-382 | when every task fails, each of the first n tests tried adds one to the count, so the count equals the number of tests tried, past the budget of five included |
| Dispatcher.SaveRecipientsToS3Async | archiver/main.go:342-386 | every test is tried once, in order, in groups of five. The error is returned exactly when the total failure count is at least 5, and it carries that count |
| Handler.GetAndSaveCampaigns | archiver/main.go:446-455 | a fetch error stops before the upload; otherwise a failed upload of campaigns/knowbe4_campaigns.json is the error |
| Handler.GetAndSaveGroups | archiver/main.go:457-466 | a fetch error stops before the upload; otherwise a failed upload of groups/knowbe4_groups.json is the error |
| Handler.CappedTests | archiver/main.go:428-433 | the recipient stage gets the first MaxFileCount tests, or all tests when it is 0. A cap below 0 or above the number of tests yields nothing, because the slice panics |
| Handler.RunFollowsStageOrder | archiver/main.go:408-435 | at least one stage runs; a run without error went through all five; only a full run archives recipients |
| Handler.RunReachesStageOnlyAfterSuccess | archiver/main.go:408-444 | each stage runs if and only if every earlier stage succeeded, saveTestsToS3 and the cap included |
| Handler.RunCapsRecipientStage | archiver/main.go:428-434 | a full run archives the recipients of exactly the capped tests, all of them when MaxFileCount is 0. An out-of-range cap is reported after the tests were stored |
| Handler.RunReportsRecipientFailures | archiver/main.go:434 | a full run fails exactly when at least five recipient tasks failed, and reports that count |
| Handler.Handler | archiver/main.go:408-435 | the run performs the stages in order, stops at the first failure, and returns the error and archived tests that Run describes, given only that the collections the run reaches come to an end |

## Left out

- Loading the configuration from the environment (`config.init`,
  `getRequiredString`). The model starts from a filled-in `LambdaConfig`.
  `manualRun`, `main` and `lambda.Start` are also left out.
- The HTTP client: headers, the `http.NewRequest` error path and the
  encoding order of the query string. A request is a URL plus a query map,
  and sending it is the `Backend.send` parameter.
- JSON encoding and decoding. `saveToS3`'s marshalling and the S3 upload
  become one `Backend.upload` parameter that either succeeds or fails. Each
  `json.Unmarshal` of a page body is a decoder parameter.
- `ConvertToOtherType`. The model writes the field mapping that the JSON
  round trip performs. Its error path cannot fire for these types, so the
  flatteners are total.
- The raw response bytes (`allData`) returned by `getAllSecurityTests` and
  `getAllRecipientsForSecurityTest`. The handler discards the first, and
  `saveRecipientsForSecTest` discards the second.
- Goroutines, the `WaitGroup` and the channel in `saveRecipientsToS3Async`.
  Each goroutine's result is received before the next starts, so the model
  is the equivalent sequential loop.
- Logging, and the wording of error messages. Errors are datatype variants
  that carry page number, URL, status, bucket and key. `StatusFailed` drops
  the response body that the status error message also prints.
- Times and floating-point values are carried as opaque values. Nothing
  in the core computes with them.
- Handler.Handler: the runtime panic on an out-of-range
  `stResults[:count]` is modelled as the error `SliceBoundsOutOfRange`,
  not as a crash. The slice comes from `make` with its exact length, so
  any count above the number of tests is out of range.
- The "too many errors" condition of `saveRecipientsToS3Async`
  does not stop the loop early. The code tries every test and sets the
  error after each group, and the model follows the code.
- Pagination.CollectPages: termination of the unbounded page loop is
  assumed as the precondition `EventuallyStops`, that some page is short
  or fails. A server that always returns full pages is not modelled.
- The archiver's serialised output format. There is no line-delimited
  encoder in the code. Campaigns, groups and security tests are stored as a
  JSON array, empty or not. The recipients of a test with no recipients are
  stored as `null`, because that list starts as a nil slice and stays nil.
  `RecipientsDocument([])` does not distinguish `null` from `[]`.
