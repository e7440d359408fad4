/** The run of archiver/main.go's handler: campaigns are fetched and stored,
    then groups, then security tests are fetched and stored, then the
    recipients of the first MaxFileCount tests (all tests when it is 0) are
    archived. The first failing stage ends the run and no later stage runs. */
module Handler {
  import opened Results
  import opened Records
  import opened Pagination
  import opened Api
  import opened Collectors
  import opened Dispatcher

  const CampaignsFilename: string := "campaigns/knowbe4_campaigns.json"
  const GroupsFilename: string := "groups/knowbe4_groups.json"
  const PhishingTestsFilename: string := "campaigns/pst/knowbe4_security_tests.json"

  datatype Stage =
    | CampaignsStage
    | GroupsStage
    | SecurityTestsFetchStage
    | SecurityTestsSaveStage
    | RecipientsStage

  const RunOrder: seq<Stage> :=
    [CampaignsStage, GroupsStage, SecurityTestsFetchStage, SecurityTestsSaveStage, RecipientsStage]

  /** The error the handler returns. SliceBoundsOutOfRange is the runtime
      panic of taking the first `count` tests when count is negative or larger
      than the number of tests. */
  datatype RunError =
    | CampaignsFetchFailed(cause: CollectError)
    | CampaignsStoreFailed(bucket: string, key: string)
    | GroupsFetchFailed(cause: CollectError)
    | GroupsStoreFailed(bucket: string, key: string)
    | SecurityTestsFetchFailed(cause: CollectError)
    | SecurityTestsStoreFailed(bucket: string, key: string)
    | SliceBoundsOutOfRange(count: int, length: nat)
    | RecipientsAborted(abort: AbortError)

  /** getAndSaveCampaigns: fetch every campaign page, flatten, store one object. */
  ghost function CampaignsOutcome(config: LambdaConfig, b: Backend): Option<RunError>
    requires EventuallyStops(CampaignSource(config, b))
  {
    match CampaignsCollected(config, b)
    case Err(e) => Some(CampaignsFetchFailed(e))
    case Ok(campaigns) =>
      if b.upload(config.awsS3Bucket, CampaignsFilename, CampaignsDocument(campaigns)) then None
      else Some(CampaignsStoreFailed(config.awsS3Bucket, CampaignsFilename))
  }

  /** getAndSaveGroups: fetch every group page, flatten, store one object. */
  ghost function GroupsOutcome(config: LambdaConfig, b: Backend): Option<RunError>
    requires EventuallyStops(GroupSource(config, b))
  {
    match GroupsCollected(config, b)
    case Err(e) => Some(GroupsFetchFailed(e))
    case Ok(groups) =>
      if b.upload(config.awsS3Bucket, GroupsFilename, GroupsDocument(groups)) then None
      else Some(GroupsStoreFailed(config.awsS3Bucket, GroupsFilename))
  }

  method GetAndSaveCampaigns(config: LambdaConfig, b: Backend) returns (err: Option<RunError>)
    requires EventuallyStops(CampaignSource(config, b))
    ensures err == CampaignsOutcome(config, b)
  {
    var campaigns := GetAllCampaigns(config, b);
    if campaigns.Err? {
      return Some(CampaignsFetchFailed(campaigns.error));
    }
    if !b.upload(config.awsS3Bucket, CampaignsFilename, CampaignsDocument(campaigns.value)) {
      return Some(CampaignsStoreFailed(config.awsS3Bucket, CampaignsFilename));
    }
    return None;
  }

  method GetAndSaveGroups(config: LambdaConfig, b: Backend) returns (err: Option<RunError>)
    requires EventuallyStops(GroupSource(config, b))
    ensures err == GroupsOutcome(config, b)
  {
    var groups := GetAllGroups(config, b);
    if groups.Err? {
      return Some(GroupsFetchFailed(groups.error));
    }
    if !b.upload(config.awsS3Bucket, GroupsFilename, GroupsDocument(groups.value)) {
      return Some(GroupsStoreFailed(config.awsS3Bucket, GroupsFilename));
    }
    return None;
  }

  /** saveTestsToS3: store the flattened tests as one object. */
  function SaveTestsToS3(config: LambdaConfig, b: Backend, tests: seq<FlatSecurityTest>): Option<RunError>
  {
    if b.upload(config.awsS3Bucket, PhishingTestsFilename, SecurityTestsDocument(tests)) then None
    else Some(SecurityTestsStoreFailed(config.awsS3Bucket, PhishingTestsFilename))
  }

  /** How many tests the recipient stage receives: MaxFileCount, where 0 means all. */
  function RecipientCount(maxFileCount: int, total: nat): int
  {
    if maxFileCount == 0 then total else maxFileCount
  }

  /** The recipient stage's error for the given tests. */
  ghost function DispatchOutcome(config: LambdaConfig, tests: seq<FlatSecurityTest>, b: Backend): Option<RunError>
  {
    var failures := FailureCount(config, PstIds(tests), b);
    if failures >= MaxErrorsAllowed then Some(RecipientsAborted(TooManyErrors(failures))) else None
  }

  /** Every collection the run actually starts ends with a short page or an
      error: the campaigns always; the groups only after the campaigns were
      stored; the tests only after the groups were stored; and the recipients
      only of the tests the recipient stage receives. */
  ghost predicate RunStops(config: LambdaConfig, b: Backend)
  {
    && EventuallyStops(CampaignSource(config, b))
    && (CampaignsOutcome(config, b).None? ==> EventuallyStops(GroupSource(config, b)))
    && (CampaignsOutcome(config, b).None? && GroupsOutcome(config, b).None? ==>
          EventuallyStops(SecurityTestSource(config, b)))
    && (CampaignsOutcome(config, b).None? && GroupsOutcome(config, b).None?
        && TestsCollected(config, b).Ok?
        && SaveTestsToS3(config, b, TestsCollected(config, b).value).None?
        && CappedTests(config.maxFileCount, TestsCollected(config, b).value).Some? ==>
          AllStop(config, PstIds(CappedTests(config.maxFileCount, TestsCollected(config, b).value).value), b))
  }

  /** What one run of the handler produces: its error, how many stages of
      RunOrder ran and the IDs of the tests whose recipients were archived. */
  datatype RunTrace = RunTrace(err: Option<RunError>, reached: nat, dispatched: seq<int>)

  /** The tests the recipient stage receives, or None when the cap is out of range. */
  function CappedTests(maxFileCount: int, tests: seq<FlatSecurityTest>): (r: Option<seq<FlatSecurityTest>>)
    ensures r.Some? <==> 0 <= RecipientCount(maxFileCount, |tests|) <= |tests|
    ensures r.Some? ==> r.value <= tests && |r.value| == RecipientCount(maxFileCount, |tests|)
    ensures maxFileCount == 0 ==> r == Some(tests)
  {
    var count := RecipientCount(maxFileCount, |tests|);
    if 0 <= count <= |tests| then
      assert maxFileCount == 0 ==> tests[..count] == tests;
      Some(tests[..count])
    else None
  }

  /** The run stage by stage; the first stage that fails ends it. */
  ghost function Run(config: LambdaConfig, b: Backend): RunTrace
    requires RunStops(config, b)
  {
    match CampaignsOutcome(config, b)
    case Some(e) => RunTrace(Some(e), 1, [])
    case None =>
      match GroupsOutcome(config, b)
      case Some(e) => RunTrace(Some(e), 2, [])
      case None =>
        match TestsCollected(config, b)
        case Err(e) => RunTrace(Some(SecurityTestsFetchFailed(e)), 3, [])
        case Ok(tests) =>
          match SaveTestsToS3(config, b, tests)
          case Some(e) => RunTrace(Some(e), 4, [])
          case None =>
            match CappedTests(config.maxFileCount, tests)
            case None =>
              RunTrace(Some(SliceBoundsOutOfRange(RecipientCount(config.maxFileCount, |tests|), |tests|)),
                       4, [])
            case Some(capped) =>
              RunTrace(DispatchOutcome(config, capped, b), |RunOrder|, PstIds(capped))
  }

  /** At least the first stage runs; a run that stops before the last stage
      reports an error, and only a run that reaches the last stage archives
      recipients. */
  lemma RunFollowsStageOrder(config: LambdaConfig, b: Backend)
    requires RunStops(config, b)
    ensures var t := Run(config, b);
      && 1 <= t.reached <= |RunOrder|
      && (t.err.None? ==> t.reached == |RunOrder|)
      && (t.dispatched != [] ==> t.reached == |RunOrder|)
  {
  }

  /** A stage runs only if every earlier stage succeeded. */
  lemma RunReachesStageOnlyAfterSuccess(config: LambdaConfig, b: Backend)
    requires RunStops(config, b)
    ensures var t := Run(config, b);
      && (t.reached >= 2 <==> CampaignsOutcome(config, b).None?)
      && (t.reached >= 3 <==> CampaignsOutcome(config, b).None? && GroupsOutcome(config, b).None?)
      && (t.reached >= 4 <==>
            CampaignsOutcome(config, b).None? && GroupsOutcome(config, b).None?
            && TestsCollected(config, b).Ok?)
      && (t.reached == |RunOrder| <==>
            && CampaignsOutcome(config, b).None? && GroupsOutcome(config, b).None?
            && TestsCollected(config, b).Ok?
            && SaveTestsToS3(config, b, TestsCollected(config, b).value).None?
            && CappedTests(config.maxFileCount, TestsCollected(config, b).value).Some?)
  {
  }

  /** When the recipient stage runs it archives the first MaxFileCount tests,
      or all of them when MaxFileCount is 0; an out-of-range cap is an error. */
  lemma RunCapsRecipientStage(config: LambdaConfig, b: Backend)
    requires RunStops(config, b)
    ensures var t := Run(config, b);
      && (t.reached == |RunOrder| ==>
            && TestsCollected(config, b).Ok?
            && var tests := TestsCollected(config, b).value;
            && CappedTests(config.maxFileCount, tests).Some?
            && t.dispatched == PstIds(CappedTests(config.maxFileCount, tests).value)
            && (config.maxFileCount == 0 ==> t.dispatched == PstIds(tests)))
      && (t.err.Some? && t.err.value.SliceBoundsOutOfRange? <==>
            && t.reached == 4
            && TestsCollected(config, b).Ok?
            && SaveTestsToS3(config, b, TestsCollected(config, b).value).None?
            && CappedTests(config.maxFileCount, TestsCollected(config, b).value).None?)
  {
  }

  /** A run that reaches the recipient stage fails exactly when at least
      MaxErrorsAllowed of the archived tests failed, and then reports that
      count. */
  lemma RunReportsRecipientFailures(config: LambdaConfig, b: Backend)
    requires RunStops(config, b)
    ensures var t := Run(config, b);
      t.reached == |RunOrder| ==>
        && AllStop(config, t.dispatched, b)
        && FailureCount(config, t.dispatched, b) <= |t.dispatched|
        && (t.err.Some? <==> FailureCount(config, t.dispatched, b) >= MaxErrorsAllowed)
        && (t.err.Some? ==> t.err.value == RecipientsAborted(TooManyErrors(FailureCount(config, t.dispatched, b))))
  {
    FailureCountBound(config, Run(config, b).dispatched, b);
  }

  /** handler (after configuration lookup). */
  method Handler(config: LambdaConfig, b: Backend)
    returns (err: Option<RunError>, ghost stages: seq<Stage>, ghost dispatched: seq<int>)
    requires RunStops(config, b)
    ensures stages == RunOrder[..Run(config, b).reached]
    ensures err == Run(config, b).err && dispatched == Run(config, b).dispatched
  {
    ghost var run := Run(config, b);
    dispatched := [];
    stages := RunOrder[..1];
    err := GetAndSaveCampaigns(config, b);
    if err.Some? {
      assert run == RunTrace(err, 1, []);
      return;
    }
    stages := RunOrder[..2];
    err := GetAndSaveGroups(config, b);
    if err.Some? {
      assert run == RunTrace(err, 2, []);
      return;
    }
    stages := RunOrder[..3];
    var stResults := GetAllSecurityTests(config, b);
    if stResults.Err? {
      err := Some(SecurityTestsFetchFailed(stResults.error));
      assert run == RunTrace(err, 3, []);
      return;
    }
    stages := RunOrder[..4];
    err := SaveTestsToS3(config, b, stResults.value);
    if err.Some? {
      assert run == RunTrace(err, 4, []);
      return;
    }
    var count := config.maxFileCount;
    if count == 0 {
      count := |stResults.value|;
    }
    if !(0 <= count <= |stResults.value|) {
      err := Some(SliceBoundsOutOfRange(count, |stResults.value|));
      assert run == RunTrace(err, 4, []);
      return;
    }
    stages := RunOrder;
    var tests := stResults.value[..count];
    assert CappedTests(config.maxFileCount, stResults.value) == Some(tests);
    var lastErr;
    ghost var batches;
    lastErr, dispatched, batches := SaveRecipientsToS3Async(config, tests, b);
    err := match lastErr
      case Some(abort) => Some(RecipientsAborted(abort))
      case None => None;
    assert run == RunTrace(err, |RunOrder|, dispatched);
  }
}
