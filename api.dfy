/** The reporting-API client of archiver/main.go: how a request URL and its
    query are built, how a response is classified by status code, and how a
    page of records is obtained. The HTTP round trip, JSON decoding and the
    object-store upload are parameters (a Backend); what they do is not
    modelled, only what the archiver does with their results. */
module Api {
  import opened Results
  import opened Text
  import opened Records
  import Pagination

  /** The run configuration after environment lookup. */
  datatype LambdaConfig = LambdaConfig(
    apiBaseUrl: string,
    apiAuthToken: string,
    awsS3Bucket: string,
    awsS3Filename: string,
    maxFileCount: int)

  /** A GET request: its URL and its query parameters. */
  datatype Request = Request(url: string, query: map<string, string>)

  type Body = seq<bv8>

  datatype Response = Response(statusCode: int, status: string, body: Body)

  /** Why a page could not be obtained: the HTTP client failed, the API
      answered with a status of 300 or more, or the body did not decode. */
  datatype ApiError =
    | RequestFailed(reason: string)
    | StatusFailed(url: string, statusCode: int, status: string)
    | DecodeFailed(reason: string)

  /** A value written to the object store, one per object. The Go code
      stores a JSON array, except that an empty recipients list is stored
      as `null`; `RecipientsDocument([])` stands for both. */
  datatype Document =
    | CampaignsDocument(campaigns: seq<FlatCampaign>)
    | GroupsDocument(groups: seq<FlatGroup>)
    | SecurityTestsDocument(tests: seq<FlatSecurityTest>)
    | RecipientsDocument(recipients: seq<FlatRecipient>)

  /** Everything outside the archiver: the HTTP round trip, the JSON decoder
      of each record type, and the upload of a document to bucket/key
      (true when the store acknowledged it). */
  datatype Backend = Backend(
    send: Request -> Result<Response, string>,
    decodeCampaigns: Body -> Result<seq<Campaign>, string>,
    decodeGroups: Body -> Result<seq<Group>, string>,
    decodeSecurityTests: Body -> Result<seq<SecurityTest>, string>,
    decodeRecipients: Body -> Result<seq<Recipient>, string>,
    upload: (string, string, Document) -> bool)

  const CampaignsUrlPath: string := "v1/phishing/campaigns"
  const GroupsUrlPath: string := "v1/groups"
  const SecurityTestsUrlPath: string := "v1/phishing/security_tests"

  /** recipientsURLPath with the test ID written in decimal. */
  function RecipientsUrlPath(pstId: int): string
  {
    "v1/phishing/security_tests/" + DecimalString(pstId) + "/recipients"
  }

  /** The request URL: base URL, one slash, path. */
  function RequestUrl(baseUrl: string, urlPath: string): string
  {
    baseUrl + "/" + urlPath
  }

  /** The base URL and the path can be read back from the request URL. */
  lemma RequestUrlParts(baseUrl: string, urlPath: string)
    ensures var url := RequestUrl(baseUrl, urlPath);
      |url| == |baseUrl| + 1 + |urlPath| &&
      url[..|baseUrl|] == baseUrl && url[|baseUrl|] == '/' && url[|baseUrl| + 1..] == urlPath
  {
  }

  /** The query of every page request: per_page = PageSize and page = pageNum. */
  function PageQuery(pageNum: int): map<string, string>
  {
    map["per_page" := DecimalString(Pagination.PageSize), "page" := DecimalString(pageNum)]
  }

  /** The query names exactly the page size and the requested page. */
  lemma PageQueryRoundTrip(pageNum: int)
    ensures PageQuery(pageNum).Keys == {"per_page", "page"}
    ensures ParseDecimal(PageQuery(pageNum)["page"]) == Some(pageNum)
    ensures ParseDecimal(PageQuery(pageNum)["per_page"]) == Some(500)
  {
    DecimalRoundTrip(pageNum);
    DecimalRoundTrip(Pagination.PageSize);
  }

  /** callAPI: a response with status below 300 is returned as it came; a
      status of 300 or more is an error naming the URL, the code and the
      status, with no response. */
  function CallApi(urlPath: string, config: LambdaConfig, query: map<string, string>,
                   send: Request -> Result<Response, string>): (r: Result<Response, ApiError>)
    ensures var sent := send(Request(RequestUrl(config.apiBaseUrl, urlPath), query));
      && (r.Ok? <==> sent.Ok? && sent.value.statusCode < 300)
      && (r.Ok? ==> r.value == sent.value)
      && (sent.Ok? && sent.value.statusCode >= 300 ==>
            r == Err(StatusFailed(RequestUrl(config.apiBaseUrl, urlPath), sent.value.statusCode, sent.value.status)))
      && (sent.Err? ==> r == Err(RequestFailed(sent.error)))
  {
    var url := config.apiBaseUrl + "/" + urlPath;
    match send(Request(url, query))
    case Err(reason) => Err(RequestFailed(reason))
    case Ok(resp) =>
      if resp.statusCode >= 300 then Err(StatusFailed(url, resp.statusCode, resp.status))
      else Ok(resp)
  }

  /** One page of records: request the page, then decode the body. */
  function GetPage<T>(urlPath: string, config: LambdaConfig, pageNum: int,
                      send: Request -> Result<Response, string>,
                      decode: Body -> Result<seq<T>, string>): Result<seq<T>, ApiError>
  {
    match CallApi(urlPath, config, PageQuery(pageNum), send)
    case Err(e) => Err(e)
    case Ok(resp) =>
      match decode(resp.body)
      case Err(reason) => Err(DecodeFailed(reason))
      case Ok(records) => Ok(records)
  }

  /** A page is obtained exactly when the request for that page succeeds with
      a status below 300 and its body decodes; the records are the decoded ones. */
  lemma GetPageOk<T>(urlPath: string, config: LambdaConfig, pageNum: int,
                     send: Request -> Result<Response, string>,
                     decode: Body -> Result<seq<T>, string>)
    ensures var sent := send(Request(RequestUrl(config.apiBaseUrl, urlPath), PageQuery(pageNum)));
      var page := GetPage(urlPath, config, pageNum, send, decode);
      && (page.Ok? <==> sent.Ok? && sent.value.statusCode < 300 && decode(sent.value.body).Ok?)
      && (page.Ok? ==> page.value == decode(sent.value.body).value)
  {
  }
}
