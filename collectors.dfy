/** getAllCampaigns, getAllGroups, getAllSecurityTests and
    getAllRecipientsForSecurityTest: the shared page loop over each
    endpoint's page source, followed by flattening. Recipients are flattened
    page by page, as the original does; the other three after collection. */
module Collectors {
  import opened Results
  import opened Records
  import opened Flatten
  import opened Pagination
  import opened Api

  type CollectError = PageError<ApiError>

  function CampaignSource(config: LambdaConfig, b: Backend): nat -> Result<seq<Campaign>, ApiError>
  {
    (n: nat) => GetPage(CampaignsUrlPath, config, n, b.send, b.decodeCampaigns)
  }

  function GroupSource(config: LambdaConfig, b: Backend): nat -> Result<seq<Group>, ApiError>
  {
    (n: nat) => GetPage(GroupsUrlPath, config, n, b.send, b.decodeGroups)
  }

  function SecurityTestSource(config: LambdaConfig, b: Backend): nat -> Result<seq<SecurityTest>, ApiError>
  {
    (n: nat) => GetPage(SecurityTestsUrlPath, config, n, b.send, b.decodeSecurityTests)
  }

  /** The recipient pages of one test as received, before flattening. */
  function RawRecipientSource(config: LambdaConfig, pstId: int, b: Backend): nat -> Result<seq<Recipient>, ApiError>
  {
    (n: nat) => GetPage(RecipientsUrlPath(pstId), config, n, b.send, b.decodeRecipients)
  }

  /** getRecipientsPage: each decoded page is flattened before the loop sees it. */
  function RecipientSource(config: LambdaConfig, pstId: int, b: Backend): nat -> Result<seq<FlatRecipient>, ApiError>
  {
    (n: nat) =>
      match RawRecipientSource(config, pstId, b)(n)
      case Err(e) => Err(e)
      case Ok(recipients) => Ok(Each(FlattenRecipient, recipients))
  }

  ghost function CampaignsCollected(config: LambdaConfig, b: Backend): Result<seq<FlatCampaign>, CollectError>
    requires EventuallyStops(CampaignSource(config, b))
  {
    match Collected(CampaignSource(config, b))
    case Err(e) => Err(e)
    case Ok(campaigns) => Ok(Each(FlattenCampaign, campaigns))
  }

  ghost function GroupsCollected(config: LambdaConfig, b: Backend): Result<seq<FlatGroup>, CollectError>
    requires EventuallyStops(GroupSource(config, b))
  {
    match Collected(GroupSource(config, b))
    case Err(e) => Err(e)
    case Ok(groups) => Ok(Each(FlattenGroup, groups))
  }

  ghost function TestsCollected(config: LambdaConfig, b: Backend): Result<seq<FlatSecurityTest>, CollectError>
    requires EventuallyStops(SecurityTestSource(config, b))
  {
    match Collected(SecurityTestSource(config, b))
    case Err(e) => Err(e)
    case Ok(tests) => Ok(Each(FlattenTest, tests))
  }

  method GetAllCampaigns(config: LambdaConfig, b: Backend) returns (r: Result<seq<FlatCampaign>, CollectError>)
    requires EventuallyStops(CampaignSource(config, b))
    ensures r == CampaignsCollected(config, b)
  {
    var collected;
    ghost var requested;
    collected, requested := CollectPages(CampaignSource(config, b));
    match collected {
      case Err(e) =>
        r := Err(e);
      case Ok(campaigns) =>
        var flat := FlattenCampaigns(campaigns);
        assert flat == Each(FlattenCampaign, campaigns);
        r := Ok(flat);
    }
  }

  method GetAllGroups(config: LambdaConfig, b: Backend) returns (r: Result<seq<FlatGroup>, CollectError>)
    requires EventuallyStops(GroupSource(config, b))
    ensures r == GroupsCollected(config, b)
  {
    var collected;
    ghost var requested;
    collected, requested := CollectPages(GroupSource(config, b));
    match collected {
      case Err(e) =>
        r := Err(e);
      case Ok(groups) =>
        var flat := FlattenGroups(groups);
        assert flat == Each(FlattenGroup, groups);
        r := Ok(flat);
    }
  }

  method GetAllSecurityTests(config: LambdaConfig, b: Backend) returns (r: Result<seq<FlatSecurityTest>, CollectError>)
    requires EventuallyStops(SecurityTestSource(config, b))
    ensures r == TestsCollected(config, b)
  {
    var collected;
    ghost var requested;
    collected, requested := CollectPages(SecurityTestSource(config, b));
    match collected {
      case Err(e) =>
        r := Err(e);
      case Ok(tests) =>
        var flat := FlattenTests(tests);
        assert flat == Each(FlattenTest, tests);
        r := Ok(flat);
    }
  }

  method GetAllRecipientsForSecurityTest(secTestId: int, config: LambdaConfig, b: Backend)
    returns (r: Result<seq<FlatRecipient>, CollectError>)
    requires EventuallyStops(RecipientSource(config, secTestId, b))
    ensures r == Collected(RecipientSource(config, secTestId, b))
  {
    ghost var requested;
    r, requested := CollectPages(RecipientSource(config, secTestId, b));
  }

  // ---------------------------------------------------------------
  // Flattening page by page is flattening the whole collection.

  lemma {:induction false} PrefixEach(config: LambdaConfig, pstId: int, b: Backend, n: nat)
    requires forall j: nat :: 1 <= j <= n ==> RawRecipientSource(config, pstId, b)(j).Ok?
    ensures forall j: nat :: 1 <= j <= n ==> RecipientSource(config, pstId, b)(j).Ok?
    ensures Prefix(RecipientSource(config, pstId, b), n)
         == Each(FlattenRecipient, Prefix(RawRecipientSource(config, pstId, b), n))
    decreases n
  {
    if n > 0 {
      PrefixEach(config, pstId, b, n - 1);
      EachConcat(FlattenRecipient, Prefix(RawRecipientSource(config, pstId, b), n - 1),
                 RawRecipientSource(config, pstId, b)(n).value);
    }
  }

  /** The flattened and the raw recipient pages stop at the same page, and the
      flattened collection is the flattening of the raw one. */
  lemma RecipientsFlattenedPerPage(config: LambdaConfig, pstId: int, b: Backend)
    requires EventuallyStops(RawRecipientSource(config, pstId, b))
    ensures EventuallyStops(RecipientSource(config, pstId, b))
    ensures LastPage(RecipientSource(config, pstId, b)) == LastPage(RawRecipientSource(config, pstId, b))
    ensures Collected(RecipientSource(config, pstId, b)) ==
      match Collected(RawRecipientSource(config, pstId, b))
      case Err(e) => Err(e)
      case Ok(recipients) => Ok(Each(FlattenRecipient, recipients))
  {
    var raw := RawRecipientSource(config, pstId, b);
    var flat := RecipientSource(config, pstId, b);
    var k := LastPage(raw);
    forall j: nat | 1 <= j ensures EndsCollection(flat(j)) == EndsCollection(raw(j)) {
    }
    assert IsLastPage(flat, k);
    LastPageUnique(flat, k, LastPage(flat));
    if raw(k).Ok? {
      PrefixEach(config, pstId, b, k);
    }
  }
}
