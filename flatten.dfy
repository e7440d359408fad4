/** The record flatteners of archiver/main.go: every list of named
    sub-objects becomes one comma-joined string of names, the integer list and
    the PST list become comma-joined decimal IDs, every single nested object is
    promoted to prefixed scalar fields, and every other field is copied. The
    generic JSON round-trip copy of the original is written out here as an
    explicit field mapping; it cannot fail for these types, so the flatteners
    are total.

    Each flattener is paired with an unflattener that rebuilds the nested
    record from the flat row plus exactly the data the row drops (group and
    category IDs, PST details, risk-score history); the round-trip lemmas prove
    that nothing else is lost, so every copied field is copied unchanged, every
    promoted field comes from its nested object and every joined column keeps
    its names in order. */
module Flatten {
  import opened Results
  import opened Text
  import opened Records

  // ---------------------------------------------------------------
  // Join helpers: specification functions and the index-filling loops.

  /** The element-wise image of a list, in order. */
  function Each<A, B>(f: A -> B, xs: seq<A>): seq<B>
  {
    seq(|xs|, i requires 0 <= i < |xs| => f(xs[i]))
  }

  lemma EachConcat<A, B>(f: A -> B, xs: seq<A>, ys: seq<A>)
    ensures Each(f, xs + ys) == Each(f, xs) + Each(f, ys)
  {
  }

  function GroupNames(groups: seq<GroupSummary>): seq<string>
  {
    seq(|groups|, i requires 0 <= i < |groups| => groups[i].name)
  }

  function GroupIds(groups: seq<GroupSummary>): seq<int>
  {
    seq(|groups|, i requires 0 <= i < |groups| => groups[i].groupId)
  }

  function CategoryNames(categories: seq<CategoryRef>): seq<string>
  {
    seq(|categories|, i requires 0 <= i < |categories| => categories[i].name)
  }

  function CategoryIds(categories: seq<CategoryRef>): seq<int>
  {
    seq(|categories|, i requires 0 <= i < |categories| => categories[i].categoryId)
  }

  function PstSummaryIds(psts: seq<PstSummary>): seq<int>
  {
    seq(|psts|, i requires 0 <= i < |psts| => psts[i].pstId)
  }

  /** The all_groups column: group names in order, comma-joined, unescaped. */
  function JoinedGroupNames(groups: seq<GroupSummary>): string
  {
    Join(GroupNames(groups), Comma)
  }

  /** The all_categories column: category names in order, comma-joined. */
  function JoinedCategoryNames(categories: seq<CategoryRef>): string
  {
    Join(CategoryNames(categories), Comma)
  }

  /** Decimal integers in order, comma-joined. */
  function JoinedInts(xs: seq<int>): string
  {
    Join(DecimalStrings(xs), Comma)
  }

  /** The all_psts column: the PST IDs in order, comma-joined. */
  function JoinedPstIds(psts: seq<PstSummary>): string
  {
    JoinedInts(PstSummaryIds(psts))
  }

  /** flattenGroupSummaries: fills a name slice by index, then joins it. */
  method FlattenGroupSummaries(groups: seq<GroupSummary>) returns (joined: string)
    ensures joined == Join(GroupNames(groups), Comma)
    ensures FreeOf(GroupNames(groups), Comma) ==>
              SplitCount(joined, Comma, |groups|) == GroupNames(groups)
  {
    var groupNames := new string[|groups|];
    for i := 0 to |groups|
      invariant forall j :: 0 <= j < i ==> groupNames[j] == groups[j].name
    {
      groupNames[i] := groups[i].name;
    }
    assert groupNames[..] == GroupNames(groups);
    joined := Join(groupNames[..], Comma);
    if FreeOf(GroupNames(groups), Comma) {
      SplitCountJoin(GroupNames(groups), Comma);
    }
  }

  /** flattenCategories: the same loop over the anonymous category structs. */
  method FlattenCategories(categories: seq<CategoryRef>) returns (joined: string)
    ensures joined == Join(CategoryNames(categories), Comma)
    ensures FreeOf(CategoryNames(categories), Comma) ==>
              SplitCount(joined, Comma, |categories|) == CategoryNames(categories)
  {
    var categoryNames := new string[|categories|];
    for i := 0 to |categories|
      invariant forall j :: 0 <= j < i ==> categoryNames[j] == categories[j].name
    {
      categoryNames[i] := categories[i].name;
    }
    assert categoryNames[..] == CategoryNames(categories);
    joined := Join(categoryNames[..], Comma);
    if FreeOf(CategoryNames(categories), Comma) {
      SplitCountJoin(CategoryNames(categories), Comma);
    }
  }

  /** flattenIntSlice: strconv.Itoa of each element by index, then joined;
      the text reads back as the same list. */
  method FlattenIntSlice(intSlice: seq<int>) returns (joined: string)
    ensures joined == Join(DecimalStrings(intSlice), Comma)
    ensures ParseDecimalList(joined) == Some(intSlice)
  {
    var stringSlice := new string[|intSlice|];
    for i := 0 to |intSlice|
      invariant forall j :: 0 <= j < i ==> stringSlice[j] == DecimalString(intSlice[j])
    {
      stringSlice[i] := DecimalString(intSlice[i]);
    }
    assert stringSlice[..] == DecimalStrings(intSlice);
    joined := Join(stringSlice[..], Comma);
    JoinedDecimalsRoundTrip(intSlice);
  }

  /** flattenPstSlice: only each summary's PstId survives, in order. */
  method FlattenPstSlice(pstSlice: seq<PstSummary>) returns (joined: string)
    ensures joined == Join(DecimalStrings(PstSummaryIds(pstSlice)), Comma)
    ensures ParseDecimalList(joined) == Some(PstSummaryIds(pstSlice))
  {
    var stringSlice := new string[|pstSlice|];
    for i := 0 to |pstSlice|
      invariant forall j :: 0 <= j < i ==> stringSlice[j] == DecimalString(pstSlice[j].pstId)
    {
      stringSlice[i] := DecimalString(pstSlice[i].pstId);
    }
    assert stringSlice[..] == DecimalStrings(PstSummaryIds(pstSlice));
    joined := Join(stringSlice[..], Comma);
    JoinedDecimalsRoundTrip(PstSummaryIds(pstSlice));
  }

  // ---------------------------------------------------------------
  // Per-record flatteners.

  /** flattenTest: groups and categories joined, template and landing page
      promoted to four scalars, all other fields copied. */
  function FlattenTest(t: SecurityTest): FlatSecurityTest
  {
    FlatSecurityTest(
      campaignId := t.campaignId,
      pstId := t.pstId,
      status := t.status,
      name := t.name,
      groups := JoinedGroupNames(t.groups),
      phishPronePercentage := t.phishPronePercentage,
      startedAt := t.startedAt,
      duration := t.duration,
      categories := JoinedCategoryNames(t.categories),
      templateId := t.template.id,
      templateName := t.template.name,
      landingPageId := t.landingPage.id,
      landingPageName := t.landingPage.name,
      scheduledCount := t.scheduledCount,
      deliveredCount := t.deliveredCount,
      openedCount := t.openedCount,
      clickedCount := t.clickedCount,
      repliedCount := t.repliedCount,
      attachmentOpenCount := t.attachmentOpenCount,
      macroEnabledCount := t.macroEnabledCount,
      dataEnteredCount := t.dataEnteredCount,
      vulnerablePluginCount := t.vulnerablePluginCount,
      exploitedCount := t.exploitedCount,
      reportedCount := t.reportedCount,
      bouncedCount := t.bouncedCount)
  }

  /** flattenRecipient: the five user fields and the two template fields are
      promoted, every timestamp and network field is copied. */
  function FlattenRecipient(r: Recipient): FlatRecipient
  {
    FlatRecipient(
      recipientId := r.recipientId,
      pstId := r.pstId,
      userId := r.user.id,
      userActiveDirectoryGuid := r.user.activeDirectoryGuid,
      userFirstName := r.user.firstName,
      userLastName := r.user.lastName,
      userEmail := r.user.email,
      templateId := r.template.id,
      templateName := r.template.name,
      scheduledAt := r.scheduledAt,
      deliveredAt := r.deliveredAt,
      openedAt := r.openedAt,
      clickedAt := r.clickedAt,
      repliedAt := r.repliedAt,
      attachmentOpenedAt := r.attachmentOpenedAt,
      macroEnabledAt := r.macroEnabledAt,
      dataEnteredAt := r.dataEnteredAt,
      vulnerablePluginsAt := r.vulnerablePluginsAt,
      exploitedAt := r.exploitedAt,
      reportedAt := r.reportedAt,
      bouncedAt := r.bouncedAt,
      ip := r.ip,
      ipLocation := r.ipLocation,
      browser := r.browser,
      browserVersion := r.browserVersion,
      os := r.os)
  }

  /** flattenCampaign: groups, difficulty filter and PST list become strings. */
  function FlattenCampaign(c: Campaign): FlatCampaign
  {
    FlatCampaign(
      campaignId := c.campaignId,
      name := c.name,
      groups := JoinedGroupNames(c.groups),
      lastPhishPronePercentage := c.lastPhishPronePercentage,
      lastRun := c.lastRun,
      status := c.status,
      hidden := c.hidden,
      sendDuration := c.sendDuration,
      trackDuration := c.trackDuration,
      frequency := c.frequency,
      difficultyFilter := JoinedInts(c.difficultyFilter),
      createDate := c.createDate,
      pstsCount := c.pstsCount,
      psts := JoinedPstIds(c.psts))
  }

  /** flattenGroup: the group without its risk-score history. */
  function FlattenGroup(g: Group): FlatGroup
  {
    FlatGroup(
      id := g.id,
      name := g.name,
      groupType := g.groupType,
      adiGuid := g.adiGuid,
      memberCount := g.memberCount,
      currentRiskScore := g.currentRiskScore,
      status := g.status)
  }

  // ---------------------------------------------------------------
  // List flatteners: a preallocated slice filled by index.

  method FlattenTests(tests: seq<SecurityTest>) returns (flatTests: seq<FlatSecurityTest>)
    ensures |flatTests| == |tests|
    ensures forall i :: 0 <= i < |tests| ==> flatTests[i] == FlattenTest(tests[i])
  {
    var a := new FlatSecurityTest[|tests|];
    for i := 0 to |tests|
      invariant forall j :: 0 <= j < i ==> a[j] == FlattenTest(tests[j])
    {
      a[i] := FlattenTest(tests[i]);
    }
    flatTests := a[..];
  }

  method FlattenRecipients(recipients: seq<Recipient>) returns (flatRecipients: seq<FlatRecipient>)
    ensures |flatRecipients| == |recipients|
    ensures forall i :: 0 <= i < |recipients| ==> flatRecipients[i] == FlattenRecipient(recipients[i])
  {
    var a := new FlatRecipient[|recipients|];
    for i := 0 to |recipients|
      invariant forall j :: 0 <= j < i ==> a[j] == FlattenRecipient(recipients[j])
    {
      a[i] := FlattenRecipient(recipients[i]);
    }
    flatRecipients := a[..];
  }

  method FlattenCampaigns(campaigns: seq<Campaign>) returns (flatCampaigns: seq<FlatCampaign>)
    ensures |flatCampaigns| == |campaigns|
    ensures forall i :: 0 <= i < |campaigns| ==> flatCampaigns[i] == FlattenCampaign(campaigns[i])
  {
    var a := new FlatCampaign[|campaigns|];
    for i := 0 to |campaigns|
      invariant forall j :: 0 <= j < i ==> a[j] == FlattenCampaign(campaigns[j])
    {
      a[i] := FlattenCampaign(campaigns[i]);
    }
    flatCampaigns := a[..];
  }

  method FlattenGroups(groups: seq<Group>) returns (flatGroups: seq<FlatGroup>)
    ensures |flatGroups| == |groups|
    ensures forall i :: 0 <= i < |groups| ==> flatGroups[i] == FlattenGroup(groups[i])
  {
    var a := new FlatGroup[|groups|];
    for i := 0 to |groups|
      invariant forall j :: 0 <= j < i ==> a[j] == FlattenGroup(groups[j])
    {
      a[i] := FlattenGroup(groups[i]);
    }
    flatGroups := a[..];
  }

  // ---------------------------------------------------------------
  // Unflatteners: the nested record rebuilt from a flat row and the data
  // the row drops.

  function RebuildGroups(ids: seq<int>, names: seq<string>): seq<GroupSummary>
  {
    seq(|ids|, i requires 0 <= i < |ids| => GroupSummary(ids[i], if i < |names| then names[i] else ""))
  }

  function RebuildCategories(ids: seq<int>, names: seq<string>): seq<CategoryRef>
  {
    seq(|ids|, i requires 0 <= i < |ids| => CategoryRef(ids[i], if i < |names| then names[i] else ""))
  }

  /** PST summaries whose IDs come from the all_psts column and whose other
      fields come from the dropped details. */
  function RebuildPsts(ids: seq<int>, details: seq<PstSummary>): seq<PstSummary>
  {
    seq(|ids|, i requires 0 <= i < |ids| =>
      if i < |details| then details[i].(pstId := ids[i]) else PstSummary(ids[i], "", None, 0, 0.0))
  }

  function UnflattenTest(f: FlatSecurityTest, groupIds: seq<int>, categoryIds: seq<int>): SecurityTest
  {
    SecurityTest(
      campaignId := f.campaignId,
      pstId := f.pstId,
      status := f.status,
      name := f.name,
      groups := RebuildGroups(groupIds, SplitCount(f.groups, Comma, |groupIds|)),
      phishPronePercentage := f.phishPronePercentage,
      startedAt := f.startedAt,
      duration := f.duration,
      categories := RebuildCategories(categoryIds, SplitCount(f.categories, Comma, |categoryIds|)),
      template := TemplateRef(f.templateId, f.templateName),
      landingPage := LandingPageRef(f.landingPageId, f.landingPageName),
      scheduledCount := f.scheduledCount,
      deliveredCount := f.deliveredCount,
      openedCount := f.openedCount,
      clickedCount := f.clickedCount,
      repliedCount := f.repliedCount,
      attachmentOpenCount := f.attachmentOpenCount,
      macroEnabledCount := f.macroEnabledCount,
      dataEnteredCount := f.dataEnteredCount,
      vulnerablePluginCount := f.vulnerablePluginCount,
      exploitedCount := f.exploitedCount,
      reportedCount := f.reportedCount,
      bouncedCount := f.bouncedCount)
  }

  function UnflattenRecipient(f: FlatRecipient): Recipient
  {
    Recipient(
      recipientId := f.recipientId,
      pstId := f.pstId,
      user := RecipientUser(f.userId, f.userActiveDirectoryGuid, f.userFirstName, f.userLastName, f.userEmail),
      template := TemplateRef(f.templateId, f.templateName),
      scheduledAt := f.scheduledAt,
      deliveredAt := f.deliveredAt,
      openedAt := f.openedAt,
      clickedAt := f.clickedAt,
      repliedAt := f.repliedAt,
      attachmentOpenedAt := f.attachmentOpenedAt,
      macroEnabledAt := f.macroEnabledAt,
      dataEnteredAt := f.dataEnteredAt,
      vulnerablePluginsAt := f.vulnerablePluginsAt,
      exploitedAt := f.exploitedAt,
      reportedAt := f.reportedAt,
      bouncedAt := f.bouncedAt,
      ip := f.ip,
      ipLocation := f.ipLocation,
      browser := f.browser,
      browserVersion := f.browserVersion,
      os := f.os)
  }

  /** None when all_difficulty_filter or all_psts is not a comma-joined list
      of decimal integers. */
  function UnflattenCampaign(f: FlatCampaign, groupIds: seq<int>, pstDetails: seq<PstSummary>): Option<Campaign>
  {
    match (ParseDecimalList(f.difficultyFilter), ParseDecimalList(f.psts))
    case (Some(difficulty), Some(pstIds)) =>
      Some(Campaign(
        campaignId := f.campaignId,
        name := f.name,
        groups := RebuildGroups(groupIds, SplitCount(f.groups, Comma, |groupIds|)),
        lastPhishPronePercentage := f.lastPhishPronePercentage,
        lastRun := f.lastRun,
        status := f.status,
        hidden := f.hidden,
        sendDuration := f.sendDuration,
        trackDuration := f.trackDuration,
        frequency := f.frequency,
        difficultyFilter := difficulty,
        createDate := f.createDate,
        pstsCount := f.pstsCount,
        psts := RebuildPsts(pstIds, pstDetails)))
    case _ => None
  }

  function UnflattenGroup(f: FlatGroup, history: seq<RiskScoreHistory>): Group
  {
    Group(f.id, f.name, f.groupType, f.adiGuid, f.memberCount, f.currentRiskScore, history, f.status)
  }

  // ---------------------------------------------------------------
  // Round trips: what each flat row keeps.

  lemma GroupsRoundTrip(groups: seq<GroupSummary>)
    requires FreeOf(GroupNames(groups), Comma)
    ensures RebuildGroups(GroupIds(groups), SplitCount(JoinedGroupNames(groups), Comma, |groups|)) == groups
  {
    SplitCountJoin(GroupNames(groups), Comma);
  }

  lemma CategoriesRoundTrip(categories: seq<CategoryRef>)
    requires FreeOf(CategoryNames(categories), Comma)
    ensures RebuildCategories(CategoryIds(categories), SplitCount(JoinedCategoryNames(categories), Comma, |categories|)) == categories
  {
    SplitCountJoin(CategoryNames(categories), Comma);
  }

  /** A security test is its flat row plus its group and category IDs, as long
      as no group or category name contains a comma. */
  lemma FlattenTestRoundTrip(t: SecurityTest)
    requires FreeOf(GroupNames(t.groups), Comma)
    requires FreeOf(CategoryNames(t.categories), Comma)
    ensures UnflattenTest(FlattenTest(t), GroupIds(t.groups), CategoryIds(t.categories)) == t
  {
    GroupsRoundTrip(t.groups);
    CategoriesRoundTrip(t.categories);
  }

  /** A recipient loses nothing in flattening (nulls included). */
  lemma FlattenRecipientRoundTrip(r: Recipient)
    ensures UnflattenRecipient(FlattenRecipient(r)) == r
  {
  }

  /** A campaign is its flat row plus its group IDs and the non-ID fields of
      its PST summaries: the difficulty filter and the PST IDs read back in
      order. */
  lemma FlattenCampaignRoundTrip(c: Campaign)
    requires FreeOf(GroupNames(c.groups), Comma)
    ensures UnflattenCampaign(FlattenCampaign(c), GroupIds(c.groups), c.psts) == Some(c)
  {
    GroupsRoundTrip(c.groups);
    JoinedDecimalsRoundTrip(c.difficultyFilter);
    JoinedDecimalsRoundTrip(PstSummaryIds(c.psts));
    assert RebuildPsts(PstSummaryIds(c.psts), c.psts) == c.psts;
  }

  /** A group is its flat row plus its risk-score history. */
  lemma FlattenGroupRoundTrip(g: Group)
    ensures UnflattenGroup(FlattenGroup(g), g.riskScoreHistory) == g
  {
  }

  /** Group IDs and category IDs never reach the flat row: two tests whose
      lists carry the same names flatten identically. */
  lemma FlattenTestIgnoresIds(t: SecurityTest, groups: seq<GroupSummary>, categories: seq<CategoryRef>)
    requires GroupNames(groups) == GroupNames(t.groups)
    requires CategoryNames(categories) == CategoryNames(t.categories)
    ensures FlattenTest(t.(groups := groups, categories := categories)) == FlattenTest(t)
  {
  }

  /** A comma inside a name makes two different tests flatten to the same row. */
  lemma CommaInGroupNameCollides(t: SecurityTest)
    requires t.groups == [GroupSummary(1, "a,b")]
    ensures FlattenTest(t.(groups := [GroupSummary(1, "a"), GroupSummary(2, "b")])) == FlattenTest(t)
  {
    assert GroupNames(t.groups) == ["a,b"];
    assert GroupNames([GroupSummary(1, "a"), GroupSummary(2, "b")]) == ["a", "b"];
    JoinIsLossyOnSeparator();
  }
}
