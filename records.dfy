/** The records of the reporting API and the flat rows the archiver stores,
    one datatype per Go struct of archiver/types.go. Go `int` fields are `int`;
    `float64` fields are carried as `real` (nothing computes with them);
    `*time.Time` and `*string` fields are `Option`s, so a JSON null stays null. */
module Records {
  import opened Results

  /** An RFC 3339 timestamp as the API sends it; the archiver only carries it. */
  datatype Time = Time(text: string)

  // ---------------------------------------------------------------
  // Recipients of one security test.

  datatype RecipientUser = RecipientUser(
    id: int,
    activeDirectoryGuid: Option<string>,
    firstName: string,
    lastName: string,
    email: string)

  datatype TemplateRef = TemplateRef(id: int, name: string)

  datatype Recipient = Recipient(
    recipientId: int,
    pstId: int,
    user: RecipientUser,
    template: TemplateRef,
    scheduledAt: Option<Time>,
    deliveredAt: Option<Time>,
    openedAt: Option<Time>,
    clickedAt: Option<Time>,
    repliedAt: Option<Time>,
    attachmentOpenedAt: Option<Time>,
    macroEnabledAt: Option<Time>,
    dataEnteredAt: Option<Time>,
    vulnerablePluginsAt: Option<Time>,
    exploitedAt: Option<Time>,
    reportedAt: Option<Time>,
    bouncedAt: Option<Time>,
    ip: string,
    ipLocation: string,
    browser: string,
    browserVersion: string,
    os: string)

  datatype FlatRecipient = FlatRecipient(
    recipientId: int,
    pstId: int,
    userId: int,
    userActiveDirectoryGuid: Option<string>,
    userFirstName: string,
    userLastName: string,
    userEmail: string,
    templateId: int,
    templateName: string,
    scheduledAt: Option<Time>,
    deliveredAt: Option<Time>,
    openedAt: Option<Time>,
    clickedAt: Option<Time>,
    repliedAt: Option<Time>,
    attachmentOpenedAt: Option<Time>,
    macroEnabledAt: Option<Time>,
    dataEnteredAt: Option<Time>,
    vulnerablePluginsAt: Option<Time>,
    exploitedAt: Option<Time>,
    reportedAt: Option<Time>,
    bouncedAt: Option<Time>,
    ip: string,
    ipLocation: string,
    browser: string,
    browserVersion: string,
    os: string)

  // ---------------------------------------------------------------
  // Phishing security tests.

  datatype GroupSummary = GroupSummary(groupId: int, name: string)

  datatype CategoryRef = CategoryRef(categoryId: int, name: string)

  datatype LandingPageRef = LandingPageRef(id: int, name: string)

  datatype SecurityTest = SecurityTest(
    campaignId: int,
    pstId: int,
    status: string,
    name: string,
    groups: seq<GroupSummary>,
    phishPronePercentage: real,
    startedAt: Option<Time>,
    duration: int,
    categories: seq<CategoryRef>,
    template: TemplateRef,
    landingPage: LandingPageRef,
    scheduledCount: int,
    deliveredCount: int,
    openedCount: int,
    clickedCount: int,
    repliedCount: int,
    attachmentOpenCount: int,
    macroEnabledCount: int,
    dataEnteredCount: int,
    vulnerablePluginCount: int,
    exploitedCount: int,
    reportedCount: int,
    bouncedCount: int)

  /** `groups` is the JSON column all_groups, `categories` is all_categories. */
  datatype FlatSecurityTest = FlatSecurityTest(
    campaignId: int,
    pstId: int,
    status: string,
    name: string,
    groups: string,
    phishPronePercentage: real,
    startedAt: Option<Time>,
    duration: int,
    categories: string,
    templateId: int,
    templateName: string,
    landingPageId: int,
    landingPageName: string,
    scheduledCount: int,
    deliveredCount: int,
    openedCount: int,
    clickedCount: int,
    repliedCount: int,
    attachmentOpenCount: int,
    macroEnabledCount: int,
    dataEnteredCount: int,
    vulnerablePluginCount: int,
    exploitedCount: int,
    reportedCount: int,
    bouncedCount: int)

  // ---------------------------------------------------------------
  // Campaigns.

  datatype PstSummary = PstSummary(
    pstId: int,
    status: string,
    startDate: Option<Time>,
    usersCount: int,
    phishPronePercentage: real)

  datatype Campaign = Campaign(
    campaignId: int,
    name: string,
    groups: seq<GroupSummary>,
    lastPhishPronePercentage: real,
    lastRun: Option<Time>,
    status: string,
    hidden: bool,
    sendDuration: string,
    trackDuration: string,
    frequency: string,
    difficultyFilter: seq<int>,
    createDate: Option<Time>,
    pstsCount: int,
    psts: seq<PstSummary>)

  /** `groups`, `difficultyFilter` and `psts` are the JSON columns all_groups,
      all_difficulty_filter and all_psts. */
  datatype FlatCampaign = FlatCampaign(
    campaignId: int,
    name: string,
    groups: string,
    lastPhishPronePercentage: real,
    lastRun: Option<Time>,
    status: string,
    hidden: bool,
    sendDuration: string,
    trackDuration: string,
    frequency: string,
    difficultyFilter: string,
    createDate: Option<Time>,
    pstsCount: int,
    psts: string)

  // ---------------------------------------------------------------
  // Groups.

  datatype RiskScoreHistory = RiskScoreHistory(groupId: int, riskScore: real, date: string)

  datatype Group = Group(
    id: int,
    name: string,
    groupType: string,
    adiGuid: string,
    memberCount: int,
    currentRiskScore: real,
    riskScoreHistory: seq<RiskScoreHistory>,
    status: string)

  datatype FlatGroup = FlatGroup(
    id: int,
    name: string,
    groupType: string,
    adiGuid: string,
    memberCount: int,
    currentRiskScore: real,
    status: string)
}
