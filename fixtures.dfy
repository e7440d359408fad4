/** The example records of the archiver's tests and the flat rows the tests
    expect, with lemmas that the flatteners produce exactly those rows. */
module Fixtures {
  import opened Results
  import opened Records
  import opened Flatten
  import opened Text

  const Stamp: Time := Time("2019-04-02T15:02:38.000Z")

  function ExampleSecurityTest(): SecurityTest
  {
    SecurityTest(
      campaignId := 3423, pstId := 16142, status := "Closed", name := "Corporate Test",
      groups := [GroupSummary(16342, "Corporate Employees"), GroupSummary(16343, "Volunteers")],
      phishPronePercentage := 0.5, startedAt := Some(Stamp), duration := 1,
      categories := [CategoryRef(4237, "Current Events"), CategoryRef(4238, "Other")],
      template := TemplateRef(11428, "CNN Breaking News"),
      landingPage := LandingPageRef(1842, "SEI Landing Page"),
      scheduledCount := 42, deliveredCount := 4, openedCount := 24, clickedCount := 20,
      repliedCount := 0, attachmentOpenCount := 3, macroEnabledCount := 0, dataEnteredCount := 0,
      vulnerablePluginCount := 0, exploitedCount := 2, reportedCount := 0, bouncedCount := 0)
  }

  function ExampleFlatSecurityTest(): FlatSecurityTest
  {
    FlatSecurityTest(
      campaignId := 3423, pstId := 16142, status := "Closed", name := "Corporate Test",
      groups := "Corporate Employees,Volunteers",
      phishPronePercentage := 0.5, startedAt := Some(Stamp), duration := 1,
      categories := "Current Events,Other",
      templateId := 11428, templateName := "CNN Breaking News",
      landingPageId := 1842, landingPageName := "SEI Landing Page",
      scheduledCount := 42, deliveredCount := 4, openedCount := 24, clickedCount := 20,
      repliedCount := 0, attachmentOpenCount := 3, macroEnabledCount := 0, dataEnteredCount := 0,
      vulnerablePluginCount := 0, exploitedCount := 2, reportedCount := 0, bouncedCount := 0)
  }

  function ExampleRecipient(): Recipient
  {
    Recipient(
      recipientId := 3077742, pstId := 14240,
      user := RecipientUser(264215, None, "Bob", "Ross", "bob.r@kb4-demo.com"),
      template := TemplateRef(2, "Your Amazon Order"),
      scheduledAt := Some(Stamp), deliveredAt := Some(Stamp), openedAt := Some(Stamp),
      clickedAt := Some(Stamp), repliedAt := Some(Stamp), attachmentOpenedAt := None,
      macroEnabledAt := None, dataEnteredAt := Some(Stamp), vulnerablePluginsAt := None,
      exploitedAt := None, reportedAt := None, bouncedAt := None,
      ip := "XX.XX.XXX.XXX", ipLocation := "St.Petersburg, FL", browser := "Chrome",
      browserVersion := "48.0", os := "MacOSX")
  }

  function ExampleFlatRecipient(): FlatRecipient
  {
    FlatRecipient(
      recipientId := 3077742, pstId := 14240,
      userId := 264215, userActiveDirectoryGuid := None, userFirstName := "Bob",
      userLastName := "Ross", userEmail := "bob.r@kb4-demo.com",
      templateId := 2, templateName := "Your Amazon Order",
      scheduledAt := Some(Stamp), deliveredAt := Some(Stamp), openedAt := Some(Stamp),
      clickedAt := Some(Stamp), repliedAt := Some(Stamp), attachmentOpenedAt := None,
      macroEnabledAt := None, dataEnteredAt := Some(Stamp), vulnerablePluginsAt := None,
      exploitedAt := None, reportedAt := None, bouncedAt := None,
      ip := "XX.XX.XXX.XXX", ipLocation := "St.Petersburg, FL", browser := "Chrome",
      browserVersion := "48.0", os := "MacOSX")
  }

  function ExampleCampaign(): Campaign
  {
    Campaign(
      campaignId := 242333, name := "One Time Phishing Security Test",
      groups := [GroupSummary(0, "All Users")],
      lastPhishPronePercentage := 0.3, lastRun := Some(Stamp), status := "Closed",
      hidden := false, sendDuration := "3 Business Days", trackDuration := "3 Days",
      frequency := "One Time", difficultyFilter := [1, 2, 3, 4, 5],
      createDate := Some(Stamp), pstsCount := 1,
      psts := [PstSummary(1, "Closed", Some(Stamp), 123, 0.3)])
  }

  function ExampleFlatCampaign(): FlatCampaign
  {
    FlatCampaign(
      campaignId := 242333, name := "One Time Phishing Security Test",
      groups := "All Users",
      lastPhishPronePercentage := 0.3, lastRun := Some(Stamp), status := "Closed",
      hidden := false, sendDuration := "3 Business Days", trackDuration := "3 Days",
      frequency := "One Time", difficultyFilter := "1,2,3,4,5",
      createDate := Some(Stamp), pstsCount := 1, psts := "1")
  }

  lemma SecurityTestFixture()
    ensures FlattenTest(ExampleSecurityTest()) == ExampleFlatSecurityTest()
  {
    var t := ExampleSecurityTest();
    assert GroupNames(t.groups) == ["Corporate Employees", "Volunteers"];
    assert CategoryNames(t.categories) == ["Current Events", "Other"];
  }

  lemma RecipientFixture()
    ensures FlattenRecipient(ExampleRecipient()) == ExampleFlatRecipient()
  {
  }

  lemma CampaignFixture()
    ensures FlattenCampaign(ExampleCampaign()) == ExampleFlatCampaign()
  {
    var c := ExampleCampaign();
    assert GroupNames(c.groups) == ["All Users"];
    assert DecimalStrings(c.difficultyFilter) == ["1", "2", "3", "4", "5"];
    assert PstSummaryIds(c.psts) == [1];
    assert DecimalStrings([1]) == ["1"];
  }
}
