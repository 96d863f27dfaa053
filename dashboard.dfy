/** The metrics dashboard: it maps the statistics endpoint's answer onto the
    dashboard data, keeps the fixed demonstration data for every part the
    endpoint does not provide, and falls back to that data on any failure. */
module Dashboard {
  import opened Strings
  import opened Dict

  datatype SecurityMetrics = SecurityMetrics(
    total: int, resolved: int, unresolved: int, accessible: int, inaccessible: int,
    loginForms: int, parked: int, previouslyBreached: int)

  datatype RadarPoint = RadarPoint(category: string, value: int, fullMark: int)
  datatype TimelinePoint = TimelinePoint(date: string, newBreaches: int, resolved: int)
  datatype TopApplication = TopApplication(name: string, count: int)

  /** The dashboard data; the login-form distribution is an object of counts. */
  datatype DashboardData = DashboardData(
    securityMetrics: SecurityMetrics, vulnerabilityRadar: seq<RadarPoint>,
    loginFormDistribution: Entries<int>, timelineData: seq<TimelinePoint>,
    topApplications: seq<TopApplication>)

  /** The statistics body; `login_form_types` is `None` when null or absent. */
  datatype Statistics = Statistics(
    total_records: int, accessible_domains: int, unique_domains: int, login_forms: int,
    resolved_cases: int, is_parked: int, previously_breached: int,
    login_form_types: Option<Entries<int>>)

  const MockData: DashboardData := DashboardData(
    SecurityMetrics(1500, 600, 900, 1200, 300, 800, 150, 400),
    [RadarPoint("Unresolved Issues", 900, 1500), RadarPoint("Login Forms", 800, 1500),
     RadarPoint("Previously Breached", 400, 1500), RadarPoint("Active Sites", 1200, 1500),
     RadarPoint("Critical Services", 600, 1500), RadarPoint("High-Risk Domains", 450, 1500)],
    [("basic", 400), ("captcha", 200), ("otp", 150), ("other", 50)],
    [TimelinePoint("2024-01", 120, 80), TimelinePoint("2024-02", 150, 100),
     TimelinePoint("2024-03", 90, 130), TimelinePoint("2024-04", 200, 150)],
    [TopApplication("WordPress", 300), TopApplication("Citrix", 200), TopApplication("Exchange", 150),
     TopApplication("SharePoint", 100), TopApplication("Custom", 250)])

  const FetchFailedMessage: string := "Failed to fetch dashboard data. Using mock data instead."

  /** The resolved/unresolved and accessible/inaccessible pairs each add up to the total. */
  predicate Consistent(d: DashboardData) {
    d.securityMetrics.resolved + d.securityMetrics.unresolved == d.securityMetrics.total &&
    d.securityMetrics.accessible + d.securityMetrics.inaccessible == d.securityMetrics.total
  }

  /** The mapping applied to a 200 answer. */
  function FromStatistics(s: Statistics): (d: DashboardData)
    ensures Consistent(d)
    ensures d.securityMetrics.total == s.total_records
    ensures d.securityMetrics.resolved == s.resolved_cases
    ensures d.securityMetrics.accessible == s.accessible_domains
    ensures d.securityMetrics.loginForms == s.login_forms
    ensures d.securityMetrics.parked == 0 && d.securityMetrics.previouslyBreached == 0
    ensures d.vulnerabilityRadar == MockData.vulnerabilityRadar
    ensures d.timelineData == MockData.timelineData && d.topApplications == MockData.topApplications
    ensures d.loginFormDistribution ==
              if s.login_form_types.Some? then s.login_form_types.value else MockData.loginFormDistribution
  {
    DashboardData(
      SecurityMetrics(s.total_records, s.resolved_cases, s.total_records - s.resolved_cases,
                      s.accessible_domains, s.total_records - s.accessible_domains,
                      s.login_forms, 0, 0),
      MockData.vulnerabilityRadar,
      if s.login_form_types.Some? then s.login_form_types.value else MockData.loginFormDistribution,
      MockData.timelineData, MockData.topApplications)
  }

  /** An empty `login_form_types` object is truthy and replaces the mock distribution. */
  lemma EmptyDistributionKept(s: Statistics)
    requires s.login_form_types == Some([])
    ensures FromStatistics(s).loginFormDistribution == []
  {
  }

  /** The parked and previously-breached counts of the answer are never shown. */
  lemma AnswerCountsIgnored(s: Statistics, t: Statistics)
    requires s.(is_parked := t.is_parked, previously_breached := t.previously_breached,
                unique_domains := t.unique_domains) == t
    ensures FromStatistics(s) == FromStatistics(t)
  {
  }

  lemma MockDataConsistent()
    ensures Consistent(MockData)
  {
  }

  /** What the client sees from the statistics endpoint: a response with its
      status and decoded body, or a thrown request (which includes every
      status outside 2xx). */
  datatype Answer = Answered(status: int, body: Statistics) | Thrown

  /** The component's state, plus the data handed to `onDataUpdate` so far. */
  class DashboardPanel {
    var data: DashboardData
    var loading: bool
    var error: Option<string>
    var isRefreshing: bool
    var delivered: seq<DashboardData>

    /** The shown data always has totals that add up. */
    predicate Valid()
      reads this
    {
      Consistent(data)
    }

    constructor ()
      ensures Valid()
      ensures data == MockData && loading && error.None? && !isRefreshing && delivered == []
    {
      data := MockData;
      loading := true;
      error := None;
      isRefreshing := false;
      delivered := [];
    }

    /** `fetchData`; `hasCallback` says whether `onDataUpdate` was passed. */
    method FetchData(answer: Answer, hasCallback: bool)
      requires Valid()
      modifies this
      ensures Valid()
      ensures answer.Answered? && answer.status == 200 ==>
                data == FromStatistics(answer.body) && error.None?
      ensures !(answer.Answered? && answer.status == 200) ==>
                data == MockData && error == Some(FetchFailedMessage)
      ensures delivered == old(delivered) + (if hasCallback then [data] else [])
      ensures !loading && !isRefreshing
    {
      isRefreshing := true;
      error := None;
      if answer.Answered? && answer.status == 200 {
        var updated := FromStatistics(answer.body);
        data := updated;
        if hasCallback { delivered := delivered + [updated]; }
      } else {
        error := Some(FetchFailedMessage);
        data := MockData;
        if hasCallback { delivered := delivered + [MockData]; }
      }
      loading := false;
      isRefreshing := false;
    }
  }
}
