/**
 * The user detail page: the profile with its badges and plan label, and an
 * activity section whose statistics are re-read whenever the day / week /
 * month period changes.
 */
module UserDetail {
  import opened Js
  import opened Screen
  import opened Badges
  import opened Users
  import opened Text
  import UserList
  import RestrictionPage

  /** `planNumberToName[plan] || plan || 'Free'`: an unknown truthy plan is shown raw. */
  function PlanLabel(plan: Value): (r: Value)
    ensures Truthy(r)
    ensures IsPlanCode(plan) ==> r == Str(PlanCodeName(plan).value)
    ensures !IsPlanCode(plan) && Truthy(plan) ==> r == plan
    ensures !Truthy(plan) ==> r == Str("Free")
  {
    Or(Or(PlanCodeValue(plan), plan), Str("Free"))
  }

  /** The list and the detail page print the same plan label except for an unknown truthy plan, which only the detail page shows raw. */
  lemma ListAndDetailPlanLabels(plan: Value)
    ensures PlanLabel(plan) == Str(UserList.PlanLabel(plan)) <==>
      IsPlanCode(plan) || !Truthy(plan) || plan == Str("Free")
  {
  }

  /** The restriction table's plan column, reached through `plan || 'Free'`, always agrees with the detail page. */
  lemma RestrictionAndDetailPlanLabels(u: ApiUser)
    ensures RestrictionPage.PlanCell(RestrictionPage.ToRow(u).plan) == PlanLabel(u.plan)
  {
    assert !IsPlanCode(Str("Free"));
  }

  /** The period selector's three buttons. */
  datatype Period = Day | Week | Month

  const InitialPeriod: Period := Month

  function PeriodName(p: Period): string {
    match p
    case Day => "day"
    case Week => "week"
    case Month => "month"
  }

  /** A period button's label: the period with its first letter upper-cased. */
  function PeriodLabel(p: Period): (l: string)
    ensures |l| == |PeriodName(p)| && l[1..] == PeriodName(p)[1..]
    ensures l[0] == UpperChar(PeriodName(p)[0]) && !IsLower(l[0])
  {
    Capitalise(PeriodName(p))
  }

  lemma PeriodLabels()
    ensures PeriodLabel(Day) == "Day" && PeriodLabel(Week) == "Week" && PeriodLabel(Month) == "Month"
  {
  }

  /** The statistics request the page issues for a period. */
  function StatsPath(id: string, p: Period): string {
    "/stats/user/" + id + "?period=" + PeriodName(p)
  }

  /** The statistics effect runs only for a truthy (non-empty) route id. */
  function StatsRequest(id: string, p: Period): (r: Option<string>)
    ensures r.Some? <==> id != ""
    ensures r.Some? ==> r.value == StatsPath(id, p)
  {
    if id != "" then Some(StatsPath(id, p)) else None
  }

  /** Different periods ask for different resources. */
  lemma StatsPathsDistinct(id: string, p: Period, q: Period)
    requires p != q
    ensures StatsPath(id, p) != StatsPath(id, q)
  {
    var prefix := "/stats/user/" + id + "?period=";
    assert StatsPath(id, p)[|prefix|..] == PeriodName(p);
    assert StatsPath(id, q)[|prefix|..] == PeriodName(q);
  }

  datatype CountEntry = CountEntry(id: Value, count: Value)

  /** The `/stats/user/:id` payload; a missing list is the empty list. */
  datatype UserStats = UserStats(
    sentEmailsCount: Value,
    createdCampaignsCount: Value,
    totalActivities: Value,
    activitiesByType: seq<CountEntry>,
    activitiesByDay: seq<CountEntry>,
    campaignsByStatus: seq<CountEntry>)

  datatype DetailState = DetailState(
    user: Option<ApiUser>,
    userStats: Option<UserStats>,
    loading: bool,
    statsLoading: bool,
    error: Option<string>,
    period: Period)

  /** The state hooks as first rendered: the user read pending, no statistics spinner yet. */
  const InitialState: DetailState := DetailState(None, None, true, false, None, InitialPeriod)

  /**
   * The two mount effects: the user read is already flagged as loading, and
   * the statistics effect asks for the initial period and starts its spinner
   * when the route has an id.
   */
  function Mount(id: string): (r: (DetailState, Option<string>))
    ensures r.0.loading && r.0.user.None? && r.0.userStats.None? && r.0.error.None?
    ensures r.0.period == Month
    ensures r.0.statsLoading <==> id != ""
    ensures r.1.Some? <==> id != ""
    ensures r.1.Some? ==> r.1.value == "/stats/user/" + id + "?period=month"
  {
    (InitialState.(statsLoading := id != ""), StatsRequest(id, InitialPeriod))
  }

  const LoadError: string := "Failed to fetch user details"

  /** The user read: a payload is stored as it is (null included), a rejection sets the message. */
  function SettleUser(s: DetailState, outcome: Outcome<Option<ApiUser>>): (r: DetailState)
    ensures !r.loading
    ensures outcome.Success? ==> r.user == outcome.value && r.error == s.error
    ensures outcome.Failure? ==> r.user == s.user && r.error == Some(LoadError)
    ensures r.period == s.period && r.userStats == s.userStats && r.statsLoading == s.statsLoading
  {
    match outcome
    case Success(u) => s.(loading := false, user := u)
    case Failure => s.(loading := false, error := Some(LoadError))
  }

  /**
   * Clicking a period button. The statistics effect depends on `[id, period]`,
   * so a click on the period already selected changes no dependency: no
   * request, no spinner, no state change. Another period is stored and, for a
   * non-empty id, requested with the spinner on.
   */
  function SelectPeriod(s: DetailState, id: string, p: Period): (r: (DetailState, Option<string>))
    ensures r.0.period == p
    ensures p == s.period ==> r == (s, None)
    ensures p != s.period ==> r.1 == StatsRequest(id, p)
    ensures p != s.period && id != "" ==> r.0.statsLoading
    ensures id == "" ==> r.0.statsLoading == s.statsLoading
    ensures r.0.(period := s.period, statsLoading := s.statsLoading) == s
  {
    if p == s.period then (s, None)
    else (s.(period := p, statsLoading := s.statsLoading || id != ""), StatsRequest(id, p))
  }

  /** Clicking the same button twice issues one request: the second click is a no-op. */
  lemma ReselectIsNoOp(s: DetailState, id: string, p: Period)
    ensures var first := SelectPeriod(s, id, p).0;
      SelectPeriod(first, id, p) == (first, None)
  {
  }

  /**
   * The statistics read: a payload is stored as it is (a null body shows the
   * no-data notice); a rejection only ends the spinner and keeps the
   * statistics already shown.
   */
  function SettleStats(s: DetailState, outcome: Outcome<Option<UserStats>>): (r: DetailState)
    ensures !r.statsLoading
    ensures outcome.Success? ==> r.userStats == outcome.value
    ensures outcome.Failure? ==> r.userStats == s.userStats
    ensures r.(statsLoading := s.statsLoading, userStats := s.userStats) == s
  {
    match outcome
    case Success(st) => s.(statsLoading := false, userStats := st)
    case Failure => s.(statsLoading := false)
  }

  /** A failed re-read after a period change leaves the earlier period's figures under the new period's label. */
  lemma FailedReadKeepsOldFigures(s: DetailState, id: string, earlier: UserStats, p: Period)
    requires s.userStats == Some(earlier)
    ensures var r := SettleStats(SelectPeriod(s, id, p).0, Failure);
      r.period == p && r.userStats == Some(earlier)
  {
  }

  /** A tile of the activity section: a label (a type badge or a status) and the count printed beside it. */
  datatype Tile<L> = Tile(caption: L, count: Value)

  /** The activity section: spinner, figures, or the no-data notice. */
  datatype StatsSection =
    | StatsSpinner
    | NoActivity
    | Figures(
        sent: Value,
        created: Value,
        total: Value,
        periodName: string,
        byType: seq<Tile<Badge>>,
        byDay: seq<Value>,
        byStatus: seq<Tile<Value>>)

  function Section(statsLoading: bool, userStats: Option<UserStats>, period: Period): (v: StatsSection)
    ensures v.StatsSpinner? <==> statsLoading
    ensures v.NoActivity? <==> !statsLoading && userStats.None?
    ensures v.Figures? ==> var st := userStats.value;
      && v.sent == st.sentEmailsCount && v.created == st.createdCampaignsCount && v.total == st.totalActivities
      && v.periodName == PeriodName(period)
      && |v.byType| == |st.activitiesByType|
      && (forall i :: 0 <= i < |v.byType| ==>
            v.byType[i].caption == ActivityBadge(st.activitiesByType[i].id)
            && v.byType[i].count == st.activitiesByType[i].count)
      && |v.byStatus| == |st.campaignsByStatus|
      && (forall i :: 0 <= i < |v.byStatus| ==>
            && v.byStatus[i].count == st.campaignsByStatus[i].count
            && (Truthy(st.campaignsByStatus[i].id) ==> v.byStatus[i].caption == st.campaignsByStatus[i].id)
            && (!Truthy(st.campaignsByStatus[i].id) ==> v.byStatus[i].caption == Str("No Status")))
      && |v.byDay| == |st.activitiesByDay|
      && (forall i :: 0 <= i < |v.byDay| ==> v.byDay[i] == st.activitiesByDay[i].count)
  {
    if statsLoading then StatsSpinner
    else if userStats.None? then NoActivity
    else
      var st := userStats.value;
      Figures(st.sentEmailsCount, st.createdCampaignsCount, st.totalActivities, PeriodName(period),
        seq(|st.activitiesByType|, i requires 0 <= i < |st.activitiesByType| =>
          Tile(ActivityBadge(st.activitiesByType[i].id), st.activitiesByType[i].count)),
        seq(|st.activitiesByDay|, i requires 0 <= i < |st.activitiesByDay| => st.activitiesByDay[i].count),
        seq(|st.campaignsByStatus|, i requires 0 <= i < |st.campaignsByStatus| =>
          Tile(Or(st.campaignsByStatus[i].id, Str("No Status")), st.campaignsByStatus[i].count)))
  }

  /** The profile card and the activity section. */
  datatype Profile = Profile(
    username: string,
    email: string,
    status: Badge,
    role: Badge,
    plan: Value,
    stats: StatsSection,
    provider: Option<Value>)

  /** Loading first; then an error or a missing user; then the profile. */
  function DetailScreen(s: DetailState): (v: View<Profile>)
    ensures v.LoadingView? <==> s.loading
    ensures !s.loading && ErrorSet(s.error) ==> v == ErrorView(s.error.value)
    ensures !s.loading && !ErrorSet(s.error) && s.user.None? ==> v == ErrorView("User not found")
    ensures v.ContentView? <==> !s.loading && !ErrorSet(s.error) && s.user.Some?
    ensures v.ContentView? ==>
      && v.content.username == s.user.value.username
      && v.content.email == s.user.value.email
      && (v.content.provider.Some? <==> Truthy(s.user.value.provider))
      && (v.content.provider.Some? ==> v.content.provider.value == s.user.value.provider)
      && v.content.stats == Section(s.statsLoading, s.userStats, s.period)
      && v.content.status == VerifiedBadge(s.user.value.isVerified)
      && v.content.role == RoleBadge(s.user.value.role)
      && v.content.plan == PlanLabel(s.user.value.plan)
  {
    if s.loading then LoadingView
    else if ErrorSet(s.error) || s.user.None? then
      ErrorView(if ErrorSet(s.error) then s.error.value else "User not found")
    else
      var u := s.user.value;
      ContentView(Profile(u.username, u.email, VerifiedBadge(u.isVerified), RoleBadge(u.role),
        PlanLabel(u.plan), Section(s.statsLoading, s.userStats, s.period),
        if Truthy(u.provider) then Some(u.provider) else None))
  }

  /** The page after its user read: the message on rejection, "User not found" for a null payload, else the profile. */
  lemma UserReadOutcomes(outcome: Outcome<Option<ApiUser>>)
    ensures var v := DetailScreen(SettleUser(InitialState, outcome));
      && (outcome.Failure? ==> v == ErrorView(LoadError))
      && (outcome == Success(None) ==> v == ErrorView("User not found"))
      && (outcome.Success? && outcome.value.Some? ==> v.ContentView?)
  {
  }
}
