/**
 * The dashboard: three reads awaited one after another (summary stats, the
 * weekly series, the weekly breakdown), each response normalised with `||`
 * defaults, and two breakdown tables that fall back to a single "No data" row.
 */
module Dashboard {
  import opened Js
  import opened Screen

  datatype Stats = Stats(emailsSent: Value, activeCampaigns: Value, engagedLeads: Value, systemHealth: Value)

  /** What the cards show before the first read settles. */
  const InitialStats: Stats := Stats(Num(0), Num(0), Num(0), Str("Loading..."))

  /** Each count falls back to 0 and the health to "Healthy" when the response value is falsy. */
  function NormaliseStats(raw: Stats): (s: Stats)
    ensures Truthy(s.systemHealth)
    ensures Truthy(raw.emailsSent) ==> s.emailsSent == raw.emailsSent
    ensures !Truthy(raw.emailsSent) ==> s.emailsSent == Num(0)
    ensures Truthy(raw.activeCampaigns) ==> s.activeCampaigns == raw.activeCampaigns
    ensures !Truthy(raw.activeCampaigns) ==> s.activeCampaigns == Num(0)
    ensures Truthy(raw.engagedLeads) ==> s.engagedLeads == raw.engagedLeads
    ensures !Truthy(raw.engagedLeads) ==> s.engagedLeads == Num(0)
    ensures Truthy(raw.systemHealth) ==> s.systemHealth == raw.systemHealth
    ensures !Truthy(raw.systemHealth) ==> s.systemHealth == Str("Healthy")
  {
    Stats(Or(raw.emailsSent, Num(0)), Or(raw.activeCampaigns, Num(0)), Or(raw.engagedLeads, Num(0)),
      Or(raw.systemHealth, Str("Healthy")))
  }

  /** Normalised stats are a fixed point: normalising again changes nothing. */
  lemma NormaliseIdempotent(raw: Stats)
    ensures NormaliseStats(NormaliseStats(raw)) == NormaliseStats(raw)
  {
  }

  /** A bar of the weekly chart; `day` is the `label` field. */
  datatype Point = Point(day: Value, sent: Value, engaged: Value)

  datatype Entry = Entry(name: Value, count: Value)

  datatype Breakdown = Breakdown(byCampaign: seq<Entry>, byUser: seq<Entry>)

  const EmptyBreakdown: Breakdown := Breakdown([], [])

  datatype DashboardState = DashboardState(
    stats: Stats,
    chartData: seq<Point>,
    loading: bool,
    error: Option<string>,
    breakdown: Breakdown)

  const InitialState: DashboardState := DashboardState(InitialStats, [], true, None, EmptyBreakdown)

  const LoadError: string := "Failed to fetch dashboard data"

  /**
   * The `/stats` read delivered an object. A `None` payload is a null or
   * undefined body: reading `statsResponse.data.emailsSent` then throws a
   * TypeError, which the same `catch` turns into the error message.
   */
  predicate StatsRead(stats: Outcome<Option<Stats>>) {
    stats.Success? && stats.value.Some?
  }

  /**
   * The three reads in order; a rejection skips the rest. For the second and
   * third reads a `None` payload stands for a falsy `data` (an array is
   * truthy even when empty), which falls back to an empty value.
   */
  function LoadDashboard(
    stats: Outcome<Option<Stats>>, weekly: Outcome<Option<seq<Point>>>, breakdown: Outcome<Option<Breakdown>>): (s: DashboardState)
    ensures !s.loading
    ensures s.error.Some? <==> !StatsRead(stats) || weekly.Failure? || breakdown.Failure?
    ensures s.error.Some? ==> s.error.value == LoadError
    ensures !StatsRead(stats) ==> s.stats == InitialStats
    ensures StatsRead(stats) ==> s.stats == NormaliseStats(stats.value.value)
    ensures StatsRead(stats) && weekly.Success? ==>
      s.chartData == (if weekly.value.Some? then weekly.value.value else [])
    ensures !StatsRead(stats) || weekly.Failure? ==> s.chartData == []
    ensures StatsRead(stats) && weekly.Success? && breakdown.Success? ==>
      s.breakdown == (if breakdown.value.Some? then breakdown.value.value else EmptyBreakdown)
    ensures !(StatsRead(stats) && weekly.Success? && breakdown.Success?) ==> s.breakdown == EmptyBreakdown
  {
    var failed := InitialState.(loading := false, error := Some(LoadError));
    match stats
    case Failure => failed
    case Success(None) => failed
    case Success(Some(raw)) =>
      var withStats := failed.(stats := NormaliseStats(raw));
      match weekly
      case Failure => withStats
      case Success(points) =>
        var chart := if points.Some? then points.value else [];
        var withChart := withStats.(chartData := chart);
        match breakdown
        case Failure => withChart
        case Success(b) =>
          withChart.(error := None, breakdown := if b.Some? then b.value else EmptyBreakdown)
  }

  /** A rejected read, whichever it is, or a missing `/stats` body ends in the error view; three good reads end in the page. */
  lemma AnyFailureShowsError(stats: Outcome<Option<Stats>>, weekly: Outcome<Option<seq<Point>>>, breakdown: Outcome<Option<Breakdown>>)
    ensures !StatsRead(stats) || weekly.Failure? || breakdown.Failure? ==>
      DashboardScreen(LoadDashboard(stats, weekly, breakdown)) == ErrorView(LoadError)
    ensures StatsRead(stats) && weekly.Success? && breakdown.Success? ==>
      DashboardScreen(LoadDashboard(stats, weekly, breakdown)).ContentView?
  {
  }

  datatype TableRow = NoDataRow | EntryRow(name: Value, count: Value)

  /** A breakdown table: one "No data" row when empty, else one row per entry with the name defaulting to 'Unknown'. */
  function BreakdownRows(entries: seq<Entry>): (rows: seq<TableRow>)
    ensures |entries| == 0 ==> rows == [NoDataRow]
    ensures |entries| > 0 ==> |rows| == |entries|
    ensures |entries| > 0 ==> forall i :: 0 <= i < |rows| ==>
      rows[i].EntryRow? && rows[i].count == entries[i].count
      && (Truthy(entries[i].name) ==> rows[i].name == entries[i].name)
      && (!Truthy(entries[i].name) ==> rows[i].name == Str("Unknown"))
    ensures forall i :: 0 <= i < |rows| && rows[i].EntryRow? ==> Truthy(rows[i].name)
  {
    if |entries| == 0 then [NoDataRow]
    else seq(|entries|, i requires 0 <= i < |entries| => EntryRow(Or(entries[i].name, Str("Unknown")), entries[i].count))
  }

  /** A table has one row for each entry and never fewer than one; "No data" appears exactly when it is empty. */
  lemma BreakdownRowCount(entries: seq<Entry>)
    ensures |BreakdownRows(entries)| == (if |entries| == 0 then 1 else |entries|)
    ensures NoDataRow in BreakdownRows(entries) <==> |entries| == 0
  {
  }

  datatype DashboardPage = DashboardPage(
    stats: Stats,
    chart: Option<seq<Point>>,
    byCampaign: seq<TableRow>,
    byUser: seq<TableRow>)

  /** Loading, then the error, then the cards, the chart (or its notice) and the two tables. */
  function DashboardScreen(s: DashboardState): (v: View<DashboardPage>)
    ensures v.LoadingView? <==> s.loading
    ensures !s.loading && ErrorSet(s.error) ==> v == ErrorView(s.error.value)
    ensures v.ContentView? <==> !s.loading && !ErrorSet(s.error)
    ensures v.ContentView? ==>
      && v.content.stats == s.stats
      && (v.content.chart.Some? <==> |s.chartData| > 0)
      && (v.content.chart.Some? ==> v.content.chart.value == s.chartData)
      && v.content.byCampaign == BreakdownRows(s.breakdown.byCampaign)
      && v.content.byUser == BreakdownRows(s.breakdown.byUser)
  {
    match Render(Load(s.loading, s.error, s))
    case LoadingView => LoadingView
    case ErrorView(m) => ErrorView(m)
    case ContentView(d) =>
      ContentView(DashboardPage(d.stats, if |d.chartData| > 0 then Some(d.chartData) else None,
        BreakdownRows(d.breakdown.byCampaign), BreakdownRows(d.breakdown.byUser)))
  }
}
