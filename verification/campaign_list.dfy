/**
 * The campaign screen: a client-side filter over the fetched campaigns that
 * combines an exact status filter with a three-way view mode, the per-mode
 * counts on the mode buttons, and the colour tables of its badges.
 */
module CampaignList {
  import opened Js
  import opened Seqs
  import opened Screen
  import opened Badges

  /** The view-mode buttons `all`, `active` and `finished`. */
  datatype ViewMode = All | ActiveOnly | Finished

  datatype Creator = Creator(username: Value, email: Value)

  /** A fetched campaign; `creator` is the populated `userId`, absent when not populated. */
  datatype Campaign = Campaign(
    id: string,
    name: string,
    sender: string,
    status: string,
    messagesSent: Value,
    messagesToSend: Value,
    replies: Value,
    engagementRate: Option<real>,
    duration: Value,
    creator: Option<Creator>,
    language: Value)

  /** The `/campaigns/stats/overview` payload shown on the summary cards. */
  datatype Overview = Overview(
    totalCampaigns: Value,
    activeCampaigns: Value,
    totalMessagesSent: Value,
    overallEngagementRate: Value)

  /** Filter state the screen starts with: no status filter, every campaign. */
  const InitialStatusFilter: string := ""
  const InitialViewMode: ViewMode := All

  /** `["active", "paused"].includes(status)`. */
  predicate IsActiveStatus(status: string) {
    status == "active" || status == "paused"
  }

  /** The bucket predicates of `activeCampaigns` and `finishedCampaigns`. */
  predicate IsActiveCampaign(c: Campaign) {
    IsActiveStatus(c.status)
  }

  predicate IsFinishedCampaign(c: Campaign) {
    c.status == "completed"
  }

  /** The filter callback, one early return per condition. */
  predicate Keep(c: Campaign, statusFilter: string, mode: ViewMode) {
    if statusFilter != "" && c.status != statusFilter then false
    else if mode == ActiveOnly && !IsActiveStatus(c.status) then false
    else if mode == Finished && c.status != "completed" then false
    else true
  }

  /** The status filter on its own: empty means no restriction, otherwise exact equality. */
  predicate MatchesStatusFilter(c: Campaign, statusFilter: string) {
    statusFilter == "" || c.status == statusFilter
  }

  /** The view mode on its own. */
  predicate InViewMode(c: Campaign, mode: ViewMode) {
    match mode
    case All => true
    case ActiveOnly => IsActiveStatus(c.status)
    case Finished => c.status == "completed"
  }

  /** `filteredCampaigns`: the campaigns that pass both the status filter and the view mode, in fetched order. */
  function FilteredCampaigns(cs: seq<Campaign>, statusFilter: string, mode: ViewMode): (r: seq<Campaign>)
    ensures IsSubsequence(r, cs)
    ensures forall i :: 0 <= i < |r| ==>
      r[i] in cs && MatchesStatusFilter(r[i], statusFilter) && InViewMode(r[i], mode)
    ensures forall i :: 0 <= i < |cs| && MatchesStatusFilter(cs[i], statusFilter) && InViewMode(cs[i], mode) ==>
      cs[i] in r && multiset(r)[cs[i]] == multiset(cs)[cs[i]]
  {
    var keep := c => Keep(c, statusFilter, mode);
    FilterIsSubsequence(cs, keep);
    Filter(cs, keep)
  }

  /** The screen opens with no status filter in the `all` mode, and then lists every campaign. */
  lemma UnfilteredShowsAll(cs: seq<Campaign>)
    ensures FilteredCampaigns(cs, InitialStatusFilter, InitialViewMode) == cs
  {
    FilterKeepsAll(cs, c => Keep(c, "", All));
  }

  /** The filter is the status filter followed by the view mode: the two compose by AND. */
  lemma FilterIsConjunction(cs: seq<Campaign>, statusFilter: string, mode: ViewMode)
    ensures FilteredCampaigns(cs, statusFilter, mode) ==
      Filter(Filter(cs, c => MatchesStatusFilter(c, statusFilter)), c => InViewMode(c, mode))
  {
    FilterConjunction(cs, c => MatchesStatusFilter(c, statusFilter), c => InViewMode(c, mode),
      c => Keep(c, statusFilter, mode));
  }

  /** `activeCampaigns`: active or paused. */
  function ActiveCampaigns(cs: seq<Campaign>): (r: seq<Campaign>)
    ensures forall i :: 0 <= i < |r| ==> r[i] in cs && IsActiveStatus(r[i].status)
    ensures forall i :: 0 <= i < |cs| && IsActiveStatus(cs[i].status) ==>
      cs[i] in r && multiset(r)[cs[i]] == multiset(cs)[cs[i]]
  {
    Filter(cs, IsActiveCampaign)
  }

  /** `finishedCampaigns`: completed. */
  function FinishedCampaigns(cs: seq<Campaign>): (r: seq<Campaign>)
    ensures forall i :: 0 <= i < |r| ==> r[i] in cs && r[i].status == "completed"
    ensures forall i :: 0 <= i < |cs| && cs[i].status == "completed" ==>
      cs[i] in r && multiset(r)[cs[i]] == multiset(cs)[cs[i]]
  {
    Filter(cs, IsFinishedCampaign)
  }

  /** No campaign is in both buckets, so the two counts never exceed the total. */
  lemma BucketsFit(cs: seq<Campaign>)
    ensures |ActiveCampaigns(cs)| + |FinishedCampaigns(cs)| <= |cs|
  {
    DisjointFiltersFit(cs, IsActiveCampaign, IsFinishedCampaign);
  }

  /** The count shown on a mode button. */
  function ModeCount(cs: seq<Campaign>, mode: ViewMode): (n: nat)
    ensures n <= |cs|
  {
    match mode
    case All => |cs|
    case ActiveOnly => |ActiveCampaigns(cs)|
    case Finished => |FinishedCampaigns(cs)|
  }

  /** A mode button's count is the number of rows that mode shows while no status filter is set. */
  lemma ModeCountIsRowCount(cs: seq<Campaign>, mode: ViewMode)
    ensures ModeCount(cs, mode) == |FilteredCampaigns(cs, "", mode)|
  {
    match mode
    case All =>
      UnfilteredShowsAll(cs);
    case ActiveOnly =>
      FilterExtensional(cs, c => Keep(c, "", ActiveOnly), IsActiveCampaign);
    case Finished =>
      FilterExtensional(cs, c => Keep(c, "", Finished), IsFinishedCampaign);
  }

  /** `statusColors[status] || grey`. */
  const StatusColours: map<string, Colour> :=
    map["active" := Green, "paused" := Yellow, "completed" := Blue, "draft" := Gray]

  function StatusBadge(status: string): (b: Badge)
    ensures b.text == Str(status)
    ensures b.colour == Green <==> status == "active"
    ensures b.colour == Yellow <==> status == "paused"
    ensures b.colour == Blue <==> status == "completed"
    ensures b.colour == Gray <==> status !in {"active", "paused", "completed"}
  {
    Badge(Str(status), if status in StatusColours then StatusColours[status] else Gray)
  }

  /** The status badge agrees with the buckets: green or yellow exactly for an active campaign, blue exactly for a finished one. */
  lemma StatusBadgeMatchesBuckets(c: Campaign)
    ensures StatusBadge(c.status).colour in {Green, Yellow} <==> IsActiveCampaign(c)
    ensures StatusBadge(c.status).colour == Blue <==> IsFinishedCampaign(c)
  {
  }

  /** `engagementRate || 0`: a missing rate reads as zero. */
  function RateOf(c: Campaign): (rate: real)
    ensures c.engagementRate.None? ==> rate == 0.0
    ensures c.engagementRate.Some? ==> rate == c.engagementRate.value
  {
    match c.engagementRate
    case Some(r) => r
    case None => 0.0
  }

  /** `getEngagementBadge`: green from 10 up, yellow from 5 up, red below. */
  function EngagementColour(rate: real): (t: Colour)
    ensures t == Green <==> rate >= 10.0
    ensures t == Yellow <==> 5.0 <= rate < 10.0
    ensures t == Red <==> rate < 5.0
  {
    if rate >= 10.0 then Green
    else if rate >= 5.0 then Yellow
    else Red
  }

  function TierRank(t: Colour): nat {
    match t
    case Green => 2
    case Yellow => 1
    case _ => 0
  }

  /** A higher engagement rate never earns a lower tier. */
  lemma EngagementMonotone(rate: real, rate': real)
    requires rate <= rate'
    ensures TierRank(EngagementColour(rate)) <= TierRank(EngagementColour(rate'))
  {
  }

  /** A campaign without a rate is shown in the red tier. */
  lemma MissingRateIsRed(c: Campaign)
    requires c.engagementRate.None?
    ensures EngagementColour(RateOf(c)) == Red
  {
  }

  /** One table row as the screen prints it. */
  datatype CampaignRow = CampaignRow(
    name: string,
    sender: string,
    language: Option<Value>,
    creatorName: Value,
    creatorEmail: Value,
    status: Badge,
    sent: Value,
    toSend: Value,
    replies: Value,
    rate: real,
    engagement: Colour,
    duration: Value)

  /** Every count falls back to 0 and the creator to `'Unknown'` / `'No email'`. */
  function RowOf(c: Campaign): (row: CampaignRow)
    ensures Truthy(row.creatorName) && Truthy(row.creatorEmail)
    ensures row.name == c.name && row.sender == c.sender
    ensures row.language.Some? <==> Truthy(c.language)
    ensures row.language.Some? ==> row.language.value == c.language
    ensures c.creator.None? ==> row.creatorName == Str("Unknown") && row.creatorEmail == Str("No email")
    ensures c.creator.Some? ==>
      && (Truthy(c.creator.value.username) ==> row.creatorName == c.creator.value.username)
      && (!Truthy(c.creator.value.username) ==> row.creatorName == Str("Unknown"))
      && (Truthy(c.creator.value.email) ==> row.creatorEmail == c.creator.value.email)
      && (!Truthy(c.creator.value.email) ==> row.creatorEmail == Str("No email"))
    ensures row.status == StatusBadge(c.status)
    ensures Truthy(c.messagesSent) ==> row.sent == c.messagesSent
    ensures !Truthy(c.messagesSent) ==> row.sent == Num(0)
    ensures Truthy(c.messagesToSend) ==> row.toSend == c.messagesToSend
    ensures !Truthy(c.messagesToSend) ==> row.toSend == Num(0)
    ensures Truthy(c.replies) ==> row.replies == c.replies
    ensures !Truthy(c.replies) ==> row.replies == Num(0)
    ensures Truthy(c.duration) ==> row.duration == c.duration
    ensures !Truthy(c.duration) ==> row.duration == Num(0)
    ensures row.engagement == EngagementColour(row.rate) && row.rate == RateOf(c)
  {
    var username := OrUndefined(if c.creator.Some? then Some(c.creator.value.username) else None);
    var email := OrUndefined(if c.creator.Some? then Some(c.creator.value.email) else None);
    CampaignRow(
      c.name, c.sender, if Truthy(c.language) then Some(c.language) else None,
      Or(username, Str("Unknown")), Or(email, Str("No email")),
      StatusBadge(c.status),
      Or(c.messagesSent, Num(0)), Or(c.messagesToSend, Num(0)), Or(c.replies, Num(0)),
      RateOf(c), EngagementColour(RateOf(c)),
      Or(c.duration, Num(0)))
  }

  /** What the screen holds after its two reads. */
  datatype CampaignData = CampaignData(campaigns: seq<Campaign>, overview: Option<Overview>)

  const LoadError: string := "Failed to fetch campaigns"

  /** Both reads are awaited together; either rejection leaves the screen empty and in error. */
  function LoadCampaigns(campaigns: Outcome<seq<Campaign>>, overview: Outcome<Option<Overview>>): (s: Load<CampaignData>)
    ensures !s.loading
    ensures campaigns.Success? && overview.Success? ==>
      s.error.None? && s.data == CampaignData(campaigns.value, overview.value)
    ensures campaigns.Failure? || overview.Failure? ==>
      s.error == Some(LoadError) && s.data == CampaignData([], None)
  {
    var both := PromiseAll(campaigns, overview);
    var joined := if both.Success? then Success(CampaignData(both.value.0, both.value.1)) else Failure;
    Settle(Mounted(CampaignData([], None)), joined, LoadError)
  }

  /** The loaded screen: summary cards, mode counts, the filtered rows and the empty notice. */
  datatype CampaignPage = CampaignPage(
    overview: Option<Overview>,
    allCount: nat,
    activeCount: nat,
    finishedCount: nat,
    rows: seq<CampaignRow>,
    showsEmptyNotice: bool)

  function PageOf(data: CampaignData, statusFilter: string, mode: ViewMode): (p: CampaignPage)
    ensures p.allCount == |data.campaigns|
    ensures p.activeCount == |ActiveCampaigns(data.campaigns)|
    ensures p.finishedCount == |FinishedCampaigns(data.campaigns)|
    ensures p.activeCount + p.finishedCount <= p.allCount
    ensures |p.rows| == |FilteredCampaigns(data.campaigns, statusFilter, mode)|
    ensures forall i :: 0 <= i < |p.rows| ==>
      p.rows[i] == RowOf(FilteredCampaigns(data.campaigns, statusFilter, mode)[i])
    ensures p.showsEmptyNotice <==> |p.rows| == 0
  {
    var shown := FilteredCampaigns(data.campaigns, statusFilter, mode);
    BucketsFit(data.campaigns);
    CampaignPage(
      data.overview,
      ModeCount(data.campaigns, All), ModeCount(data.campaigns, ActiveOnly), ModeCount(data.campaigns, Finished),
      seq(|shown|, i requires 0 <= i < |shown| => RowOf(shown[i])),
      |shown| == 0)
  }

  /** `if (loading) … if (error) … else` the page. */
  function CampaignScreen(s: Load<CampaignData>, statusFilter: string, mode: ViewMode): (v: View<CampaignPage>)
    ensures v.LoadingView? <==> s.loading
    ensures !s.loading && HasError(s) ==> v == ErrorView(s.error.value)
    ensures v.ContentView? <==> !s.loading && !HasError(s)
    ensures v.ContentView? ==> v.content == PageOf(s.data, statusFilter, mode)
  {
    match Render(s)
    case LoadingView => LoadingView
    case ErrorView(m) => ErrorView(m)
    case ContentView(d) => ContentView(PageOf(d, statusFilter, mode))
  }
}
