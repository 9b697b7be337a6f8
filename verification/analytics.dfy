/** The four read-side reports over the accumulated facts: campaign
    effectiveness, weekly trends, user engagement and response times. Each
    is a SELECT over the relational store, modelled as a function of the
    tables it reads; a rejected query is a StoreError, passed on to the
    caller rather than turned into partial data. Ratios are exact: the
    rounding to two decimals is not modelled. */
module Analytics {
  import opened Schema
  import opened Sequences

  /** `(part / whole) * 100`. */
  function Percent(part: int, whole: int): real
    requires whole != 0
  {
    (part as real / whole as real) * 100.0
  }

  /** `CASE WHEN whole > 0 THEN part / whole * 100 ELSE 0 END`. */
  function GuardedPercent(part: int, whole: int): (p: real)
    ensures whole <= 0 ==> p == 0.0
    ensures 0 <= part <= whole ==> 0.0 <= p <= 100.0
  {
    if whole > 0 then Percent(part, whole) else 0.0
  }

  /* ---------------------------------------------------------------- */
  /* Campaign effectiveness                                           */
  /* ---------------------------------------------------------------- */

  /** Sort key of `ORDER BY created_at DESC`. */
  function NewestFirst(r: EffectivenessRow): real {
    -(r.createdAt as real)
  }

  /** The effectiveness rows, of one campaign when a campaign id is given
      (a truthy argument) and of all campaigns otherwise, newest first. */
  function CampaignEffectiveness(view: seq<EffectivenessRow>, campaignId: Option<string>, fails: bool)
    : (r: Outcome<seq<EffectivenessRow>>)
    ensures r.Fail? <==> fails
    ensures r.Fail? ==> r.failure == StoreError
    ensures r.Ok? ==> forall i, j :: 0 <= i < j < |r.value| ==> r.value[i].createdAt >= r.value[j].createdAt
    ensures r.Ok? && !Truthy(campaignId) ==> multiset(r.value) == multiset(view)
    ensures r.Ok? && Truthy(campaignId) ==>
      forall x :: multiset(r.value)[x] == if x.campaignId == campaignId.value then multiset(view)[x] else 0
  {
    if fails then Fail(StoreError)
    else
      var rows := if Truthy(campaignId) then Filter(view, (x: EffectivenessRow) => x.campaignId == campaignId.value)
                  else view;
      var sorted := SortBy(rows, NewestFirst);
      assert forall i, j :: 0 <= i < j < |sorted| ==> NewestFirst(sorted[i]) <= NewestFirst(sorted[j]);
      Ok(sorted)
  }

  /* ---------------------------------------------------------------- */
  /* Weekly trends                                                    */
  /* ---------------------------------------------------------------- */

  /** The trailing window when none is asked for, in weeks. */
  const DefaultWeeks: int := 8

  /** `CURRENT_DATE` at `now`: midnight of the same day (UTC). */
  function DayStart(now: int): (d: int)
    ensures d <= now < d + DayMs && d % DayMs == 0
  {
    (now / DayMs) * DayMs
  }

  /** `CURRENT_DATE - INTERVAL '<weeks> weeks'`. */
  function Cutoff(now: int, weeks: int): int {
    DayStart(now) - weeks * WeekMs
  }

  /** `DATE_TRUNC('week', t)`: the Monday midnight (UTC) that starts the
      week of `t`. The epoch fell on a Thursday, so Mondays lie three days
      before a multiple of a week. */
  function WeekStart(t: int): (w: int)
    ensures w <= t < w + WeekMs
    ensures (w + 3 * DayMs) % WeekMs == 0
  {
    ((t + 3 * DayMs) / WeekMs) * WeekMs - 3 * DayMs
  }

  /** A week start is the only Monday midnight less than a week before or
      at `t`. */
  lemma WeekStartUnique(t: int, m: int)
    requires (m + 3 * DayMs) % WeekMs == 0 && m <= t < m + WeekMs
    ensures WeekStart(t) == m
  {
    var b := (m + 3 * DayMs) / WeekMs;
    assert m + 3 * DayMs == b * WeekMs;
    assert b * WeekMs <= t + 3 * DayMs < b * WeekMs + WeekMs;
    assert (t + 3 * DayMs) / WeekMs == b;
  }

  function WeekOf(r: EffectivenessRow): int {
    WeekStart(r.createdAt)
  }

  /** The campaigns created within the trailing `weeks` weeks. */
  function Recent(view: seq<EffectivenessRow>, now: int, weeks: int): (r: seq<EffectivenessRow>)
    ensures forall x :: multiset(r)[x] == if x.createdAt >= Cutoff(now, weeks) then multiset(view)[x] else 0
  {
    Filter(view, (x: EffectivenessRow) => x.createdAt >= Cutoff(now, weeks))
  }

  /** One row of the weekly trends. */
  datatype WeekRow = WeekRow(
    weekStart: int,
    campaignsCount: int,
    totalSent: int,
    totalClicks: int,
    totalActions: int,
    avgCtr: real,
    avgConversionRate: real,
    overallCtr: real,
    overallConversionRate: real)

  function Counted(r: EffectivenessRow): int { 1 }
  function Sent(r: EffectivenessRow): int { r.totalSent }
  function Clicks(r: EffectivenessRow): int { r.totalClicks }
  function Checks(r: EffectivenessRow): int { r.totalBatteryChecks }
  function Ctr(r: EffectivenessRow): real { r.clickThroughRate }
  function ConversionRate(r: EffectivenessRow): real { r.conversionRate }

  function WeekCount(w: WeekRow): int { w.campaignsCount }
  function WeekSent(w: WeekRow): int { w.totalSent }
  function WeekClicks(w: WeekRow): int { w.totalClicks }
  function WeekActions(w: WeekRow): int { w.totalActions }

  /** The aggregates of one week's campaigns. */
  function WeekRowOf(g: seq<EffectivenessRow>, week: int): WeekRow
    requires g != []
  {
    var sent, clicks, actions := Sum(g, Sent), Sum(g, Clicks), Sum(g, Checks);
    WeekRow(week, |g|, sent, clicks, actions,
            RealSum(g, Ctr) / (|g| as real), RealSum(g, ConversionRate) / (|g| as real),
            GuardedPercent(clicks, sent), GuardedPercent(actions, sent))
  }

  /** One aggregate row per listed week. */
  function WeekRows(recent: seq<EffectivenessRow>, weeks: seq<int>): seq<WeekRow>
    requires forall k :: k in weeks ==> Group(recent, WeekOf, k) != []
  {
    seq(|weeks|, i requires 0 <= i < |weeks| => WeekRowOf(Group(recent, WeekOf, weeks[i]), weeks[i]))
  }

  /** Sort key of `ORDER BY week_start DESC`. */
  function NewestWeekFirst(w: WeekRow): real {
    -(w.weekStart as real)
  }

  /** The campaigns of the trailing `weeks` weeks grouped by week start, one
      row per week, newest week first. */
  function WeeklyTrends(view: seq<EffectivenessRow>, weeks: int, now: int, fails: bool): (r: Outcome<seq<WeekRow>>)
    ensures r.Fail? <==> fails
    ensures r.Fail? ==> r.failure == StoreError
  {
    if fails then Fail(StoreError)
    else
      var recent := Recent(view, now, weeks);
      KeysHaveGroups(recent, WeekOf);
      Ok(SortBy(WeekRows(recent, Keys(recent, WeekOf)), NewestWeekFirst))
  }

  /** The unsorted weekly rows: row `i` aggregates the group of week
      `weeks[i]`. */
  lemma WeekRowsAggregate(recent: seq<EffectivenessRow>, weeks: seq<int>)
    requires forall k :: k in weeks ==> Group(recent, WeekOf, k) != []
    ensures var rows := WeekRows(recent, weeks);
      (forall w :: w in rows ==> w.weekStart in weeks && w == WeekRowOf(Group(recent, WeekOf, w.weekStart), w.weekStart))
      && (forall k :: k in weeks ==> exists w :: w in rows && w.weekStart == k)
  {
    var rows := WeekRows(recent, weeks);
    forall k | k in weeks
      ensures exists w :: w in rows && w.weekStart == k
    {
      var i :| 0 <= i < |weeks| && weeks[i] == k;
      assert rows[i] in rows;
    }
  }

  /** Each weekly row aggregates exactly the recent campaigns of its week
      (their count, the sums of their sent, clicked and checked totals, the
      average of their own rates and the overall rates of the sums); every
      recent campaign's week has a row, there is one row per distinct week,
      and rows come newest week first. */
  lemma WeeklyTrendsRows(view: seq<EffectivenessRow>, weeks: int, now: int)
    ensures var r := WeeklyTrends(view, weeks, now, false).value;
      var recent := Recent(view, now, weeks);
      (forall i, j :: 0 <= i < j < |r| ==> r[i].weekStart >= r[j].weekStart)
      && |r| == |Keys(recent, WeekOf)|
      && (forall x :: x in recent ==> exists w :: w in r && w.weekStart == WeekOf(x))
      && (forall w :: w in r ==> (Group(recent, WeekOf, w.weekStart) != []
                                 && w == WeekRowOf(Group(recent, WeekOf, w.weekStart), w.weekStart)))
  {
    var recent := Recent(view, now, weeks);
    var ks := Keys(recent, WeekOf);
    KeysHaveGroups(recent, WeekOf);
    var rows := WeekRows(recent, ks);
    var r := WeeklyTrends(view, weeks, now, false).value;
    assert r == SortBy(rows, NewestWeekFirst);
    SameElements(r, rows);
    WeekRowsAggregate(recent, ks);
    forall i, j | 0 <= i < j < |r|
      ensures r[i].weekStart >= r[j].weekStart
    {
      assert NewestWeekFirst(r[i]) <= NewestWeekFirst(r[j]);
    }
  }

  /** The meaning of a weekly row: the number of its campaigns, the sums of
      their totals, the average of their per-campaign rates, and the overall
      rates of the sums, which are 0 when nothing was sent and otherwise
      the clicks (or checks) per send, in percent. */
  lemma WeekRowMeaning(g: seq<EffectivenessRow>, week: int)
    requires g != []
    ensures var w := WeekRowOf(g, week);
      w.weekStart == week && w.campaignsCount == |g|
      && w.totalSent == Sum(g, Sent) && w.totalClicks == Sum(g, Clicks) && w.totalActions == Sum(g, Checks)
      && w.avgCtr * (|g| as real) == RealSum(g, Ctr)
      && w.avgConversionRate * (|g| as real) == RealSum(g, ConversionRate)
      && (w.totalSent <= 0 ==> w.overallCtr == 0.0 && w.overallConversionRate == 0.0)
      && (w.totalSent > 0 ==> (w.overallCtr * (w.totalSent as real) == 100.0 * (w.totalClicks as real)
                               && w.overallConversionRate * (w.totalSent as real) == 100.0 * (w.totalActions as real)))
  {
    var w := WeekRowOf(g, week);
    var n := |g| as real;
    assert (RealSum(g, Ctr) / n) * n == RealSum(g, Ctr);
    assert (RealSum(g, ConversionRate) / n) * n == RealSum(g, ConversionRate);
    if w.totalSent > 0 {
      PercentTimesWhole(w.totalClicks, w.totalSent);
      PercentTimesWhole(w.totalActions, w.totalSent);
    }
  }

  lemma PercentTimesWhole(part: int, whole: int)
    requires whole != 0
    ensures Percent(part, whole) * (whole as real) == 100.0 * (part as real)
  {
    var q := part as real / whole as real;
    assert q * (whole as real) == part as real;
    assert Percent(part, whole) * (whole as real) == 100.0 * (q * (whole as real));
  }

  /** Summing a field over the weekly rows gives the grouped sum of the
      matching campaign column. */
  lemma WeekRowsSum(recent: seq<EffectivenessRow>, weeks: seq<int>, field: WeekRow -> int, f: EffectivenessRow -> int)
    requires Distinct(weeks) && forall x :: x in recent ==> WeekOf(x) in weeks
    requires forall k :: k in weeks ==> Group(recent, WeekOf, k) != []
    requires forall i :: 0 <= i < |weeks| ==>
      field(WeekRows(recent, weeks)[i]) == Sum(Group(recent, WeekOf, weeks[i]), f)
    ensures Sum(WeekRows(recent, weeks), field) == Sum(recent, f)
  {
    GroupRowsSum(WeekRows(recent, weeks), field, recent, WeekOf, weeks, f);
    GroupedSumIsSum(recent, WeekOf, weeks, f);
  }

  /** Over the unsorted weekly rows of the recent campaigns, the counts
      and totals add up to those of the campaigns. */
  lemma WeekRowsConserve(recent: seq<EffectivenessRow>)
    ensures var ks := Keys(recent, WeekOf);
      (forall k :: k in ks ==> Group(recent, WeekOf, k) != [])
      && var rows := WeekRows(recent, ks);
      Sum(rows, WeekCount) == |recent| && Sum(rows, WeekSent) == Sum(recent, Sent)
      && Sum(rows, WeekClicks) == Sum(recent, Clicks) && Sum(rows, WeekActions) == Sum(recent, Checks)
  {
    var ks := Keys(recent, WeekOf);
    KeysHaveGroups(recent, WeekOf);
    var rows := WeekRows(recent, ks);
    forall i | 0 <= i < |ks|
      ensures WeekCount(rows[i]) == Sum(Group(recent, WeekOf, ks[i]), Counted)
    {
      SumConstOne(Group(recent, WeekOf, ks[i]), Counted);
    }
    WeekRowsSum(recent, ks, WeekCount, Counted);
    SumConstOne(recent, Counted);
    WeekRowsSum(recent, ks, WeekSent, Sent);
    WeekRowsSum(recent, ks, WeekClicks, Clicks);
    WeekRowsSum(recent, ks, WeekActions, Checks);
  }

  /** Grouping loses and duplicates nothing: over all weekly rows the
      campaign counts add up to the number of recent campaigns, and the
      sent, clicked and checked totals to the recent campaigns' totals. */
  lemma WeeklyTrendsConserve(view: seq<EffectivenessRow>, weeks: int, now: int)
    ensures var r := WeeklyTrends(view, weeks, now, false).value;
      var recent := Recent(view, now, weeks);
      Sum(r, WeekCount) == |recent| && Sum(r, WeekSent) == Sum(recent, Sent)
      && Sum(r, WeekClicks) == Sum(recent, Clicks) && Sum(r, WeekActions) == Sum(recent, Checks)
  {
    var recent := Recent(view, now, weeks);
    WeekRowsConserve(recent);
    var rows := WeekRows(recent, Keys(recent, WeekOf));
    var r := WeeklyTrends(view, weeks, now, false).value;
    assert r == SortBy(rows, NewestWeekFirst);
    SumPermutation(r, rows, WeekCount);
    SumPermutation(r, rows, WeekSent);
    SumPermutation(r, rows, WeekClicks);
    SumPermutation(r, rows, WeekActions);
  }

  /** The overall click-through rate of a week is not the average of its
      campaigns' rates: 100 sends with 10 clicks and 10 sends with 5 clicks
      average 30% but make 15 clicks in 110 sends. */
  lemma OverallIsNotAverage()
    ensures var a := EffectivenessRow("a", "battery_reminder", 0, 30, 100, 0, 10, 10, 0, 0, 10.0, 0.0);
      var b := EffectivenessRow("b", "battery_reminder", 0, 30, 10, 0, 5, 5, 0, 0, 50.0, 0.0);
      var w := WeekRowOf([a, b], 0);
      w.avgCtr == 30.0 && w.overallCtr == 1500.0 / 110.0 && w.avgCtr != w.overallCtr
  {
    var a := EffectivenessRow("a", "battery_reminder", 0, 30, 100, 0, 10, 10, 0, 0, 10.0, 0.0);
    var b := EffectivenessRow("b", "battery_reminder", 0, 30, 10, 0, 5, 5, 0, 0, 50.0, 0.0);
    assert [a, b][..1] == [a] && [a][..0] == [];
    assert Sum([a], Sent) == 100 && Sum([a], Clicks) == 10 && RealSum([a], Ctr) == 10.0;
    assert Sum([a, b], Sent) == 110 && Sum([a, b], Clicks) == 15 && RealSum([a, b], Ctr) == 60.0;
  }

  /* ---------------------------------------------------------------- */
  /* User engagement                                                  */
  /* ---------------------------------------------------------------- */

  /** The campaigns a user was sent a reminder for. */
  function Received(log: seq<DeliveryRow>, userId: int): set<CampaignId> {
    set d | d in log && d.userId == userId :: d.campaignId
  }

  /** The received campaigns whose link the user clicked: the join on user
      and campaign keeps only clicks on received campaigns. */
  function ClickedCampaigns(log: seq<DeliveryRow>, clicks: seq<ClickRow>, userId: int): set<CampaignId> {
    set c | c in clicks && c.userId == userId && c.campaignId in Received(log, userId) :: c.campaignId
  }

  /** The received campaigns after which the user checked a battery. */
  function ActedCampaigns(log: seq<DeliveryRow>, actions: seq<ActionRow>, userId: int): set<CampaignId> {
    set a | a in actions && a.userId == userId && a.campaignId in Received(log, userId) :: a.campaignId
  }

  /** One user's engagement: distinct campaigns received, clicked and acted
      upon. */
  datatype UserEngagement = UserEngagement(userId: int, campaignsReceived: nat, campaignsClicked: nat,
                                           campaignsActedUpon: nat)

  function EngagementOf(log: seq<DeliveryRow>, clicks: seq<ClickRow>, actions: seq<ActionRow>, userId: int)
    : (e: UserEngagement)
    ensures e.campaignsClicked <= e.campaignsReceived && e.campaignsActedUpon <= e.campaignsReceived
  {
    var received := Received(log, userId);
    SubsetSize(ClickedCampaigns(log, clicks, userId), received);
    SubsetSize(ActedCampaigns(log, actions, userId), received);
    UserEngagement(userId, |received|, |ClickedCampaigns(log, clicks, userId)|,
                   |ActedCampaigns(log, actions, userId)|)
  }

  lemma SubsetSize<T>(a: set<T>, b: set<T>)
    requires a <= b
    ensures |a| <= |b|
  {
    if a != {} {
      var x :| x in a;
      SubsetSize(a - {x}, b - {x});
    }
  }

  function UserOf(d: DeliveryRow): int { d.userId }

  /** The engagement of every user that was sent a reminder, one row per
      user. */
  function Engagements(log: seq<DeliveryRow>, clicks: seq<ClickRow>, actions: seq<ActionRow>): seq<UserEngagement> {
    var users := Keys(log, UserOf);
    seq(|users|, i requires 0 <= i < |users| => EngagementOf(log, clicks, actions, users[i]))
  }

  /** The population statistics of the engagement rows. */
  datatype EngagementStats = EngagementStats(
    totalUsers: int,
    avgCampaignsPerUser: real,
    avgClicksPerUser: real,
    avgActionsPerUser: real,
    usersWhoClicked: int,
    usersWhoActed: int,
    userClickRate: real,
    userActionRate: real)

  function ReceivedCount(e: UserEngagement): real { e.campaignsReceived as real }
  function ClickedCount(e: UserEngagement): real { e.campaignsClicked as real }
  function ActedCount(e: UserEngagement): real { e.campaignsActedUpon as real }
  function HasClicked(e: UserEngagement): int { if e.campaignsClicked > 0 then 1 else 0 }
  function HasActed(e: UserEngagement): int { if e.campaignsActedUpon > 0 then 1 else 0 }

  /** The engagement statistics. The click and action rates divide by the
      number of users without a guard, so with no reminder logged at all
      the database rejects the query with a division by zero. */
  function UserEngagementStats(log: seq<DeliveryRow>, clicks: seq<ClickRow>, actions: seq<ActionRow>, fails: bool)
    : (r: Outcome<EngagementStats>)
    ensures r.Fail? <==> fails || log == []
    ensures r.Fail? ==> r.failure == if fails then StoreError else DivisionByZero
  {
    if fails then Fail(StoreError)
    else
      var es := Engagements(log, clicks, actions);
      KeysOfEmpty(log, UserOf);
      if |es| == 0 then Fail(DivisionByZero)
      else
        var n := |es|;
        var clicked, acted := Sum(es, HasClicked), Sum(es, HasActed);
        Ok(EngagementStats(n, RealSum(es, ReceivedCount) / (n as real), RealSum(es, ClickedCount) / (n as real),
                           RealSum(es, ActedCount) / (n as real), clicked, acted,
                           Percent(clicked, n), Percent(acted, n)))
  }

  /** Each user sent a reminder has exactly one engagement row, and every
      row belongs to such a user. */
  lemma EngagementsOnePerUser(log: seq<DeliveryRow>, clicks: seq<ClickRow>, actions: seq<ActionRow>)
    ensures var es := Engagements(log, clicks, actions);
      (forall d :: d in log ==> exists i :: 0 <= i < |es| && es[i].userId == d.userId)
      && (forall i, j :: 0 <= i < j < |es| ==> es[i].userId != es[j].userId)
      && (forall e :: e in es ==> e == EngagementOf(log, clicks, actions, e.userId) && e.campaignsReceived > 0)
  {
    var users := Keys(log, UserOf);
    var es := Engagements(log, clicks, actions);
    forall d | d in log
      ensures exists i :: 0 <= i < |es| && es[i].userId == d.userId
    {
      assert UserOf(d) in users;
      var i :| 0 <= i < |users| && users[i] == UserOf(d);
      assert es[i].userId == d.userId;
    }
    forall e | e in es
      ensures e.campaignsReceived > 0
    {
      var i :| 0 <= i < |es| && es[i] == e;
      assert users[i] in users;
      var d :| d in log && UserOf(d) == users[i];
      assert d.campaignId in Received(log, users[i]);
    }
  }

  /** Clicking and acting users are among all users, so their counts and
      rates are bounded; per user no more campaigns are clicked or acted
      upon than received, and so on average too. */
  lemma UserEngagementBounds(log: seq<DeliveryRow>, clicks: seq<ClickRow>, actions: seq<ActionRow>)
    requires log != []
    ensures var s := UserEngagementStats(log, clicks, actions, false).value;
      0 <= s.usersWhoClicked <= s.totalUsers && 0 <= s.usersWhoActed <= s.totalUsers
      && 0.0 <= s.userClickRate <= 100.0 && 0.0 <= s.userActionRate <= 100.0
      && s.avgClicksPerUser <= s.avgCampaignsPerUser && s.avgActionsPerUser <= s.avgCampaignsPerUser
  {
    var es := Engagements(log, clicks, actions);
    SumOfIndicators(es, HasClicked);
    SumOfIndicators(es, HasActed);
    RealSumMonotone(es, ClickedCount, ReceivedCount);
    RealSumMonotone(es, ActedCount, ReceivedCount);
    var n := |es| as real;
    assert n > 0.0;
    PercentBounds(Sum(es, HasClicked), |es|);
    PercentBounds(Sum(es, HasActed), |es|);
    DivideMonotone(RealSum(es, ClickedCount), RealSum(es, ReceivedCount), n);
    DivideMonotone(RealSum(es, ActedCount), RealSum(es, ReceivedCount), n);
  }

  lemma PercentBounds(part: int, whole: int)
    requires 0 <= part <= whole && whole > 0
    ensures 0.0 <= Percent(part, whole) <= 100.0
  {
    var q := part as real / whole as real;
    assert q * (whole as real) == part as real;
    assert 0.0 <= q <= 1.0;
  }

  lemma DivideMonotone(a: real, b: real, n: real)
    requires a <= b && n > 0.0
    ensures a / n <= b / n
  {
  }

  /* ---------------------------------------------------------------- */
  /* Response times                                                   */
  /* ---------------------------------------------------------------- */

  /** One campaign's response-time row. */
  datatype ResponseRow = ResponseRow(
    campaignId: CampaignId,
    avgResponseDays: real,
    minResponseDays: int,
    maxResponseDays: int,
    totalResponses: int,
    sameDayResponses: int,
    weekResponses: int)

  function CampaignOf(a: ActionRow): CampaignId { a.campaignId }
  function Days(a: ActionRow): int { a.daysAfterNotification }
  function DaysReal(a: ActionRow): real { a.daysAfterNotification as real }
  function SameDay(a: ActionRow): int { if a.daysAfterNotification <= 1 then 1 else 0 }
  function WithinWeek(a: ActionRow): int { if a.daysAfterNotification <= 7 then 1 else 0 }

  /** The aggregates of one campaign's battery checks. */
  function ResponseRowOf(g: seq<ActionRow>, campaignId: CampaignId): ResponseRow
    requires g != []
  {
    ResponseRow(campaignId, RealSum(g, DaysReal) / (|g| as real), MinOf(g, Days), MaxOf(g, Days),
                |g|, Sum(g, SameDay), Sum(g, WithinWeek))
  }

  /** A row's average lies between its minimum and maximum, and it counts
      at least one response, of which the same-day ones are among those
      within a week. */
  lemma ResponseRowBounds(g: seq<ActionRow>, campaignId: CampaignId)
    requires g != []
    ensures var r := ResponseRowOf(g, campaignId);
      r.totalResponses >= 1
      && r.minResponseDays as real <= r.avgResponseDays <= r.maxResponseDays as real
      && 0 <= r.sameDayResponses <= r.weekResponses <= r.totalResponses
  {
    AverageWithinRange(g);
    SumOfIndicators(g, SameDay);
    SumOfIndicators(g, WithinWeek);
    SumMonotone(g, SameDay, WithinWeek);
  }

  lemma AverageWithinRange(g: seq<ActionRow>)
    requires g != []
    ensures MinOf(g, Days) as real <= RealSum(g, DaysReal) / (|g| as real) <= MaxOf(g, Days) as real
  {
    var lo, hi := MinOf(g, Days), MaxOf(g, Days);
    assert forall x :: x in g ==> lo as real <= DaysReal(x) <= hi as real;
    RealMeanWithin(g, DaysReal, lo as real, hi as real);
  }

  function ResponseRows(actions: seq<ActionRow>, campaigns: seq<CampaignId>): seq<ResponseRow>
    requires forall k :: k in campaigns ==> Group(actions, CampaignOf, k) != []
  {
    seq(|campaigns|, i requires 0 <= i < |campaigns| =>
      ResponseRowOf(Group(actions, CampaignOf, campaigns[i]), campaigns[i]))
  }

  /** Sort key of `ORDER BY avg_response_days ASC`. */
  function FastestFirst(r: ResponseRow): real {
    r.avgResponseDays
  }

  function Total(r: ResponseRow): int { r.totalResponses }

  /** The battery checks grouped by campaign, one row per campaign that has
      one, fastest average first. */
  function ResponseTimes(actions: seq<ActionRow>, fails: bool): (r: Outcome<seq<ResponseRow>>)
    ensures r.Fail? <==> fails
    ensures r.Fail? ==> r.failure == StoreError
  {
    if fails then Fail(StoreError)
    else
      KeysHaveGroups(actions, CampaignOf);
      Ok(SortBy(ResponseRows(actions, Keys(actions, CampaignOf)), FastestFirst))
  }

  /** The unsorted response rows: each is the aggregate of its campaign's
      checks and satisfies the row bounds; each listed campaign has one. */
  lemma ResponseRowsAggregate(actions: seq<ActionRow>, campaigns: seq<CampaignId>)
    requires forall k :: k in campaigns ==> Group(actions, CampaignOf, k) != []
    ensures var rows := ResponseRows(actions, campaigns);
      (forall x :: x in rows ==> (Group(actions, CampaignOf, x.campaignId) != []
                               && x == ResponseRowOf(Group(actions, CampaignOf, x.campaignId), x.campaignId)))
      && (forall k :: k in campaigns ==> exists x :: x in rows && x.campaignId == k)
  {
    var rows := ResponseRows(actions, campaigns);
    forall k | k in campaigns
      ensures exists x :: x in rows && x.campaignId == k
    {
      var i :| 0 <= i < |campaigns| && campaigns[i] == k;
      assert rows[i] in rows;
    }
  }

  /** The response counts add up to the number of checks. */
  lemma ResponseRowsCount(actions: seq<ActionRow>)
    ensures var ks := Keys(actions, CampaignOf);
      KeysHaveGroupsHold(actions) && Sum(ResponseRows(actions, ks), Total) == |actions|
  {
    var ks := Keys(actions, CampaignOf);
    KeysHaveGroups(actions, CampaignOf);
    var rows := ResponseRows(actions, ks);
    forall i | 0 <= i < |ks|
      ensures Total(rows[i]) == Sum(Group(actions, CampaignOf, ks[i]), CountedAction)
    {
      SumConstOne(Group(actions, CampaignOf, ks[i]), CountedAction);
    }
    GroupRowsSum(rows, Total, actions, CampaignOf, ks, CountedAction);
    GroupedSumIsSum(actions, CampaignOf, ks, CountedAction);
    SumConstOne(actions, CountedAction);
  }

  predicate KeysHaveGroupsHold(actions: seq<ActionRow>) {
    forall k :: k in Keys(actions, CampaignOf) ==> Group(actions, CampaignOf, k) != []
  }

  /** Every response-time row satisfies the row bounds and aggregates its
      campaign's checks; every campaign with a check has a row; rows come
      fastest first; the counts add up to the number of checks, so the
      result is empty exactly when there are no checks. */
  lemma ResponseTimesRows(actions: seq<ActionRow>)
    ensures var r := ResponseTimes(actions, false).value;
      (forall i, j :: 0 <= i < j < |r| ==> r[i].avgResponseDays <= r[j].avgResponseDays)
      && (forall x :: x in r ==>
            x.totalResponses >= 1
            && x.minResponseDays as real <= x.avgResponseDays <= x.maxResponseDays as real
            && 0 <= x.sameDayResponses <= x.weekResponses <= x.totalResponses)
      && (forall x :: x in r ==> (Group(actions, CampaignOf, x.campaignId) != []
                               && x == ResponseRowOf(Group(actions, CampaignOf, x.campaignId), x.campaignId)))
      && (forall a :: a in actions ==> exists x :: x in r && x.campaignId == a.campaignId)
      && Sum(r, Total) == |actions|
      && (r == [] <==> actions == [])
  {
    var ks := Keys(actions, CampaignOf);
    KeysHaveGroups(actions, CampaignOf);
    var rows := ResponseRows(actions, ks);
    var r := ResponseTimes(actions, false).value;
    assert r == SortBy(rows, FastestFirst);
    SameElements(r, rows);
    ResponseRowsAggregate(actions, ks);
    forall x | x in r
      ensures x.totalResponses >= 1
      ensures x.minResponseDays as real <= x.avgResponseDays <= x.maxResponseDays as real
      ensures 0 <= x.sameDayResponses <= x.weekResponses <= x.totalResponses
    {
      ResponseRowBounds(Group(actions, CampaignOf, x.campaignId), x.campaignId);
    }
    ResponseRowsCount(actions);
    SumPermutation(r, rows, Total);
    KeysOfEmpty(actions, CampaignOf);
  }

  function CountedAction(a: ActionRow): int { 1 }
}
