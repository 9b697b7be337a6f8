/** The console report of the analytics dashboard: it runs the four
    analytics queries one after the other and prints, section by section,
    the campaign overview, the weekly trends, the user engagement
    statistics and the response-time summary. The overview and the
    response-time summary are reductions over the returned rows computed
    in the script itself. A query error ends the report where it happens;
    it is caught and logged, never passed on. The printing itself is not
    modelled: a section is present in the `Report` exactly when it was
    printed. */
module Dashboard {
  import opened Schema
  import opened Sequences
  import opened Numbers
  import opened Analytics

  /* ---------------------------------------------------------------- */
  /* Campaign overview                                                */
  /* ---------------------------------------------------------------- */

  /** The totals over every campaign row and the rates derived from them. */
  datatype Totals = Totals(
    totalSent: int,
    totalClicks: int,
    totalActions: int,
    clickThroughRate: real,
    conversionRate: real)

  /** The overview section: the number of campaigns, and their totals when
      there is at least one campaign. */
  datatype Overview = Overview(totalCampaigns: nat, totals: Option<Totals>)

  /** `totalSent > 0 ? (part / totalSent) * 100 : 0`. */
  function OverallRate(part: int, totalSent: int): (p: real)
    ensures totalSent <= 0 ==> p == 0.0
    ensures totalSent > 0 ==> p * (totalSent as real) == 100.0 * (part as real)
  {
    if totalSent > 0 then
      PercentTimesWhole(part, totalSent);
      Percent(part, totalSent)
    else 0.0
  }

  /** The overview of the campaign rows. */
  function OverviewOf(campaigns: seq<EffectivenessRow>): (o: Overview)
    ensures o.totalCampaigns == |campaigns|
    ensures o.totals.Some? <==> campaigns != []
  {
    if campaigns == [] then Overview(0, None)
    else
      var sent := Sum(campaigns, Sent);
      var clicks := Sum(campaigns, Clicks);
      var actions := Sum(campaigns, Checks);
      Overview(|campaigns|, Some(Totals(sent, clicks, actions,
        OverallRate(clicks, sent), OverallRate(actions, sent))))
  }

  /* ---------------------------------------------------------------- */
  /* Response-time summary                                            */
  /* ---------------------------------------------------------------- */

  /** The response-time section: the no-data line, or the summary. A
      percentage is `None` when its division would be by zero, where the
      script would print a non-finite number. */
  datatype ResponseSummary =
    | NoResponseData
    | Summary(
        avgResponseTime: real,
        totalResponses: int,
        sameDayResponses: int,
        weekResponses: int,
        sameDayPercent: Option<real>,
        weekPercent: Option<real>)

  function SameDayOf(r: ResponseRow): int { r.sameDayResponses }
  function WithinWeekOf(r: ResponseRow): int { r.weekResponses }

  /** `(part / total) * 100` in the script, which has no guard. */
  function UnguardedPercent(part: int, total: int): (p: Option<real>)
    ensures p.None? <==> total == 0
    ensures p.Some? ==> p.value * (total as real) == 100.0 * (part as real)
    ensures 0 <= part <= total ==> p.Some? ==> 0.0 <= p.value <= 100.0
  {
    if total == 0 then None
    else
      PercentTimesWhole(part, total);
      PercentWithin(part, total);
      Some(Percent(part, total))
  }

  lemma PercentWithin(part: int, total: int)
    requires total != 0
    ensures 0 <= part <= total ==> 0.0 <= Percent(part, total) <= 100.0
  {
    if 0 <= part <= total {
      PercentBounds(part, total);
    }
  }

  /** The summary of the response-time rows, with the counts added up as
      integers. The mean of the per-campaign averages is that of the
      script: each campaign weighs the same. */
  function ResponseSummaryOf(rows: seq<ResponseRow>): (s: ResponseSummary)
    ensures s.NoResponseData? <==> rows == []
    ensures s.Summary? ==>
      s.totalResponses == Sum(rows, Total)
      && s.sameDayResponses == Sum(rows, SameDayOf)
      && s.weekResponses == Sum(rows, WithinWeekOf)
  {
    if rows == [] then NoResponseData
    else
      var total := Sum(rows, Total);
      var sameDay := Sum(rows, SameDayOf);
      var week := Sum(rows, WithinWeekOf);
      Summary(RealSum(rows, FastestFirst) / (|rows| as real), total, sameDay, week,
              UnguardedPercent(sameDay, total), UnguardedPercent(week, total))
  }

  /** Rows that each count at least one response, with the same-day ones
      among the within-week ones, give a summary whose percentages never
      divide by zero and whose counts keep that order. */
  lemma ResponseSummaryBounds(rows: seq<ResponseRow>)
    requires forall x :: x in rows ==> x.totalResponses >= 1 && 0 <= x.sameDayResponses <= x.weekResponses <= x.totalResponses
    requires rows != []
    ensures var s := ResponseSummaryOf(rows);
      s.Summary?
      && |rows| <= s.totalResponses
      && 0 <= s.sameDayResponses <= s.weekResponses <= s.totalResponses
      && s.sameDayPercent.Some? && 0.0 <= s.sameDayPercent.value <= 100.0
      && s.weekPercent.Some? && 0.0 <= s.weekPercent.value <= 100.0
  {
    SumConstOne(rows, CountedRow);
    SumMonotone(rows, CountedRow, Total);
    SumMonotone(rows, ZeroOf, SameDayOf);
    SumConstZero(rows);
    SumMonotone(rows, SameDayOf, WithinWeekOf);
    SumMonotone(rows, WithinWeekOf, Total);
  }

  function CountedRow(r: ResponseRow): int { 1 }
  function ZeroOf(r: ResponseRow): int { 0 }

  lemma {:induction false} SumConstZero(rows: seq<ResponseRow>)
    ensures Sum(rows, ZeroOf) == 0
  {
    if rows != [] {
      SumConstZero(rows[..|rows| - 1]);
    }
  }

  /** The counts as the script adds them up. The driver returns COUNT(*)
      columns, which are 64-bit, as decimal strings, and `reduce` starts
      from the number 0: `0 + "3"` is the string "03", and every further
      `+` appends. The report prints this string and divides by its
      numeric reading. */
  function JoinedCounts(rows: seq<ResponseRow>, field: ResponseRow -> int): (s: string)
    ensures |s| >= 1 + |rows| && s[0] == '0'
  {
    if rows == [] then "0"
    else
      var init := JoinedCounts(rows[..|rows| - 1], field);
      init + DecimalString(field(rows[|rows| - 1]))
  }

  /** Two campaigns with one and two responses: the script reports "012"
      responses, read as twelve where three is meant. */
  lemma JoinedCountsExample()
    ensures var a := ResponseRow("a", 1.0, 1, 1, 1, 1, 1);
      var b := ResponseRow("b", 2.0, 2, 2, 2, 0, 2);
      JoinedCounts([a, b], Total) == "012"
      && ParseInt(JoinedCounts([a, b], Total)) == Some(12)
      && Sum([a, b], Total) == 3
  {
    var a := ResponseRow("a", 1.0, 1, 1, 1, 1, 1);
    var b := ResponseRow("b", 2.0, 2, 2, 2, 0, 2);
    assert [a, b][..1] == [a] && [a][..0] == [];
    assert DecimalString(1) == "1" && DecimalString(2) == "2";
    assert JoinedCounts([a], Total) == "01";
    assert JoinedCounts([a, b], Total) == "01" + "2" == "012";
    assert Sum([a], Total) == 1;
    ReadsAsTwelve();
  }

  /** The string "012" reads as the number twelve. */
  lemma ReadsAsTwelve()
    ensures ParseInt("012") == Some(12)
  {
    UnsignedTwelve();
    assert TrimStart("012") == "012" by {
      assert !IsJsWhitespace('0');
    }
  }

  lemma UnsignedTwelve()
    ensures ParseUnsigned("012") == Some(12)
  {
    RunOfTwelve();
    ValueOfTwelve();
    assert "012"[..3] == "012";
  }

  lemma RunOfTwelve()
    ensures DigitRun("012", 10) == 3
  {
    var s := "012";
    assert s[1..] == "12" && s[1..][1..] == "2" && s[1..][1..][1..] == [];
    assert DigitRun("2", 10) == 1;
    assert DigitRun("12", 10) == 2;
  }

  lemma ValueOfTwelve()
    ensures forall i :: 0 <= i < 3 ==> DigitValue("012"[i], 10).Some?
    ensures DigitsValue("012", 10) == 12
  {
    var s := "012";
    assert s[..2] == "01" && "01"[..1] == "0" && "0"[..0] == [];
    assert DigitsValue("0", 10) == 0;
    assert DigitsValue("01", 10) == 1;
  }

  /* ---------------------------------------------------------------- */
  /* The report                                                       */
  /* ---------------------------------------------------------------- */

  /** The four queries, in the order the report runs them. */
  datatype Query = EffectivenessQuery | WeeklyQuery | EngagementQuery | ResponseQuery

  /** The sections printed; a section after the first failed query is
      absent. */
  datatype Report = Report(
    overview: Option<Overview>,
    weekly: Option<seq<WeekRow>>,
    users: Option<EngagementStats>,
    responses: Option<ResponseSummary>)

  /** The report over the store at `now`; the queries named in `failing`
      are rejected by the store. */
  function GenerateReport(view: seq<EffectivenessRow>, log: seq<DeliveryRow>, clicks: seq<ClickRow>,
                          actions: seq<ActionRow>, now: int, failing: set<Query>): (r: Report)
    ensures r.overview.Some? <==> EffectivenessQuery !in failing
    ensures r.weekly.Some? <==> r.overview.Some? && WeeklyQuery !in failing
    ensures r.users.Some? <==> r.weekly.Some? && EngagementQuery !in failing && log != []
    ensures r.responses.Some? <==> r.users.Some? && ResponseQuery !in failing
    ensures r.overview.Some? ==> r.overview.value.totalCampaigns == |view|
  {
    match CampaignEffectiveness(view, None, EffectivenessQuery in failing)
    case Fail(_) => Report(None, None, None, None)
    case Ok(campaigns) =>
      var overview := OverviewOf(campaigns);
      match WeeklyTrends(view, DefaultWeeks, now, WeeklyQuery in failing)
      case Fail(_) => Report(Some(overview), None, None, None)
      case Ok(weeks) =>
        match UserEngagementStats(log, clicks, actions, EngagementQuery in failing)
        case Fail(_) => Report(Some(overview), Some(weeks), None, None)
        case Ok(users) =>
          match ResponseTimes(actions, ResponseQuery in failing)
          case Fail(_) => Report(Some(overview), Some(weeks), Some(users), None)
          case Ok(rows) => Report(Some(overview), Some(weeks), Some(users), Some(ResponseSummaryOf(rows)))
  }

  /** The overview printed by the report: the totals are those of every
      campaign in the store, and the rates are 0 when nothing was sent. */
  lemma ReportOverview(view: seq<EffectivenessRow>, log: seq<DeliveryRow>, clicks: seq<ClickRow>,
                       actions: seq<ActionRow>, now: int, failing: set<Query>)
    requires EffectivenessQuery !in failing
    ensures var o := GenerateReport(view, log, clicks, actions, now, failing).overview.value;
      (o.totals.Some? <==> view != [])
      && (o.totals.Some? ==>
            o.totals.value.totalSent == Sum(view, Sent)
            && o.totals.value.totalClicks == Sum(view, Clicks)
            && o.totals.value.totalActions == Sum(view, Checks)
            && (Sum(view, Sent) <= 0 ==> o.totals.value.clickThroughRate == 0.0 && o.totals.value.conversionRate == 0.0))
  {
    var campaigns := CampaignEffectiveness(view, None, false).value;
    assert |campaigns| == |multiset(campaigns)| == |multiset(view)| == |view|;
    SumPermutation(campaigns, view, Sent);
    SumPermutation(campaigns, view, Clicks);
    SumPermutation(campaigns, view, Checks);
  }

  /** The response-time summary printed by the report: the no-data line
      exactly when there is no battery check; otherwise the total is the
      number of checks, the counts keep same-day <= within-week <= total
      and neither percentage divides by zero. */
  lemma ReportResponses(view: seq<EffectivenessRow>, log: seq<DeliveryRow>, clicks: seq<ClickRow>,
                        actions: seq<ActionRow>, now: int, failing: set<Query>)
    requires GenerateReport(view, log, clicks, actions, now, failing).responses.Some?
    ensures var s := GenerateReport(view, log, clicks, actions, now, failing).responses.value;
      (s.NoResponseData? <==> actions == [])
      && (s.Summary? ==>
            s.totalResponses == |actions|
            && 0 <= s.sameDayResponses <= s.weekResponses <= s.totalResponses
            && s.sameDayPercent.Some? && 0.0 <= s.sameDayPercent.value <= 100.0
            && s.weekPercent.Some? && 0.0 <= s.weekPercent.value <= 100.0)
  {
    var rows := ResponseTimes(actions, false).value;
    ResponseTimesRows(actions);
    if rows != [] {
      ResponseSummaryBounds(rows);
    }
  }
}
