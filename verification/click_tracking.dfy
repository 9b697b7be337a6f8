/** The engagement tracker: an HTTP service that records the click on a
    reminder's link and the battery check that follows it, and serves a
    campaign's effectiveness row. Requests are values, the two tables it
    appends to are fields of a store object, and the database's failures
    and clock are parameters. */
module ClickTracking {
  import opened Schema
  import Numbers
  import NotificationService

  /* ---------------------------------------------------------------- */
  /* Requests and responses                                           */
  /* ---------------------------------------------------------------- */

  /** What a request says about its client: the `x-forwarded-for` header,
      the connection's and the socket's remote addresses, the address of
      the connection's own socket when that socket exists, and the
      `user-agent` header. An absent value is None. */
  datatype Client = Client(
    forwardedFor: Option<string>,
    connectionAddress: Option<string>,
    socketAddress: Option<string>,
    connectionSocket: Option<Option<string>>,
    userAgent: Option<string>)

  /** An HTTP response, by kind; `StatusCode` gives its status. */
  datatype Response =
    | Redirect(location: string)                 // 302 to the app
    | Recorded(daysAfterNotification: int)       // 200 { success: true, … }
    | Stats(row: EffectivenessRow)               // 200 with the view's row
    | BadRequest                                 // 400 missing parameters
    | NotFound                                   // 404
    | ServerError                                // 500

  function StatusCode(r: Response): int {
    match r
    case Redirect(_) => 302
    case Recorded(_) => 200
    case Stats(_) => 200
    case BadRequest => 400
    case NotFound => 404
    case ServerError => 500
  }

  /** The client address: the first truthy one of the forwarded header, the
      connection's and the socket's remote address; failing those, the
      remote address of the connection's socket when there is one, and null
      otherwise. */
  function ClientIP(c: Client): (ip: Option<string>)
    ensures Truthy(c.forwardedFor) ==> ip == c.forwardedFor
    ensures !Truthy(c.forwardedFor) && Truthy(c.connectionAddress) ==> ip == c.connectionAddress
    ensures ip == c.forwardedFor || ip == c.connectionAddress || ip == c.socketAddress
         || (c.connectionSocket.Some? && ip == c.connectionSocket.value) || ip == None
    ensures Truthy(ip) <==> (Truthy(c.forwardedFor) || Truthy(c.connectionAddress) || Truthy(c.socketAddress)
                             || (c.connectionSocket.Some? && Truthy(c.connectionSocket.value)))
    ensures (c.connectionSocket.None? && !Truthy(c.forwardedFor) && !Truthy(c.connectionAddress)
             && !Truthy(c.socketAddress)) ==> ip == None
  {
    if Truthy(c.forwardedFor) then c.forwardedFor
    else if Truthy(c.connectionAddress) then c.connectionAddress
    else if Truthy(c.socketAddress) then c.socketAddress
    else if c.connectionSocket.Some? then c.connectionSocket.value
    else None
  }

  /* ---------------------------------------------------------------- */
  /* The click route                                                  */
  /* ---------------------------------------------------------------- */

  const TrackClickPrefix: string := "/track-click/"

  /** The scheme of the app's deep links when none is configured. */
  const DefaultScheme: string := "your-app-scheme://"

  /** A route parameter: one non-empty path segment. */
  predicate Segment(s: string) {
    s != [] && forall i :: 0 <= i < |s| ==> s[i] != '/'
  }

  /** The index of the first `/` in `s`, or `|s|` when there is none. */
  function SlashIndex(s: string): (i: nat)
    ensures i <= |s| && (i < |s| ==> s[i] == '/')
    ensures forall k :: 0 <= k < i ==> s[k] != '/'
  {
    if s == [] || s[0] == '/' then 0 else 1 + SlashIndex(s[1..])
  }

  /** Matches a path against `/track-click/:campaignId/:userId` and yields
      the two parameters as written. */
  function MatchTrackClick(path: string): (m: Option<(string, string)>)
    ensures m.Some? ==> (Segment(m.value.0) && Segment(m.value.1)
                         && path == TrackClickPrefix + m.value.0 + "/" + m.value.1)
  {
    if |path| < |TrackClickPrefix| || path[..|TrackClickPrefix|] != TrackClickPrefix then None
    else
      var rest := path[|TrackClickPrefix|..];
      var j := SlashIndex(rest);
      if j == |rest| then None
      else
        var campaignId, userId := rest[..j], rest[j + 1..];
        if Segment(campaignId) && Segment(userId) then
          assert rest == campaignId + "/" + userId;
          Some((campaignId, userId))
        else None
  }

  /** Every path built from two segments matches, with those segments. */
  lemma MatchTrackClickPath(campaignId: string, userId: string)
    requires Segment(campaignId) && Segment(userId)
    ensures MatchTrackClick(TrackClickPrefix + campaignId + "/" + userId) == Some((campaignId, userId))
  {
    var path := TrackClickPrefix + campaignId + "/" + userId;
    assert path[..|TrackClickPrefix|] == TrackClickPrefix;
    var rest := path[|TrackClickPrefix|..];
    assert rest == campaignId + ("/" + userId);
    SlashIndexOfSegment(campaignId, "/" + userId);
    assert rest[..|campaignId|] == campaignId && rest[|campaignId| + 1..] == userId;
  }

  lemma {:induction false} SlashIndexOfSegment(a: string, b: string)
    requires forall i :: 0 <= i < |a| ==> a[i] != '/'
    requires b != [] && b[0] == '/'
    ensures SlashIndex(a + b) == |a|
  {
    if a != [] {
      assert (a + b)[1..] == a[1..] + b;
      SlashIndexOfSegment(a[1..], b);
    }
  }

  /** The redirect after a click: `<scheme>battery-check`, where an unset or
      empty scheme falls back to the default. */
  function AppLink(scheme: Option<string>): string {
    (if Truthy(scheme) then scheme.value else DefaultScheme) + "battery-check"
  }

  /** The outcome of a click on `/track-click/<campaignId>/<userId>`: the
      response and the click row it inserts. The insert is attempted
      whatever the ids; it fails when the store rejects it or when the user
      id is not a number (the integer column refuses NaN). */
  function Click(campaignId: string, userId: string, client: Client, scheme: Option<string>,
                 now: int, insertFails: bool): (r: (Response, Option<ClickRow>))
    ensures r.0.Redirect? <==> r.1.Some?
    ensures r.0.Redirect? <==> !insertFails && Numbers.ParseInt(userId).Some?
    ensures r.0.Redirect? || r.0 == ServerError
    ensures r.1.Some? ==>
      r.1.value.campaignId == campaignId && Some(r.1.value.userId) == Numbers.ParseInt(userId)
      && r.1.value.ipAddress == ClientIP(client) && r.1.value.userAgent == client.userAgent
      && r.1.value.clickedAt == now
      && r.0.location == AppLink(scheme)
  {
    var user := Numbers.ParseInt(userId);
    if insertFails || user.None? then (ServerError, None)
    else (Redirect(AppLink(scheme)), Some(ClickRow(campaignId, user.value, ClientIP(client), client.userAgent, now)))
  }

  /** A reminder's link leads back to its campaign and its user: the route
      yields the campaign id and the rendered user id, and a click that is
      stored records exactly that campaign and user. */
  lemma ClickAttribution(campaignId: CampaignId, userId: int, client: Client, scheme: Option<string>, now: int)
    requires Segment(campaignId)
    ensures var path := NotificationService.ClickPath(campaignId, userId);
      MatchTrackClick(path) == Some((campaignId, Numbers.DecimalString(userId)))
      && Click(campaignId, Numbers.DecimalString(userId), client, scheme, now, false)
         == (Redirect(AppLink(scheme)), Some(ClickRow(campaignId, userId, ClientIP(client), client.userAgent, now)))
  {
    var u := Numbers.DecimalString(userId);
    DecimalStringSegment(userId);
    MatchTrackClickPath(campaignId, u);
    assert NotificationService.ClickPath(campaignId, userId) == TrackClickPrefix + campaignId + "/" + u;
    Numbers.ParseDecimalString(userId);
  }

  lemma DecimalStringSegment(n: int)
    ensures Segment(Numbers.DecimalString(n))
  {
    var s := Numbers.DecimalString(n);
    if n < 0 {
      assert s == "-" + Numbers.DecimalDigits(-n);
      assert forall i :: 1 <= i < |s| ==> s[i] == Numbers.DecimalDigits(-n)[i - 1];
    }
  }

  /** The default deep link. */
  lemma DefaultAppLink()
    ensures AppLink(None) == "your-app-scheme://battery-check"
    ensures AppLink(Some("")) == "your-app-scheme://battery-check"
  {
  }

  /* ---------------------------------------------------------------- */
  /* The battery check route                                          */
  /* ---------------------------------------------------------------- */

  /** A delivery row for this campaign, user and lock. */
  predicate Matches(d: DeliveryRow, campaignId: CampaignId, userId: int, lockId: int) {
    d.campaignId == campaignId && d.userId == userId && d.lockId == lockId
  }

  /** The `sent_at` of the most recent delivery to this campaign, user and
      lock, if any: the first row of the lookup ordered by `sent_at`
      descending. */
  function LatestSentAt(log: seq<DeliveryRow>, campaignId: CampaignId, userId: int, lockId: int): (t: Option<int>)
    ensures t.None? <==> forall d :: d in log ==> !Matches(d, campaignId, userId, lockId)
    ensures t.Some? ==> exists d :: d in log && Matches(d, campaignId, userId, lockId) && d.sentAt == t.value
    ensures t.Some? ==> forall d :: d in log && Matches(d, campaignId, userId, lockId) ==> d.sentAt <= t.value
  {
    if log == [] then None
    else
      var rest := LatestSentAt(log[1..], campaignId, userId, lockId);
      var d := log[0];
      assert forall e :: e in log ==> e == d || e in log[1..];
      if !Matches(d, campaignId, userId, lockId) then rest
      else if rest.Some? && rest.value >= d.sentAt then rest
      else Some(d.sentAt)
  }

  /** Whole days elapsed: `Math.floor((now - sentAt) / 86400000)`. */
  function DaysAfter(now: int, sentAt: int): (days: int)
    ensures days * DayMs <= now - sentAt < (days + 1) * DayMs
    ensures now >= sentAt ==> days >= 0
    ensures now < sentAt ==> days < 0
  {
    (now - sentAt) / DayMs
  }

  /** 26 hours after the send is one day after it. */
  lemma DaysAfterExample()
    ensures DaysAfter(26 * 60 * 60 * 1000, 0) == 1
  {
  }

  /** The outcome of `POST /track-battery-check`: the response and the
      action row it inserts. A falsy campaign, user or lock (absent, empty
      or zero) is rejected before any query; a battery check for which no
      reminder was logged is not found; otherwise the elapsed whole days
      since the latest reminder are both stored and returned. */
  function BatteryCheck(log: seq<DeliveryRow>, campaignId: Option<string>, userId: Option<int>, lockId: Option<int>,
                        now: int, lookupFails: bool, insertFails: bool): (r: (Response, Option<ActionRow>))
    ensures r.0 == BadRequest <==> !Provided(campaignId, userId, lockId)
    ensures r.0.Recorded? <==> r.1.Some?
    ensures r.0.Recorded? || r.0 in {BadRequest, NotFound, ServerError}
    ensures r.0 == NotFound <==> (Provided(campaignId, userId, lockId) && !lookupFails
      && forall d :: d in log ==> !Matches(d, campaignId.value, userId.value, lockId.value))
    ensures r.1.Some? ==>
      var a := r.1.value;
      Provided(campaignId, userId, lockId) && !lookupFails && !insertFails
      && a == ActionRow(campaignId.value, userId.value, lockId.value, a.daysAfterNotification, now)
      && a.daysAfterNotification == r.0.daysAfterNotification
      && (exists d :: d in log && Matches(d, a.campaignId, a.userId, a.lockId)
                   && a.daysAfterNotification == DaysAfter(now, d.sentAt))
      && (forall d :: d in log && Matches(d, a.campaignId, a.userId, a.lockId)
                   ==> a.daysAfterNotification <= DaysAfter(now, d.sentAt))
  {
    if !Provided(campaignId, userId, lockId) then (BadRequest, None)
    else if lookupFails then (ServerError, None)
    else
      match LatestSentAt(log, campaignId.value, userId.value, lockId.value)
      case None => (NotFound, None)
      case Some(sentAt) =>
        if insertFails then (ServerError, None)
        else
          var days := DaysAfter(now, sentAt);
          DaysAfterMonotone(now, sentAt);
          (Recorded(days), Some(ActionRow(campaignId.value, userId.value, lockId.value, days, now)))
  }

  /** An earlier send gives at least as many elapsed days. */
  lemma DaysAfterMonotone(now: int, latest: int)
    ensures forall t :: t <= latest ==> DaysAfter(now, latest) <= DaysAfter(now, t)
  {
    forall t | t <= latest
      ensures DaysAfter(now, latest) <= DaysAfter(now, t)
    {
      var a, b := DaysAfter(now, latest), DaysAfter(now, t);
      assert a * DayMs <= now - latest <= now - t < (b + 1) * DayMs;
    }
  }

  /** All three body fields are truthy: a non-empty campaign id and
      non-zero user and lock ids. */
  predicate Provided(campaignId: Option<string>, userId: Option<int>, lockId: Option<int>) {
    Truthy(campaignId) && userId.Some? && userId.value != 0 && lockId.Some? && lockId.value != 0
  }

  /** A battery check from a user a reminder was logged for is recorded
      when the store accepts it. */
  lemma CheckAfterReminder(log: seq<DeliveryRow>, d: DeliveryRow, now: int)
    requires d in log && d.campaignId != "" && d.userId != 0 && d.lockId != 0
    ensures BatteryCheck(log, Some(d.campaignId), Some(d.userId), Some(d.lockId), now, false, false).0.Recorded?
  {
    assert Matches(d, d.campaignId, d.userId, d.lockId);
  }

  /* ---------------------------------------------------------------- */
  /* The campaign statistics route                                    */
  /* ---------------------------------------------------------------- */

  /** `GET /campaign-stats/:campaignId`: the first row of the
      effectiveness view for the campaign, or not found. */
  function CampaignStats(view: seq<EffectivenessRow>, campaignId: string, queryFails: bool): (r: Response)
    ensures r.Stats? || r in {NotFound, ServerError}
    ensures r == ServerError <==> queryFails
    ensures r == NotFound <==> !queryFails && forall e :: e in view ==> e.campaignId != campaignId
    ensures r.Stats? ==> exists j :: (0 <= j < |view| && view[j] == r.row && r.row.campaignId == campaignId
                                     && forall i :: 0 <= i < j ==> view[i].campaignId != campaignId)
  {
    if queryFails then ServerError
    else
      var j := FirstRowOf(view, campaignId);
      if j == |view| then NotFound else Stats(view[j])
  }

  /** The index of the first row for the campaign, or `|view|`. */
  function FirstRowOf(view: seq<EffectivenessRow>, campaignId: string): (j: nat)
    ensures j <= |view| && (j < |view| ==> view[j].campaignId == campaignId)
    ensures forall i :: 0 <= i < j ==> view[i].campaignId != campaignId
  {
    if view == [] || view[0].campaignId == campaignId then 0 else 1 + FirstRowOf(view[1..], campaignId)
  }

  /* ---------------------------------------------------------------- */
  /* The store the handlers write                                     */
  /* ---------------------------------------------------------------- */

  /** The tables the tracker reads and appends to. */
  class TrackingStore {
    var clicks: seq<ClickRow>
    var actions: seq<ActionRow>
    var deliveries: seq<DeliveryRow>
    var effectiveness: seq<EffectivenessRow>

    constructor (deliveries: seq<DeliveryRow>, effectiveness: seq<EffectivenessRow>)
      ensures this.clicks == [] && this.actions == []
      ensures this.deliveries == deliveries && this.effectiveness == effectiveness
    {
      this.clicks := [];
      this.actions := [];
      this.deliveries := deliveries;
      this.effectiveness := effectiveness;
    }

    /** `GET /track-click/:campaignId/:userId`. */
    method TrackClick(campaignId: string, userId: string, client: Client, scheme: Option<string>,
                      now: int, insertFails: bool) returns (response: Response)
      modifies this
      ensures var r := Click(campaignId, userId, client, scheme, now, insertFails);
        response == r.0 && clicks == old(clicks) + (if r.1.Some? then [r.1.value] else [])
      ensures actions == old(actions) && deliveries == old(deliveries) && effectiveness == old(effectiveness)
    {
      var ipAddress := ClientIP(client);
      var user := Numbers.ParseInt(userId);
      if insertFails || user.None? {
        return ServerError;
      }
      clicks := clicks + [ClickRow(campaignId, user.value, ipAddress, client.userAgent, now)];
      response := Redirect(AppLink(scheme));
    }

    /** `POST /track-battery-check` with the body's three fields. */
    method TrackBatteryCheck(campaignId: Option<string>, userId: Option<int>, lockId: Option<int>,
                             now: int, lookupFails: bool, insertFails: bool) returns (response: Response)
      modifies this
      ensures var r := BatteryCheck(old(deliveries), campaignId, userId, lockId, now, lookupFails, insertFails);
        response == r.0 && actions == old(actions) + (if r.1.Some? then [r.1.value] else [])
      ensures clicks == old(clicks) && deliveries == old(deliveries) && effectiveness == old(effectiveness)
    {
      if !Provided(campaignId, userId, lockId) {
        return BadRequest;
      }
      if lookupFails {
        return ServerError;
      }
      var sentAt := LatestSentAt(deliveries, campaignId.value, userId.value, lockId.value);
      if sentAt.None? {
        return NotFound;
      }
      var daysAfterNotification := DaysAfter(now, sentAt.value);
      if insertFails {
        return ServerError;
      }
      actions := actions + [ActionRow(campaignId.value, userId.value, lockId.value, daysAfterNotification, now)];
      response := Recorded(daysAfterNotification);
    }
  }
}
