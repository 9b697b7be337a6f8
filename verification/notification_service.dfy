/** The battery-reminder campaign runner (BatteryNotificationService): scan
    the lock table for stale battery checks, resolve the locks' users,
    record a campaign, push one reminder per user in fixed-size batches,
    log every accepted message and finalize the campaign with its totals.

    The external systems are oracles given to the methods: the lock
    table's paginated scan is a sequence of responses, the relational
    lookup a table plus the set of queries that fail, the push gateway a
    function from the batch number to its reply, and clocks are plain
    timestamps. */
module NotificationService {
  import opened Schema
  import opened Sequences
  import Numbers

  const DefaultThresholdDays: int := 30
  const DefaultBatchSize: int := 100
  /** Lock ids per relational query, under the store's parameter limit. */
  const LookupChunkSize: nat := 1000
  const CampaignType: string := "battery_reminder"
  const SentStatus: string := "sent"
  const ReminderTitle: string := "Battery Check Reminder"

  /* ---------------------------------------------------------------- */
  /* Configuration                                                    */
  /* ---------------------------------------------------------------- */

  /** The environment variables the runner reads (None: not set). */
  datatype Environment = Environment(
    notificationThresholdDays: Option<string>,
    batchSize: Option<string>,
    clickTrackingBaseUrl: Option<string>)

  /** `parseInt(value)`, where an unset variable parses as NaN (None). */
  function ParsedSetting(value: Option<string>): Option<int> {
    if value.None? then None else Numbers.ParseInt(value.value)
  }

  /** `parseInt(value) || fallback`: NaN and 0 are falsy, so both fall back;
      any other number, negative ones included, is kept. */
  function ConfiguredInt(value: Option<string>, fallback: int): int {
    var parsed := ParsedSetting(value);
    if parsed.None? || parsed.value == 0 then fallback else parsed.value
  }

  /** A setting written as a decimal number is that number, except 0. */
  lemma ConfiguredDecimal(n: int, fallback: int)
    ensures ConfiguredInt(Some(Numbers.DecimalString(n)), fallback) == if n == 0 then fallback else n
  {
    Numbers.ParseDecimalString(n);
  }

  /** With a positive default the setting is positive unless the variable
      parses as a negative number. */
  lemma ConfiguredPositive(value: Option<string>, fallback: int)
    requires fallback > 0
    ensures ConfiguredInt(value, fallback) > 0
        <==> !(ParsedSetting(value).Some? && ParsedSetting(value).value < 0)
  {
  }

  /* ---------------------------------------------------------------- */
  /* Paginated scan of the lock table                                 */
  /* ---------------------------------------------------------------- */

  datatype LockItem = LockItem(lockId: int, batteryCheckTimestamp: int)

  /** The scan's continuation key: an object, hence always truthy. */
  datatype ScanKey = ScanKey(attributes: map<string, string>)

  /** One scan call: the filter's threshold and the start key. */
  datatype ScanRequest = ScanRequest(thresholdTimestamp: int, exclusiveStartKey: Option<ScanKey>)

  /** What one scan call gives back: a page, whose Items may be absent, with
      an optional continuation key; or an error. */
  datatype ScanResponse =
    | Page(items: Option<seq<LockItem>>, lastEvaluatedKey: Option<ScanKey>)
    | ScanFailed

  /** A response after which the scan asks for more. */
  predicate Continues(r: ScanResponse) {
    r.Page? && r.lastEvaluatedKey.Some?
  }

  /** The store's answers end: the last one stops the scan. */
  predicate ScanEnds(responses: seq<ScanResponse>) {
    |responses| > 0 && !Continues(responses[|responses| - 1])
  }

  /** The items a response contributes; a page without Items adds nothing. */
  function ItemsOf(r: ScanResponse): seq<LockItem> {
    if r.Page? && r.items.Some? then r.items.value else []
  }

  function AllItems(rs: seq<ScanResponse>): seq<LockItem> {
    if rs == [] then [] else ItemsOf(rs[0]) + AllItems(rs[1..])
  }

  /** `xs` put in front of a successful result; a failure stays. */
  function Prepend<T>(xs: seq<T>, o: Outcome<seq<T>>): Outcome<seq<T>> {
    if o.Ok? then Ok(xs + o.value) else o
  }

  lemma PrependNothing<T>(o: Outcome<seq<T>>)
    ensures Prepend([], o) == o
  {
    if o.Ok? {
      assert [] + o.value == o.value;
    }
  }

  lemma PrependTwice<T>(xs: seq<T>, ys: seq<T>, o: Outcome<seq<T>>)
    ensures Prepend(xs, Prepend(ys, o)) == Prepend(xs + ys, o)
  {
    if o.Ok? {
      assert xs + (ys + o.value) == (xs + ys) + o.value;
    }
  }

  /** The filter threshold: `thresholdDays` days before `now`. */
  function ScanThreshold(now: int, thresholdDays: int): int {
    now - thresholdDays * DayMs
  }

  /** The index of the response that stops a scan started at `k`. */
  function ScanStop(responses: seq<ScanResponse>, k: nat): (stop: nat)
    requires ScanEnds(responses) && k < |responses|
    ensures k <= stop < |responses| && !Continues(responses[stop])
    ensures forall j :: k <= j < stop ==> Continues(responses[j])
    decreases |responses| - k
  {
    if Continues(responses[k]) then ScanStop(responses, k + 1) else k
  }

  /** The result of a scan whose first call is answered by `responses[k]`. */
  function ScanFrom(responses: seq<ScanResponse>, k: nat): (r: Outcome<seq<LockItem>>)
    requires ScanEnds(responses) && k < |responses|
    ensures r.Fail? ==> r.failure == StoreError
    decreases |responses| - k
  {
    match responses[k]
    case ScanFailed => Fail(StoreError)
    case Page(_, next) =>
      if next.None? then Ok(ItemsOf(responses[k]))
      else Prepend(ItemsOf(responses[k]), ScanFrom(responses, k + 1))
  }

  /** A scan fails exactly when its stopping response is an error, and
      otherwise yields the items of every page it read, in page order. */
  lemma {:induction false} ScanCollectsPages(responses: seq<ScanResponse>, k: nat)
    requires ScanEnds(responses) && k < |responses|
    ensures var stop := ScanStop(responses, k);
      ScanFrom(responses, k)
        == if responses[stop].ScanFailed? then Fail(StoreError)
           else Ok(AllItems(responses[k..stop + 1]))
    decreases |responses| - k
  {
    var stop := ScanStop(responses, k);
    var rs := responses[k..stop + 1];
    assert rs[0] == responses[k];
    if Continues(responses[k]) {
      ScanCollectsPages(responses, k + 1);
      assert rs[1..] == responses[k + 1..stop + 1];
    } else {
      assert stop == k && rs == [responses[k]];
      assert AllItems(rs[1..]) == [];
      assert AllItems(rs) == ItemsOf(responses[k]) + [] == ItemsOf(responses[k]);
      if responses[k].Page? {
        assert responses[k].lastEvaluatedKey.None?;
        assert ScanFrom(responses, k) == Ok(ItemsOf(responses[k]));
      }
    }
  }

  /* ---------------------------------------------------------------- */
  /* Chunked relational lookup                                        */
  /* ---------------------------------------------------------------- */

  /** A row of lock_user_mapping; the push token may be NULL. */
  datatype MappingRow = MappingRow(lockId: int, userId: int, fcmId: Option<string>)

  /** A recipient: a mapping row whose token is present. */
  datatype UserRow = UserRow(lockId: int, userId: int, fcmId: string)

  /** One lookup query: the text of its `IN` list and its parameters. */
  datatype LookupQuery = LookupQuery(inList: string, params: seq<int>)

  /** The query for one slice of lock ids: the list `$1,$2,…,$n`, one
      placeholder per id, with the ids as parameters. */
  function QueryFor(ids: seq<int>): (q: LookupQuery)
    ensures q.params == ids
  {
    LookupQuery(JoinFields(Placeholders(|ids|)), ids)
  }

  /** The placeholders `$1`, …, `$n`, in order. */
  function Placeholders(n: nat): (ps: seq<string>)
    ensures |ps| == n
  {
    seq(n, (i: nat) => "$" + Numbers.DecimalDigits(i + 1))
  }

  /** Strings joined with commas, as `Array.prototype.join(',')` does. */
  function JoinFields(parts: seq<string>): string {
    if parts == [] then ""
    else if |parts| == 1 then parts[0]
    else parts[0] + "," + JoinFields(parts[1..])
  }

  /** The length of the first comma-separated field of `s`. */
  function FieldLength(s: string): (n: nat)
    ensures n <= |s|
  {
    if s == [] || s[0] == ',' then 0 else 1 + FieldLength(s[1..])
  }

  /** The comma-separated fields of `s`, as the database reads an `IN`
      list. */
  function SplitFields(s: string): seq<string>
    decreases |s|
  {
    var n := FieldLength(s);
    if n == |s| then [s] else [s[..n]] + SplitFields(s[n + 1..])
  }

  /** The parameter number `k` of a placeholder `$k`; None when the field
      is not a placeholder. */
  function ParamNumber(f: string): Option<nat> {
    if |f| >= 2 && f[0] == '$' then
      var digits := f[1..];
      if forall i :: 0 <= i < |digits| ==> Numbers.DigitValue(digits[i], 10).Some? then
        Some(Numbers.DigitsValue(digits, 10))
      else None
    else None
  }

  /** The values a list of placeholders stands for, `$k` binding the k-th
      parameter; None when a field is not a placeholder or names a missing
      parameter, which the database rejects. */
  function BindFields(fields: seq<string>, params: seq<int>): Option<seq<int>> {
    if fields == [] then Some([])
    else
      match ParamNumber(fields[0])
      case None => None
      case Some(k) =>
        if 1 <= k <= |params| then
          match BindFields(fields[1..], params)
          case None => None
          case Some(rest) => Some([params[k - 1]] + rest)
        else None
  }

  /** The lock ids a lookup query's `IN` list stands for. */
  function InListValues(q: LookupQuery): Option<seq<int>> {
    BindFields(SplitFields(q.inList), q.params)
  }

  /** The `IN` list of the query for a slice stands for exactly the
      slice's ids, in order; an empty slice would give the invalid list
      `IN ()`. */
  lemma QueryBindsIds(ids: seq<int>)
    ensures InListValues(QueryFor(ids)) == if ids == [] then None else Some(ids)
  {
    var q := QueryFor(ids);
    var ps := Placeholders(|ids|);
    assert q.inList == JoinFields(ps);
    if ids == [] {
      EmptyListRejected(ps);
    } else {
      PlaceholdersNumbered(|ids|, ps);
      SplitJoin(ps);
      BindNumbered(ps, ids, 0);
      assert ids[0..|ids|] == ids;
    }
  }

  lemma EmptyListRejected(ps: seq<string>)
    requires ps == []
    ensures SplitFields(JoinFields(ps)) == [""]
    ensures ParamNumber("").None?
  {
  }

  lemma PlaceholdersNumbered(n: nat, ps: seq<string>)
    requires ps == Placeholders(n)
    ensures forall i :: 0 <= i < |ps| ==> ParamNumber(ps[i]) == Some(i + 1) && ',' !in ps[i]
  {
    forall i | 0 <= i < |ps|
      ensures ParamNumber(ps[i]) == Some(i + 1) && ',' !in ps[i]
    {
      PlaceholderNumber(i + 1);
    }
  }

  /** `$k` names parameter k and holds no comma. */
  lemma PlaceholderNumber(k: nat)
    ensures ParamNumber("$" + Numbers.DecimalDigits(k)) == Some(k)
    ensures ',' !in "$" + Numbers.DecimalDigits(k)
  {
    var f := "$" + Numbers.DecimalDigits(k);
    Numbers.DecimalDigitsValue(k);
    assert f[1..] == Numbers.DecimalDigits(k);
  }

  /** Splitting comma-free strings joined with commas gives them back. */
  lemma {:induction false} SplitJoin(parts: seq<string>)
    requires parts != [] && forall i :: 0 <= i < |parts| ==> ',' !in parts[i]
    ensures SplitFields(JoinFields(parts)) == parts
    decreases |parts|
  {
    var p := parts[0];
    if |parts| == 1 {
      FieldLengthWhole(p);
    } else {
      var rest := JoinFields(parts[1..]);
      var s := p + "," + rest;
      FieldLengthBefore(p, rest);
      assert s[..|p|] == p;
      assert s[|p| + 1..] == rest;
      SplitJoin(parts[1..]);
      assert parts == [p] + parts[1..];
    }
  }

  lemma {:induction false} FieldLengthWhole(p: string)
    requires ',' !in p
    ensures FieldLength(p) == |p|
    decreases |p|
  {
    if p != [] {
      FieldLengthWhole(p[1..]);
    }
  }

  lemma {:induction false} FieldLengthBefore(p: string, rest: string)
    requires ',' !in p
    ensures FieldLength(p + "," + rest) == |p|
    decreases |p|
  {
    if p != [] {
      assert (p + "," + rest)[1..] == p[1..] + "," + rest;
      FieldLengthBefore(p[1..], rest);
    }
  }

  /** Fields numbered `from + 1`, `from + 2`, … bind the parameters from
      position `from` on. */
  lemma {:induction false} BindNumbered(fields: seq<string>, params: seq<int>, from: nat)
    requires from + |fields| <= |params|
    requires forall j :: 0 <= j < |fields| ==> ParamNumber(fields[j]) == Some(from + j + 1)
    ensures BindFields(fields, params) == Some(params[from..from + |fields|])
    decreases |fields|
  {
    if fields != [] {
      var later := fields[1..];
      forall j | 0 <= j < |later|
        ensures ParamNumber(later[j]) == Some(from + 1 + j + 1)
      {
        assert later[j] == fields[j + 1];
      }
      BindNumbered(later, params, from + 1);
      assert ParamNumber(fields[0]) == Some(from + 1);
      assert params[from..from + |fields|] == [params[from]] + params[from + 1..from + |fields|];
    }
  }

  /** A mapping row the lookup for `ids` selects. */
  predicate Eligible(m: MappingRow, ids: seq<int>) {
    m.fcmId.Some? && m.lockId in ids
  }

  function UserOf(m: MappingRow): UserRow
    requires m.fcmId.Some?
  {
    UserRow(m.lockId, m.userId, m.fcmId.value)
  }

  /** The rows of `lock_id IN (ids) AND fcm_id IS NOT NULL`, in table order;
      each table row appears once however often its lock id is listed. */
  function MappedUsers(table: seq<MappingRow>, ids: seq<int>): (rows: seq<UserRow>)
    ensures |rows| <= |table|
  {
    if table == [] then []
    else
      var init, m := table[..|table| - 1], table[|table| - 1];
      MappedUsers(init, ids) + (if Eligible(m, ids) then [UserOf(m)] else [])
  }

  /** The lookup for `ids` yields exactly the users of the eligible rows. */
  lemma {:induction false} MappedUsersSelects(table: seq<MappingRow>, ids: seq<int>)
    ensures forall u :: u in MappedUsers(table, ids) <==> exists m :: m in table && Eligible(m, ids) && UserOf(m) == u
  {
    if table != [] {
      var init, m := table[..|table| - 1], table[|table| - 1];
      MappedUsersSelects(init, ids);
      assert forall x :: x in table <==> x in init || x == m;
    }
  }

  /** The result of the queries for `chunks`, numbered from `k`; the query
      numbered `j` fails when `j` is in `failing`, and aborts the lookup. */
  function LookupFrom(table: seq<MappingRow>, chunks: seq<seq<int>>, failing: set<nat>, k: nat): (r: Outcome<seq<UserRow>>)
    ensures r.Fail? ==> r.failure == StoreError
    decreases |chunks|
  {
    if chunks == [] then Ok([])
    else if k in failing then Fail(StoreError)
    else Prepend(MappedUsers(table, chunks[0]), LookupFrom(table, chunks[1..], failing, k + 1))
  }

  /** The `j`-th slice of ids the lookup queries. */
  function LookupSlice(ids: seq<int>, j: nat): seq<int>
    requires j * LookupChunkSize < |ids|
  {
    ids[j * LookupChunkSize..Min(j * LookupChunkSize + LookupChunkSize, |ids|)]
  }

  /** The queries for the first `k` slices of `ids`, followed by the
      query for the next one. */
  lemma QueriesGrow(ids: seq<int>, queries: seq<LookupQuery>, k: nat)
    requires |queries| == k && k * LookupChunkSize < |ids|
    requires forall j :: 0 <= j < k ==> j * LookupChunkSize < |ids| && queries[j] == QueryFor(LookupSlice(ids, j))
    ensures var next := queries + [QueryFor(ids[k * LookupChunkSize..Min(k * LookupChunkSize + LookupChunkSize, |ids|)])];
      forall j :: 0 <= j < k + 1 ==> j * LookupChunkSize < |ids| && next[j] == QueryFor(LookupSlice(ids, j))
  {
  }

  /** The lookup the loop performs: slice `k` holds the ids from `i` on,
      up to `LookupChunkSize` of them. */
  function LookingUpFrom(table: seq<MappingRow>, ids: seq<int>, i: nat, failing: set<nat>, k: nat): Outcome<seq<UserRow>>
    decreases |ids| - i
  {
    if |ids| <= i then Ok([])
    else if k in failing then Fail(StoreError)
    else Prepend(MappedUsers(table, ids[i..Min(i + LookupChunkSize, |ids|)]),
                 LookingUpFrom(table, ids, i + LookupChunkSize, failing, k + 1))
  }

  lemma {:induction false} LookingUpFromIsLookupFrom(table: seq<MappingRow>, ids: seq<int>, i: nat, failing: set<nat>, k: nat)
    ensures LookingUpFrom(table, ids, i, failing, k) == LookupFrom(table, Chunks(Drop(ids, i), LookupChunkSize), failing, k)
    decreases |ids| - i
  {
    if |ids| <= i {
      assert Drop(ids, i) == [];
    } else {
      ChunksFrom(ids, LookupChunkSize, i);
      LookingUpFromIsLookupFrom(table, ids, i + LookupChunkSize, failing, k + 1);
      LookupFromFirst(table, ids[i..Min(i + LookupChunkSize, |ids|)],
                      Chunks(Drop(ids, i + LookupChunkSize), LookupChunkSize), failing, k);
    }
  }

  /** The loop's lookup is the lookup of the slices of the ids. */
  lemma LookingUpIsLookup(table: seq<MappingRow>, ids: seq<int>, failing: set<nat>)
    ensures LookingUpFrom(table, ids, 0, failing, 0) == LookupFrom(table, Chunks(ids, LookupChunkSize), failing, 0)
  {
    LookingUpFromIsLookupFrom(table, ids, 0, failing, 0);
    assert Drop(ids, 0) == ids;
  }

  lemma LookupFromFirst(table: seq<MappingRow>, ids: seq<int>, later: seq<seq<int>>, failing: set<nat>, k: nat)
    ensures LookupFrom(table, [ids] + later, failing, k)
         == if k in failing then Fail(StoreError)
            else Prepend(MappedUsers(table, ids), LookupFrom(table, later, failing, k + 1))
  {
    assert ([ids] + later)[1..] == later;
  }

  /** A lookup succeeds exactly when none of its queries fails, and then
      holds every eligible mapping row for some id of some chunk. */
  lemma {:induction false} LookupFromResult(table: seq<MappingRow>, chunks: seq<seq<int>>, failing: set<nat>, k: nat)
    ensures LookupFrom(table, chunks, failing, k).Ok?
        <==> forall j :: k <= j < k + |chunks| ==> j !in failing
    ensures LookupFrom(table, chunks, failing, k).Ok? ==>
      forall u :: u in LookupFrom(table, chunks, failing, k).value
        <==> exists m :: m in table && Eligible(m, Flatten(chunks)) && UserOf(m) == u
    decreases |chunks|
  {
    if chunks != [] && k !in failing {
      LookupFromResult(table, chunks[1..], failing, k + 1);
      MappedUsersSelects(table, chunks[0]);
      var rest := Flatten(chunks[1..]);
      assert Flatten(chunks) == chunks[0] + rest;
      forall m: MappingRow | m.fcmId.Some?
        ensures Eligible(m, Flatten(chunks)) <==> Eligible(m, chunks[0]) || Eligible(m, rest)
      {
      }
    }
  }

  /** The whole lookup for `lockIds` selects exactly the mapping rows with
      a token whose lock is one of `lockIds`. */
  lemma LookupSelectsEligible(table: seq<MappingRow>, lockIds: seq<int>, failing: set<nat>, u: UserRow)
    requires LookupFrom(table, Chunks(lockIds, LookupChunkSize), failing, 0).Ok?
    ensures u in LookupFrom(table, Chunks(lockIds, LookupChunkSize), failing, 0).value
        <==> exists m :: m in table && Eligible(m, lockIds) && UserOf(m) == u
  {
    LookupFromResult(table, Chunks(lockIds, LookupChunkSize), failing, 0);
    FlattenChunks(lockIds, LookupChunkSize);
  }

  function LockIds(items: seq<LockItem>): (ids: seq<int>)
    ensures |ids| == |items| && forall i :: 0 <= i < |items| ==> ids[i] == items[i].lockId
  {
    seq(|items|, i requires 0 <= i < |items| => items[i].lockId)
  }

  lemma DropNothing<T>(s: seq<T>)
    ensures Drop(s, 0) == s
  {
  }

  lemma DropPastEnd<T>(s: seq<T>, i: nat)
    requires i >= |s|
    ensures Drop(s, i) == []
  {
  }

  lemma DropDrop<T>(s: seq<T>, i: nat, n: nat)
    ensures Drop(Drop(s, i), n) == Drop(s, i + n)
  {
  }

  /* ---------------------------------------------------------------- */
  /* Reminder messages                                                */
  /* ---------------------------------------------------------------- */

  /** The data block of a reminder: every value a string. */
  datatype MessageData = MessageData(
    kind: string,
    lockId: string,
    campaignId: CampaignId,
    clickTrackingUrl: string)

  /** One push message with its Android and APNs delivery hints. */
  datatype Message = Message(
    token: string,
    title: string,
    body: string,
    data: MessageData,
    androidPriority: string,
    androidIcon: string,
    androidColor: string,
    apnsBadge: int,
    apnsSound: string)

  /** How a template literal renders an environment variable: an unset one
      renders as `undefined`. */
  function TemplateString(value: Option<string>): string {
    if value.Some? then value.value else "undefined"
  }

  function ReminderBody(thresholdDays: int): string {
    "Your lock hasn't been checked in " + Numbers.DecimalString(thresholdDays)
      + " days. Please check your battery level."
  }

  /** The link a reminder carries: the click tracker's route for this
      campaign and user, under the configured base URL. */
  function ClickTrackingUrl(base: Option<string>, campaignId: CampaignId, userId: int): (url: string)
    ensures url == TemplateString(base) + ClickPath(campaignId, userId)
  {
    TemplateString(base) + "/track-click/" + campaignId + "/" + Numbers.DecimalString(userId)
  }

  /** The tracker route `/track-click/<campaign>/<user>`. */
  function ClickPath(campaignId: CampaignId, userId: int): string {
    "/track-click/" + campaignId + "/" + Numbers.DecimalString(userId)
  }

  /** The reminder sent to one recipient. */
  function ReminderFor(u: UserRow, campaignId: CampaignId, thresholdDays: int, base: Option<string>): Message {
    Message(
      u.fcmId,
      ReminderTitle,
      ReminderBody(thresholdDays),
      MessageData(CampaignType, Numbers.DecimalString(u.lockId), campaignId,
        ClickTrackingUrl(base, campaignId, u.userId)),
      "high", "battery_alert", "#FF6B35", 1, "default")
  }

  /** A reminder reaches the user's token and names, in a form `parseInt`
      reads back, the user's lock; its link leads to the tracker's route for
      this campaign and user. */
  lemma ReminderIdentifiesRecipient(u: UserRow, campaignId: CampaignId, thresholdDays: int, base: Option<string>)
    ensures var m := ReminderFor(u, campaignId, thresholdDays, base);
      m.token == u.fcmId && m.data.campaignId == campaignId && m.data.kind == CampaignType
      && Numbers.ParseInt(m.data.lockId) == Some(u.lockId)
      && m.data.clickTrackingUrl == TemplateString(base) + ClickPath(campaignId, u.userId)
  {
    Numbers.ParseDecimalString(u.lockId);
  }

  /** The reminders of a batch: one per user, in batch order, each naming
      its own user's lock and link. */
  lemma RemindersOnePerUser(batch: seq<UserRow>, campaignId: CampaignId, thresholdDays: int, base: Option<string>)
    ensures var ms := Reminders(batch, campaignId, thresholdDays, base);
      |ms| == |batch|
      && forall i :: 0 <= i < |batch| ==>
           ms[i].token == batch[i].fcmId
           && Numbers.ParseInt(ms[i].data.lockId) == Some(batch[i].lockId)
           && ms[i].data.clickTrackingUrl == TemplateString(base) + ClickPath(campaignId, batch[i].userId)
  {
    forall i | 0 <= i < |batch|
      ensures Numbers.ParseInt(Reminders(batch, campaignId, thresholdDays, base)[i].data.lockId) == Some(batch[i].lockId)
    {
      ReminderIdentifiesRecipient(batch[i], campaignId, thresholdDays, base);
    }
  }

  /** The reminders of a batch. */
  function Reminders(batch: seq<UserRow>, campaignId: CampaignId, thresholdDays: int, base: Option<string>)
    : (ms: seq<Message>)
  {
    seq(|batch|, i requires 0 <= i < |batch| => ReminderFor(batch[i], campaignId, thresholdDays, base))
  }

  /* ---------------------------------------------------------------- */
  /* Push gateway and batch dispatch                                  */
  /* ---------------------------------------------------------------- */

  /** What a batch send gives back: the gateway's counts and one success
      flag per answered message, or a throw for the whole batch. */
  datatype GatewayReply =
    | Returned(successCount: int, failureCount: int, responses: seq<bool>)
    | Threw

  /** Everything the outside world decides about one batch: the gateway's
      reply, the batch positions whose log insert is rejected, and the
      time the log rows are stamped with. */
  datatype GatewayCall = GatewayCall(reply: GatewayReply, logFailures: set<nat>, at: int)

  /** A reply answers each of the batch's messages at most once; one with
      more answers than messages makes the logging loop read past the batch
      and throw. */
  function SendOutcome(batch: seq<UserRow>, reply: GatewayReply): (r: Outcome<GatewayReply>)
    ensures r.Ok? <==> reply.Returned? && |reply.responses| <= |batch|
    ensures r.Ok? ==> r.value == reply
    ensures r.Fail? ==> r.failure == (if reply.Threw? then GatewayError else MalformedReply)
  {
    if reply.Threw? then Fail(GatewayError)
    else if |reply.responses| > |batch| then Fail(MalformedReply)
    else Ok(reply)
  }

  function DeliveryRowFor(campaignId: CampaignId, u: UserRow, at: int): DeliveryRow {
    DeliveryRow(campaignId, u.userId, u.lockId, u.fcmId, at, SentStatus)
  }

  /** The log rows written for the first `n` answers of a returned batch:
      one per accepted message whose insert is not rejected. */
  function LoggedRows(campaignId: CampaignId, batch: seq<UserRow>, call: GatewayCall, n: nat): (rows: seq<DeliveryRow>)
    requires call.reply.Returned? && n <= |batch| && n <= |call.reply.responses|
    ensures |rows| <= n
  {
    if n == 0 then []
    else
      var i := n - 1;
      LoggedRows(campaignId, batch, call, i)
        + (if call.reply.responses[i] && i !in call.logFailures then [DeliveryRowFor(campaignId, batch[i], call.at)] else [])
  }

  /** Each logged row stands for an accepted message whose insert went
      through. */
  lemma {:induction false} LoggedRowsAccepted(campaignId: CampaignId, batch: seq<UserRow>, call: GatewayCall, n: nat, row: DeliveryRow)
    requires call.reply.Returned? && n <= |batch| && n <= |call.reply.responses|
    requires row in LoggedRows(campaignId, batch, call, n)
    ensures exists i :: 0 <= i < n && call.reply.responses[i] && i !in call.logFailures
                        && row == DeliveryRowFor(campaignId, batch[i], call.at)
  {
    var i := n - 1;
    if row !in LoggedRows(campaignId, batch, call, i) {
      assert call.reply.responses[i] && i !in call.logFailures && row == DeliveryRowFor(campaignId, batch[i], call.at);
    } else {
      LoggedRowsAccepted(campaignId, batch, call, i, row);
    }
  }

  /** The positions among the first `n` answers of the accepted messages
      whose log insert goes through. */
  function KeptPositions(call: GatewayCall, n: nat): (ps: seq<nat>)
    requires call.reply.Returned? && n <= |call.reply.responses|
    ensures forall m :: 0 <= m < |ps| ==> ps[m] < n
  {
    if n == 0 then []
    else
      var i := n - 1;
      KeptPositions(call, i) + (if call.reply.responses[i] && i !in call.logFailures then [i] else [])
  }

  /** The log rows of a batch are, in the batch's order, one row for each
      accepted message whose insert is not rejected, and nothing else: the
      positions they come from increase strictly and are exactly those
      messages, for any set of rejected inserts. */
  lemma {:induction false} LoggedRowsExact(campaignId: CampaignId, batch: seq<UserRow>, call: GatewayCall, n: nat)
    requires call.reply.Returned? && n <= |batch| && n <= |call.reply.responses|
    ensures var rows := LoggedRows(campaignId, batch, call, n);
      var ps := KeptPositions(call, n);
      |rows| == |ps|
      && (forall m :: 0 <= m < |ps| ==> rows[m] == DeliveryRowFor(campaignId, batch[ps[m]], call.at))
      && (forall a, b :: 0 <= a < b < |ps| ==> ps[a] < ps[b])
      && (forall i :: i in ps <==> 0 <= i < n && call.reply.responses[i] && i !in call.logFailures)
  {
    LoggedRowsAlong(campaignId, batch, call, n);
    KeptPositionsAre(call, n);
  }

  lemma {:induction false} LoggedRowsAlong(campaignId: CampaignId, batch: seq<UserRow>, call: GatewayCall, n: nat)
    requires call.reply.Returned? && n <= |batch| && n <= |call.reply.responses|
    ensures var rows := LoggedRows(campaignId, batch, call, n);
      var ps := KeptPositions(call, n);
      |rows| == |ps| && forall m :: 0 <= m < |ps| ==> rows[m] == DeliveryRowFor(campaignId, batch[ps[m]], call.at)
  {
    if n > 0 {
      LoggedRowsAlong(campaignId, batch, call, n - 1);
    }
  }

  predicate Increasing(ps: seq<nat>) {
    forall a, b :: 0 <= a < b < |ps| ==> ps[a] < ps[b]
  }

  lemma KeptPositionsAre(call: GatewayCall, n: nat)
    requires call.reply.Returned? && n <= |call.reply.responses|
    ensures var ps := KeptPositions(call, n);
      (forall a, b :: 0 <= a < b < |ps| ==> ps[a] < ps[b])
      && (forall i :: i in ps <==> 0 <= i < n && call.reply.responses[i] && i !in call.logFailures)
  {
    KeptPositionsIncrease(call, n);
    KeptPositionsMembers(call, n);
  }

  lemma {:induction false} KeptPositionsIncrease(call: GatewayCall, n: nat)
    requires call.reply.Returned? && n <= |call.reply.responses|
    ensures Increasing(KeptPositions(call, n))
  {
    if n > 0 {
      var i := n - 1;
      var ps, earlier := KeptPositions(call, n), KeptPositions(call, i);
      KeptPositionsIncrease(call, i);
      if call.reply.responses[i] && i !in call.logFailures {
        assert ps == earlier + [i];
        forall a, b | 0 <= a < b < |ps|
          ensures ps[a] < ps[b]
        {
          assert ps[a] == earlier[a] && earlier[a] < i;
          if b < |earlier| {
            assert ps[b] == earlier[b];
            assert earlier[a] < earlier[b];
          } else {
            assert ps[b] == i;
          }
        }
      } else {
        assert ps == earlier;
      }
    }
  }

  lemma {:induction false} KeptPositionsMembers(call: GatewayCall, n: nat)
    requires call.reply.Returned? && n <= |call.reply.responses|
    ensures var ps := KeptPositions(call, n);
      forall i :: i in ps <==> 0 <= i < n && call.reply.responses[i] && i !in call.logFailures
  {
    if n > 0 {
      var last := n - 1;
      var ps, earlier := KeptPositions(call, n), KeptPositions(call, last);
      KeptPositionsMembers(call, last);
      var kept := call.reply.responses[last] && last !in call.logFailures;
      assert ps == earlier + (if kept then [last] else []);
      forall i
        ensures i in ps <==> 0 <= i < n && call.reply.responses[i] && i !in call.logFailures
      {
        assert i in ps <==> i in earlier || (kept && i == last);
      }
    }
  }

  /** The log rows a batch send leaves behind, whether or not it throws
      afterwards. */
  function SentRows(campaignId: CampaignId, batch: seq<UserRow>, call: GatewayCall): seq<DeliveryRow> {
    if call.reply.Threw? then []
    else LoggedRows(campaignId, batch, call, Min(|call.reply.responses|, |batch|))
  }

  /** Totals accumulated over batches, with the pauses taken between them
      and the log rows written. */
  datatype Progress = Progress(sent: int, failed: int, delays: nat, rows: seq<DeliveryRow>)

  function Combine(a: Progress, b: Progress): Progress {
    Progress(a.sent + b.sent, a.failed + b.failed, a.delays + b.delays, a.rows + b.rows)
  }

  /** One batch's contribution: the gateway's counts and, when more users
      follow, one pause; a batch whose send throws counts all its users as
      failed and takes no pause. */
  function BatchEffect(campaignId: CampaignId, batch: seq<UserRow>, call: GatewayCall, more: bool): (p: Progress)
    ensures p.rows == SentRows(campaignId, batch, call)
    ensures SendOutcome(batch, call.reply).Fail? ==> p.sent == 0 && p.failed == |batch| && p.delays == 0
    ensures SendOutcome(batch, call.reply).Ok? ==>
      p.sent == call.reply.successCount && p.failed == call.reply.failureCount
      && p.delays == (if more then 1 else 0)
  {
    var rows := SentRows(campaignId, batch, call);
    match SendOutcome(batch, call.reply)
    case Ok(reply) => Progress(reply.successCount, reply.failureCount, if more then 1 else 0, rows)
    case Fail(_) => Progress(0, |batch|, 0, rows)
  }

  /** Sending `batches` in order, the `j`-th of them (counted from `k`)
      answered by `gateway(j)`. */
  function Dispatch(campaignId: CampaignId, batches: seq<seq<UserRow>>, gateway: nat -> GatewayCall, k: nat): Progress
    decreases |batches|
  {
    if batches == [] then Progress(0, 0, 0, [])
    else Combine(BatchEffect(campaignId, batches[0], gateway(k), |batches| > 1),
                 Dispatch(campaignId, batches[1..], gateway, k + 1))
  }

  /** The batches of `users`: consecutive slices of `size` users. */
  function BatchesOf(users: seq<UserRow>, size: int): seq<seq<UserRow>>
    requires size > 0 || users == []
  {
    if users == [] then [] else Chunks(users, size)
  }

  /** Batching drops no user and duplicates none. */
  lemma BatchesCoverUsers(users: seq<UserRow>, size: int)
    requires size > 0 || users == []
    ensures Flatten(BatchesOf(users, size)) == users
  {
    if users != [] {
      FlattenChunks(users, size);
    }
  }

  lemma CombineAssociates(a: Progress, b: Progress, c: Progress)
    ensures Combine(a, Combine(b, c)) == Combine(Combine(a, b), c)
  {
    assert a.rows + (b.rows + c.rows) == (a.rows + b.rows) + c.rows;
  }

  /** The gateway's answer to the `k`-th batch. */
  function CallOf(gateway: nat -> GatewayCall, k: nat): GatewayCall {
    gateway(k)
  }

  /** Sending the users from position `i` on, in slices of `size`, the
      slice at `i` answered by `gateway(k)`: the loop of the batch runner
      read as a recursion on its index. */
  function SendingFrom(campaignId: CampaignId, users: seq<UserRow>, size: int, i: nat, gateway: nat -> GatewayCall, k: nat)
    : Progress
    requires size > 0 || |users| <= i
    decreases |users| - i
  {
    if |users| <= i then Progress(0, 0, 0, [])
    else Combine(BatchEffect(campaignId, users[i..Min(i + size, |users|)], CallOf(gateway, k), i + size < |users|),
                 SendingFrom(campaignId, users, size, i + size, gateway, k + 1))
  }

  /** One turn of the batch loop: what is left from `i` is the slice at
      `i` followed by what is left after it, field by field. */
  lemma SendingStep(campaignId: CampaignId, users: seq<UserRow>, size: int, i: nat, gateway: nat -> GatewayCall, k: nat)
    requires size > 0 && i < |users|
    ensures var left := SendingFrom(campaignId, users, size, i, gateway, k);
      var effect := BatchEffect(campaignId, users[i..Min(i + size, |users|)], CallOf(gateway, k), i + size < |users|);
      var later := SendingFrom(campaignId, users, size, i + size, gateway, k + 1);
      left.sent == effect.sent + later.sent && left.failed == effect.failed + later.failed
      && left.delays == effect.delays + later.delays && left.rows == effect.rows + later.rows
  {
  }

  /** Sending a non-empty list of batches: the first batch, then the rest. */
  lemma DispatchFirst(campaignId: CampaignId, batches: seq<seq<UserRow>>, gateway: nat -> GatewayCall, k: nat,
                      batch: seq<UserRow>, call: GatewayCall, more: bool)
    requires batches != [] && batches[0] == batch && call == gateway(k) && more == (|batches| > 1)
    ensures var all := Dispatch(campaignId, batches, gateway, k);
      var first := BatchEffect(campaignId, batch, call, more);
      var rest := Dispatch(campaignId, batches[1..], gateway, k + 1);
      all.sent == first.sent + rest.sent && all.failed == first.failed + rest.failed
      && all.delays == first.delays + rest.delays && all.rows == first.rows + rest.rows
  {
  }

  /** The batches of the users left from index `i`: the slice at `i`
      first, then the batches of the users left after it. */
  lemma BatchesFrom(users: seq<UserRow>, size: int, i: nat, batches: seq<seq<UserRow>>)
    requires size > 0 && i < |users|
    requires batches == BatchesOf(Drop(users, i), size)
    ensures batches != [] && batches[0] == users[i..Min(i + size, |users|)]
    ensures batches[1..] == BatchesOf(Drop(users, i + size), size)
    ensures (|batches| > 1) == (i + size < |users|)
  {
    var slice := users[i..Min(i + size, |users|)];
    var rest := BatchesOf(Drop(users, i + size), size);
    ChunksFrom(users, size, i);
    assert batches == [slice] + rest;
  }

  /** The index-driven loop sends exactly the batches of the users left
      from `i`: the same counts, pauses and log rows. */
  lemma {:induction false} SendingFromIsDispatch(campaignId: CampaignId, users: seq<UserRow>, size: int, i: nat,
                                                  gateway: nat -> GatewayCall, k: nat, batches: seq<seq<UserRow>>)
    requires size > 0 || |users| <= i
    requires batches == BatchesOf(Drop(users, i), size)
    ensures var p := SendingFrom(campaignId, users, size, i, gateway, k);
      var q := Dispatch(campaignId, batches, gateway, k);
      p.sent == q.sent && p.failed == q.failed && p.delays == q.delays && p.rows == q.rows
    decreases |users| - i
  {
    if |users| <= i {
      assert Drop(users, i) == [];
    } else {
      BatchesFrom(users, size, i, batches);
      SendingStep(campaignId, users, size, i, gateway, k);
      DispatchFirst(campaignId, batches, gateway, k, users[i..Min(i + size, |users|)], CallOf(gateway, k), i + size < |users|);
      SendingFromIsDispatch(campaignId, users, size, i + size, gateway, k + 1, batches[1..]);
    }
  }

  lemma SendingIsDispatch(campaignId: CampaignId, users: seq<UserRow>, size: int, gateway: nat -> GatewayCall)
    requires size > 0 || users == []
    ensures var p := SendingFrom(campaignId, users, size, 0, gateway, 0);
      var q := Dispatch(campaignId, BatchesOf(users, size), gateway, 0);
      p.sent == q.sent && p.failed == q.failed && p.delays == q.delays && p.rows == q.rows
  {
    assert Drop(users, 0) == users;
    SendingFromIsDispatch(campaignId, users, size, 0, gateway, 0, BatchesOf(users, size));
  }


  /** A reply that accounts for every message of its batch. */
  predicate Consistent(batch: seq<UserRow>, reply: GatewayReply) {
    reply.Returned? && |reply.responses| <= |batch| ==> reply.successCount + reply.failureCount == |batch|
  }

  /** Every batch, the `j`-th answered by `gateway(k + j)`, gets a
      consistent reply. */
  predicate AllConsistent(batches: seq<seq<UserRow>>, gateway: nat -> GatewayCall, k: nat)
    decreases |batches|
  {
    batches == [] || (Consistent(batches[0], gateway(k).reply) && AllConsistent(batches[1..], gateway, k + 1))
  }

  /** When every returned reply counts each message of its batch once,
      every user is counted once: as sent or as failed. */
  lemma {:induction false} DispatchAccounting(campaignId: CampaignId, batches: seq<seq<UserRow>>, gateway: nat -> GatewayCall, k: nat)
    requires AllConsistent(batches, gateway, k)
    ensures var p := Dispatch(campaignId, batches, gateway, k); p.sent + p.failed == |Flatten(batches)|
    decreases |batches|
  {
    if batches != [] {
      DispatchAccounting(campaignId, batches[1..], gateway, k + 1);
    }
  }

  /** Every batch, the `j`-th sent through `gateway(k + j)`, is sent
      without a throw. */
  predicate AllDelivered(batches: seq<seq<UserRow>>, gateway: nat -> GatewayCall, k: nat)
    decreases |batches|
  {
    batches == [] || (SendOutcome(batches[0], gateway(k).reply).Ok? && AllDelivered(batches[1..], gateway, k + 1))
  }

  /** The pauses: at most one between two consecutive batches, and exactly
      one between each two when no send throws. */
  lemma {:induction false} DispatchDelays(campaignId: CampaignId, batches: seq<seq<UserRow>>, gateway: nat -> GatewayCall, k: nat)
    ensures Dispatch(campaignId, batches, gateway, k).delays <= |batches| - 1 || batches == []
    ensures AllDelivered(batches, gateway, k) && batches != [] ==>
      Dispatch(campaignId, batches, gateway, k).delays == |batches| - 1
    decreases |batches|
  {
    if batches != [] {
      DispatchDelays(campaignId, batches[1..], gateway, k + 1);
    }
  }

  /** Every log row belongs to the campaign, is marked sent and names a
      user of some batch together with that user's lock and token. */
  lemma {:induction false} DispatchRowsNameRecipients(campaignId: CampaignId, batches: seq<seq<UserRow>>, gateway: nat -> GatewayCall, k: nat)
    ensures forall row :: row in Dispatch(campaignId, batches, gateway, k).rows ==>
      row.campaignId == campaignId && row.status == SentStatus
      && exists u :: u in Flatten(batches) && row.userId == u.userId && row.lockId == u.lockId && row.fcmId == u.fcmId
    decreases |batches|
  {
    if batches != [] {
      DispatchRowsNameRecipients(campaignId, batches[1..], gateway, k + 1);
      var b, call := batches[0], gateway(k);
      assert Flatten(batches) == b + Flatten(batches[1..]);
      forall row | row in SentRows(campaignId, b, call)
        ensures row.campaignId == campaignId && row.status == SentStatus
        ensures exists u :: u in Flatten(batches) && row.userId == u.userId && row.lockId == u.lockId && row.fcmId == u.fcmId
      {
        LoggedRowsAccepted(campaignId, b, call, Min(|call.reply.responses|, |b|), row);
        var i :| 0 <= i < |b| && row == DeliveryRowFor(campaignId, b[i], call.at);
        assert b[i] in Flatten(batches);
      }
    }
  }

  function CountTrue(s: seq<bool>): nat {
    if s == [] then 0 else CountTrue(s[..|s| - 1]) + (if s[|s| - 1] then 1 else 0)
  }

  /** Without rejected inserts, one log row is written per accepted
      message among the answers read. */
  lemma {:induction false} LoggedRowsCount(campaignId: CampaignId, batch: seq<UserRow>, call: GatewayCall, n: nat)
    requires call.reply.Returned? && n <= |batch| && n <= |call.reply.responses|
    requires call.logFailures == {}
    ensures |LoggedRows(campaignId, batch, call, n)| == CountTrue(call.reply.responses[..n])
  {
    if n > 0 {
      LoggedRowsCount(campaignId, batch, call, n - 1);
      assert call.reply.responses[..n][..n - 1] == call.reply.responses[..n - 1];
    }
  }

  /** A batch whose log inserts all succeed and whose reply, if any,
      answers each message once and counts its accepted ones as sent. */
  predicate Faithful(batch: seq<UserRow>, call: GatewayCall) {
    call.logFailures == {}
    && (call.reply.Returned? ==>
          |call.reply.responses| == |batch| && call.reply.successCount == CountTrue(call.reply.responses))
  }

  predicate AllFaithful(batches: seq<seq<UserRow>>, gateway: nat -> GatewayCall, k: nat)
    decreases |batches|
  {
    batches == [] || (Faithful(batches[0], gateway(k)) && AllFaithful(batches[1..], gateway, k + 1))
  }

  /** With faithful batches the log holds exactly one row per message
      counted as sent. */
  lemma {:induction false} DispatchRowsMatchSent(campaignId: CampaignId, batches: seq<seq<UserRow>>, gateway: nat -> GatewayCall, k: nat)
    requires AllFaithful(batches, gateway, k)
    ensures var p := Dispatch(campaignId, batches, gateway, k); |p.rows| == p.sent
    decreases |batches|
  {
    if batches != [] {
      var b, call := batches[0], gateway(k);
      DispatchRowsMatchSent(campaignId, batches[1..], gateway, k + 1);
      if call.reply.Returned? {
        LoggedRowsCount(campaignId, b, call, |b|);
        assert call.reply.responses[..|b|] == call.reply.responses;
      }
    }
  }

  /** Three stale locks, each mapped to one user with a token, sent in one
      batch of the default size that the gateway accepts in full: three
      sent, none failed, no pause, and one log row per user, in order. */
  lemma ThreeUserScenario(campaignId: CampaignId, at: int)
    ensures var users := [UserRow(1, 101, "token_101"), UserRow(2, 102, "token_102"), UserRow(3, 103, "token_103")];
      var gateway := (j: nat) => GatewayCall(Returned(3, 0, [true, true, true]), {}, at);
      var p := Dispatch(campaignId, BatchesOf(users, 100), gateway, 0);
      p.sent == 3 && p.failed == 0 && p.delays == 0
      && |p.rows| == 3 && p.rows[0].userId == 101 && p.rows[1].userId == 102 && p.rows[2].userId == 103
  {
    var users := [UserRow(1, 101, "token_101"), UserRow(2, 102, "token_102"), UserRow(3, 103, "token_103")];
    var gateway := (j: nat) => GatewayCall(Returned(3, 0, [true, true, true]), {}, at);
    assert BatchesOf(users, 100) == [users];
    var call := gateway(0);
    var r0, r1, r2 := DeliveryRowFor(campaignId, users[0], at), DeliveryRowFor(campaignId, users[1], at),
                      DeliveryRowFor(campaignId, users[2], at);
    assert call.reply.responses[0] && call.reply.responses[1] && call.reply.responses[2];
    assert LoggedRows(campaignId, users, call, 0) == [];
    assert LoggedRows(campaignId, users, call, 1) == [r0];
    assert LoggedRows(campaignId, users, call, 2) == [r0, r1];
    assert LoggedRows(campaignId, users, call, 3) == [r0, r1, r2];
    var batches: seq<seq<UserRow>> := [users];
    assert batches[1..] == [];
  }

  /* ---------------------------------------------------------------- */
  /* Campaign records                                                 */
  /* ---------------------------------------------------------------- */

  /** The INSERT of a running campaign: rejected when the store fails or
      the id is taken. */
  function Created(cs: map<CampaignId, CampaignRow>, id: CampaignId, at: int, thresholdDays: int, fails: bool)
    : (r: Outcome<map<CampaignId, CampaignRow>>)
    ensures r.Ok? <==> !fails && id !in cs
    ensures r.Ok? ==> (r.value.Keys == cs.Keys + {id}
      && r.value[id] == CampaignRow(CampaignType, at, thresholdDays, Running, None, None, None)
      && forall c :: c in cs ==> r.value[c] == cs[c])
  {
    if fails || id in cs then Fail(StoreError)
    else Ok(cs[id := CampaignRow(CampaignType, at, thresholdDays, Running, None, None, None)])
  }

  /** The UPDATE that completes a campaign; it touches no row when the id
      is unknown, and nothing when the store fails. */
  function Finalized(cs: map<CampaignId, CampaignRow>, id: CampaignId, sent: int, failed: int, at: int, fails: bool)
    : (r: map<CampaignId, CampaignRow>)
    ensures r.Keys == cs.Keys
    ensures forall c :: c in cs && c != id ==> r[c] == cs[c]
    ensures id in cs && !fails ==>
      r[id] == cs[id].(status := Completed, totalSent := Some(sent), totalFailed := Some(failed), completedAt := Some(at))
    ensures id !in cs || fails ==> r == cs
  {
    if fails || id !in cs then cs
    else cs[id := cs[id].(status := Completed, totalSent := Some(sent), totalFailed := Some(failed), completedAt := Some(at))]
  }

  /** A created campaign that is then finalized is completed with the given
      totals and keeps its type, creation time and threshold. */
  lemma CreateThenFinalize(cs: map<CampaignId, CampaignRow>, id: CampaignId, createdAt: int, thresholdDays: int,
                            sent: int, failed: int, at: int)
    requires Created(cs, id, createdAt, thresholdDays, false).Ok?
    ensures var f := Finalized(Created(cs, id, createdAt, thresholdDays, false).value, id, sent, failed, at, false);
      f.Keys == cs.Keys + {id}
      && f[id] == CampaignRow(CampaignType, createdAt, thresholdDays, Completed, Some(sent), Some(failed), Some(at))
  {
  }

  /* ---------------------------------------------------------------- */
  /* A whole run                                                      */
  /* ---------------------------------------------------------------- */

  /** What the outside world decides about one run. */
  datatype RunInputs = RunInputs(
    createdAt: int,                 // the campaign insert's clock
    createFails: bool,              // the campaign insert is rejected
    scanAt: int,                    // the clock the scan threshold is taken from
    scan: seq<ScanResponse>,        // the lock table's answers, in order
    mapping: seq<MappingRow>,       // lock_user_mapping
    lookupFailures: set<nat>,       // numbers of the lookup queries that fail
    gateway: nat -> GatewayCall,    // the push gateway, per batch number
    finishedAt: int,                // the final update's clock
    statsFails: bool)               // the final update is rejected

  /** The stale locks' recipients the run would reach: a failure of the
      scan or the lookup, or the users with a token. */
  function Recipients(inputs: RunInputs): Outcome<seq<UserRow>>
    requires ScanEnds(inputs.scan)
  {
    match ScanFrom(inputs.scan, 0)
    case Fail(f) => Fail(f)
    case Ok(items) =>
      LookupFrom(inputs.mapping, Chunks(LockIds(items), LookupChunkSize), inputs.lookupFailures, 0)
  }

  /** Whether a run gets as far as sending: the campaign is created and
      the scan and the lookup find someone to remind. Only such a run
      depends on the batch size. */
  predicate ReachesSend(cs: map<CampaignId, CampaignRow>, id: CampaignId, thresholdDays: int, inputs: RunInputs)
    requires ScanEnds(inputs.scan)
  {
    Created(cs, id, inputs.createdAt, thresholdDays, inputs.createFails).Ok?
    && Recipients(inputs).Ok? && Recipients(inputs).value != []
  }

  /** The effect of a run on the result and on the two tables. */
  datatype RunEffect = RunEffect(
    result: Outcome<()>,
    campaigns: map<CampaignId, CampaignRow>,
    rows: seq<DeliveryRow>)

  /** A run: create the campaign; fetch the stale locks and their users;
      send; finalize with the totals. A run that finds no lock or no user
      finalizes with zero totals; a run that throws finalizes with zero
      totals and then rethrows. */
  function Campaign(cs: map<CampaignId, CampaignRow>, id: CampaignId, thresholdDays: int, batchSize: int,
                    base: Option<string>, inputs: RunInputs): RunEffect
    requires ScanEnds(inputs.scan) && (batchSize > 0 || !ReachesSend(cs, id, thresholdDays, inputs))
  {
    match Created(cs, id, inputs.createdAt, thresholdDays, inputs.createFails)
    case Fail(f) =>
      RunEffect(Fail(f), Finalized(cs, id, 0, 0, inputs.finishedAt, inputs.statsFails), [])
    case Ok(created) =>
      match ScanFrom(inputs.scan, 0)
      case Fail(f) =>
        RunEffect(Fail(f), Finalized(created, id, 0, 0, inputs.finishedAt, inputs.statsFails), [])
      case Ok(items) =>
        if items == [] then
          RunEffect(Ok(()), Finalized(created, id, 0, 0, inputs.finishedAt, inputs.statsFails), [])
        else
          match LookupFrom(inputs.mapping, Chunks(LockIds(items), LookupChunkSize), inputs.lookupFailures, 0)
          case Fail(f) =>
            RunEffect(Fail(f), Finalized(created, id, 0, 0, inputs.finishedAt, inputs.statsFails), [])
          case Ok(users) =>
            if users == [] then
              RunEffect(Ok(()), Finalized(created, id, 0, 0, inputs.finishedAt, inputs.statsFails), [])
            else
              var p := Dispatch(id, BatchesOf(users, batchSize), inputs.gateway, 0);
              RunEffect(Ok(()), Finalized(created, id, p.sent, p.failed, inputs.finishedAt, inputs.statsFails), p.rows)
  }

  /** A run throws exactly when the campaign insert, the scan or the user
      lookup fails; failures of the gateway, of a log insert or of the
      final update never reach the caller. */
  lemma RunFailsOnlyOnStoreErrors(cs: map<CampaignId, CampaignRow>, id: CampaignId, thresholdDays: int, batchSize: int,
                                  base: Option<string>, inputs: RunInputs)
    requires ScanEnds(inputs.scan) && (batchSize > 0 || !ReachesSend(cs, id, thresholdDays, inputs))
    ensures Campaign(cs, id, thresholdDays, batchSize, base, inputs).result.Fail?
        <==> Created(cs, id, inputs.createdAt, thresholdDays, inputs.createFails).Fail? || Recipients(inputs).Fail?
    ensures Campaign(cs, id, thresholdDays, batchSize, base, inputs).result.Fail? ==>
      Campaign(cs, id, thresholdDays, batchSize, base, inputs).result.failure == StoreError
  {
    var items := ScanFrom(inputs.scan, 0);
    if items.Ok? && items.value == [] {
      assert Chunks(LockIds(items.value), LookupChunkSize) == [];
    }
  }

  /** Once its record is created, a campaign always ends completed unless
      the final update is rejected, whatever else fails; its totals are
      the dispatch totals when a send happened and zero otherwise, and it
      is the only campaign row that changes. */
  lemma RunCompletesCampaign(cs: map<CampaignId, CampaignRow>, id: CampaignId, thresholdDays: int, batchSize: int,
                             base: Option<string>, inputs: RunInputs)
    requires ScanEnds(inputs.scan) && (batchSize > 0 || !ReachesSend(cs, id, thresholdDays, inputs))
    requires Created(cs, id, inputs.createdAt, thresholdDays, inputs.createFails).Ok? && !inputs.statsFails
    ensures var e := Campaign(cs, id, thresholdDays, batchSize, base, inputs);
      var row := e.campaigns[id];
      id in e.campaigns && row.status == Completed && row.completedAt == Some(inputs.finishedAt)
      && row.createdAt == inputs.createdAt && row.thresholdDays == thresholdDays
      && (forall c :: c in cs ==> c in e.campaigns && e.campaigns[c] == cs[c])
      && (Recipients(inputs).Ok? && Recipients(inputs).value != [] ==>
            var p := Dispatch(id, BatchesOf(Recipients(inputs).value, batchSize), inputs.gateway, 0);
            row.totalSent == Some(p.sent) && row.totalFailed == Some(p.failed) && e.rows == p.rows)
      && (!(Recipients(inputs).Ok? && Recipients(inputs).value != []) ==>
            row.totalSent == Some(0) && row.totalFailed == Some(0) && e.rows == [])
  {
    CampaignTotals(cs, id, thresholdDays, batchSize, base, inputs);
  }

  /** After a successful insert, a run finalizes the new row with the
      dispatch totals when there was someone to send to, and with zeros
      otherwise. */
  lemma CampaignTotals(cs: map<CampaignId, CampaignRow>, id: CampaignId, thresholdDays: int, batchSize: int,
                       base: Option<string>, inputs: RunInputs)
    requires ScanEnds(inputs.scan) && (batchSize > 0 || !ReachesSend(cs, id, thresholdDays, inputs))
    requires Created(cs, id, inputs.createdAt, thresholdDays, inputs.createFails).Ok?
    ensures var e := Campaign(cs, id, thresholdDays, batchSize, base, inputs);
      var created := Created(cs, id, inputs.createdAt, thresholdDays, inputs.createFails).value;
      if Recipients(inputs).Ok? && Recipients(inputs).value != [] then
        var p := Dispatch(id, BatchesOf(Recipients(inputs).value, batchSize), inputs.gateway, 0);
        e.campaigns == Finalized(created, id, p.sent, p.failed, inputs.finishedAt, inputs.statsFails) && e.rows == p.rows
      else
        e.campaigns == Finalized(created, id, 0, 0, inputs.finishedAt, inputs.statsFails) && e.rows == []
  {
    var items := ScanFrom(inputs.scan, 0);
    if items.Ok? && items.value == [] {
      assert Chunks(LockIds(items.value), LookupChunkSize) == [];
    }
  }

  /** A campaign that fails to be created is not completed by the catch
      block, unless its id already named a stored campaign, which the
      catch block then overwrites with zero totals. */
  lemma RunFailedCreate(cs: map<CampaignId, CampaignRow>, id: CampaignId, thresholdDays: int, batchSize: int,
                        base: Option<string>, inputs: RunInputs)
    requires ScanEnds(inputs.scan) && (batchSize > 0 || !ReachesSend(cs, id, thresholdDays, inputs))
    requires Created(cs, id, inputs.createdAt, thresholdDays, inputs.createFails).Fail?
    ensures var e := Campaign(cs, id, thresholdDays, batchSize, base, inputs);
      e.rows == [] && e.campaigns.Keys == cs.Keys
      && (id !in cs ==> e.campaigns == cs)
  {
  }

  /** Each user reached by a run is counted once: with replies that
      account for their whole batch, sent plus failed is the number of
      recipients. */
  lemma RunAccounting(cs: map<CampaignId, CampaignRow>, id: CampaignId, thresholdDays: int, batchSize: int,
                      base: Option<string>, inputs: RunInputs)
    requires ScanEnds(inputs.scan) && (batchSize > 0 || !ReachesSend(cs, id, thresholdDays, inputs))
    requires Created(cs, id, inputs.createdAt, thresholdDays, inputs.createFails).Ok? && !inputs.statsFails
    requires Recipients(inputs).Ok?
    requires AllConsistent(BatchesOf(Recipients(inputs).value, batchSize), inputs.gateway, 0)
    ensures var row := Campaign(cs, id, thresholdDays, batchSize, base, inputs).campaigns[id];
      row.totalSent.Some? && row.totalFailed.Some?
      && row.totalSent.value + row.totalFailed.value == |Recipients(inputs).value|
  {
    RunCompletesCampaign(cs, id, thresholdDays, batchSize, base, inputs);
    var users := Recipients(inputs).value;
    DispatchAccounting(id, BatchesOf(users, batchSize), inputs.gateway, 0);
    BatchesCoverUsers(users, batchSize);
  }

  /* ---------------------------------------------------------------- */
  /* The service                                                      */
  /* ---------------------------------------------------------------- */

  /** The campaign runner. Its settings are fixed when it is built; the two
      tables it writes, notification_campaigns and notification_logs, are
      its fields. */
  class BatteryNotificationService {
    const campaignId: CampaignId
    const thresholdDays: int
    const batchSize: int
    const clickTrackingBaseUrl: Option<string>
    var campaigns: map<CampaignId, CampaignRow>
    var deliveryLog: seq<DeliveryRow>

    /** Reads the settings, falling back to 30 days and batches of 100, and
        takes `freshId` as the new campaign's id. */
    constructor (env: Environment, freshId: CampaignId,
                 storedCampaigns: map<CampaignId, CampaignRow>, storedLog: seq<DeliveryRow>)
      ensures thresholdDays == ConfiguredInt(env.notificationThresholdDays, DefaultThresholdDays)
      ensures batchSize == ConfiguredInt(env.batchSize, DefaultBatchSize)
      ensures clickTrackingBaseUrl == env.clickTrackingBaseUrl && campaignId == freshId
      ensures campaigns == storedCampaigns && deliveryLog == storedLog
    {
      thresholdDays := ConfiguredInt(env.notificationThresholdDays, DefaultThresholdDays);
      batchSize := ConfiguredInt(env.batchSize, DefaultBatchSize);
      clickTrackingBaseUrl := env.clickTrackingBaseUrl;
      campaignId := freshId;
      campaigns := storedCampaigns;
      deliveryLog := storedLog;
    }

    /** Scans the lock table for locks checked before the threshold, page by
        page, following each continuation key until a page has none. */
    method GetStaleLocks(now: int, responses: seq<ScanResponse>) returns (r: Outcome<seq<LockItem>>, requests: seq<ScanRequest>)
      requires ScanEnds(responses)
      ensures r == ScanFrom(responses, 0)
      ensures |requests| == ScanStop(responses, 0) + 1
      ensures forall j :: 0 <= j < |requests| ==> requests[j].thresholdTimestamp == ScanThreshold(now, thresholdDays)
      ensures requests[0].exclusiveStartKey.None?
      ensures forall j :: 0 < j < |requests| ==> requests[j].exclusiveStartKey == responses[j - 1].lastEvaluatedKey
    {
      var threshold := ScanThreshold(now, thresholdDays);
      var staleLocks: seq<LockItem> := [];
      var lastKey: Option<ScanKey> := None;
      var startKey: Option<ScanKey> := None;
      var k: nat := 0;
      requests := [];
      PrependNothing(ScanFrom(responses, 0));
      while true
        invariant k <= ScanStop(responses, 0) && ScanStop(responses, k) == ScanStop(responses, 0)
        invariant ScanFrom(responses, 0) == Prepend(staleLocks, ScanFrom(responses, k))
        invariant |requests| == k
        invariant forall j :: 0 <= j < k ==> requests[j].thresholdTimestamp == threshold
        invariant k > 0 ==> requests[0].exclusiveStartKey.None?
        invariant forall j :: 0 < j < k ==> requests[j].exclusiveStartKey == responses[j - 1].lastEvaluatedKey
        invariant lastKey == (if k == 0 then None else responses[k - 1].lastEvaluatedKey)
        invariant k > 0 ==> lastKey.Some?
        invariant startKey == (if k <= 1 then None else responses[k - 2].lastEvaluatedKey)
        decreases |responses| - k
      {
        if lastKey.Some? {
          startKey := lastKey;
        }
        requests := requests + [ScanRequest(threshold, startKey)];
        var result := responses[k];
        if result.ScanFailed? {
          r := Fail(StoreError);
          return;
        }
        var before := staleLocks;
        if result.items.Some? {
          staleLocks := staleLocks + result.items.value;
        }
        assert staleLocks == before + ItemsOf(result);
        lastKey := result.lastEvaluatedKey;
        if lastKey.None? {
          assert ScanStop(responses, k) == k;
          r := Ok(staleLocks);
          assert staleLocks == staleLocks + [];
          return;
        }
        assert ScanFrom(responses, k) == Prepend(ItemsOf(result), ScanFrom(responses, k + 1));
        PrependTwice(before, ItemsOf(result), ScanFrom(responses, k + 1));
        k := k + 1;
      }
    }

    /** Looks the locks' users up in slices of 1000 lock ids, one query per
        slice; the first failing query aborts the lookup. */
    method GetUsersForLocks(lockIds: seq<int>, table: seq<MappingRow>, failing: set<nat>)
      returns (r: Outcome<seq<UserRow>>, queries: seq<LookupQuery>)
      ensures r == LookingUpFrom(table, lockIds, 0, failing, 0)
      ensures forall j :: 0 <= j < |queries| ==>
        j * LookupChunkSize < |lockIds|
        && queries[j] == QueryFor(LookupSlice(lockIds, j))
      ensures r.Ok? ==> |lockIds| <= |queries| * LookupChunkSize
      ensures r.Fail? ==> |queries| > 0 && |queries| - 1 in failing
    {
      var allUsers: seq<UserRow> := [];
      var i: nat := 0;
      var k: nat := 0;
      queries := [];
      PrependNothing(LookingUpFrom(table, lockIds, 0, failing, 0));
      while i < |lockIds|
        invariant |queries| == k && i == k * LookupChunkSize
        invariant forall j :: 0 <= j < k ==>
          j * LookupChunkSize < |lockIds|
          && queries[j] == QueryFor(LookupSlice(lockIds, j))
        invariant LookingUpFrom(table, lockIds, 0, failing, 0)
               == Prepend(allUsers, LookingUpFrom(table, lockIds, i, failing, k))
        decreases |lockIds| - i
      {
        var batchLockIds := lockIds[i..Min(i + LookupChunkSize, |lockIds|)];
        QueriesGrow(lockIds, queries, k);
        queries := queries + [QueryFor(batchLockIds)];
        if k in failing {
          r := Fail(StoreError);
          return;
        }
        PrependTwice(allUsers, MappedUsers(table, batchLockIds),
                     LookingUpFrom(table, lockIds, i + LookupChunkSize, failing, k + 1));
        allUsers := allUsers + MappedUsers(table, batchLockIds);
        k := k + 1;
        i := i + LookupChunkSize;
      }
      AppendEmpty(allUsers);
      r := Ok(allUsers);
    }

    /** Inserts the running campaign and returns its row. */
    method CreateCampaignRecord(at: int, fails: bool) returns (r: Outcome<CampaignRow>)
      modifies this`campaigns
      ensures var o := Created(old(campaigns), campaignId, at, thresholdDays, fails);
        (o.Ok? ==> campaigns == o.value && r == Ok(campaigns[campaignId]))
        && (o.Fail? ==> campaigns == old(campaigns) && r == Fail(o.failure))
    {
      var o := Created(campaigns, campaignId, at, thresholdDays, fails);
      if o.Fail? {
        return Fail(o.failure);
      }
      campaigns := o.value;
      r := Ok(campaigns[campaignId]);
    }

    /** Logs one accepted message; a rejected insert is swallowed. */
    method LogNotificationSent(userId: int, lockId: int, fcmId: string, at: int, fails: bool)
      modifies this`deliveryLog
      ensures deliveryLog == old(deliveryLog)
        + (if fails then [] else [DeliveryRow(campaignId, userId, lockId, fcmId, at, SentStatus)])
    {
      if !fails {
        deliveryLog := deliveryLog + [DeliveryRow(campaignId, userId, lockId, fcmId, at, SentStatus)];
      }
    }

    /** Sends one reminder per user of the batch and logs each message the
        gateway accepted, in answer order. */
    method SendBatchNotifications(userBatch: seq<UserRow>, call: GatewayCall)
      returns (r: Outcome<GatewayReply>, messages: seq<Message>)
      modifies this`deliveryLog
      ensures messages == Reminders(userBatch, campaignId, thresholdDays, clickTrackingBaseUrl)
      ensures r == SendOutcome(userBatch, call.reply)
      ensures deliveryLog == old(deliveryLog) + SentRows(campaignId, userBatch, call)
    {
      messages := Reminders(userBatch, campaignId, thresholdDays, clickTrackingBaseUrl);
      if call.reply.Threw? {
        return Fail(GatewayError), messages;
      }
      var responses := call.reply.responses;
      var i := 0;
      while i < |responses|
        invariant i <= |responses| && i <= |userBatch|
        invariant deliveryLog == old(deliveryLog) + LoggedRows(campaignId, userBatch, call, i)
      {
        if i == |userBatch| {
          assert SentRows(campaignId, userBatch, call) == LoggedRows(campaignId, userBatch, call, i);
          return Fail(MalformedReply), messages;
        }
        var user := userBatch[i];
        ghost var before := deliveryLog;
        if responses[i] {
          LogNotificationSent(user.userId, user.lockId, user.fcmId, call.at, i in call.logFailures);
        }
        ghost var logged := if responses[i] && i !in call.logFailures then [DeliveryRowFor(campaignId, user, call.at)] else [];
        assert deliveryLog == before + logged;
        assert LoggedRows(campaignId, userBatch, call, i + 1) == LoggedRows(campaignId, userBatch, call, i) + logged;
        i := i + 1;
      }
      assert SentRows(campaignId, userBatch, call) == LoggedRows(campaignId, userBatch, call, i);
      r := Ok(call.reply);
    }

    /** Completes the campaign with its totals; a rejected update is
        swallowed. */
    method UpdateCampaignStats(totalSent: int, totalFailed: int, at: int, fails: bool)
      modifies this`campaigns
      ensures campaigns == Finalized(old(campaigns), campaignId, totalSent, totalFailed, at, fails)
    {
      campaigns := Finalized(campaigns, campaignId, totalSent, totalFailed, at, fails);
    }

    /** Sends the users in batches of `batchSize`, pausing between batches;
        a batch whose send throws counts all its users as failed. */
    method ProcessBatches(users: seq<UserRow>, gateway: nat -> GatewayCall)
      returns (totalSent: int, totalFailed: int, delays: nat)
      requires batchSize > 0 || users == []
      modifies this`deliveryLog
      ensures var p := SendingFrom(campaignId, users, batchSize, 0, gateway, 0);
        totalSent == p.sent && totalFailed == p.failed && delays == p.delays
        && deliveryLog == old(deliveryLog) + p.rows
    {
      var cid, size := campaignId, batchSize;
      totalSent, totalFailed, delays := 0, 0, 0;
      ghost var rows: seq<DeliveryRow> := [];
      var i: nat := 0;
      var k: nat := 0;
      ghost var total := SendingFrom(cid, users, size, 0, gateway, 0);
      AppendEmpty(total.rows);
      while i < |users|
        invariant deliveryLog == old(deliveryLog) + rows
        invariant totalSent + SendingFrom(cid, users, size, i, gateway, k).sent == total.sent
        invariant totalFailed + SendingFrom(cid, users, size, i, gateway, k).failed == total.failed
        invariant delays + SendingFrom(cid, users, size, i, gateway, k).delays == total.delays
        invariant rows + SendingFrom(cid, users, size, i, gateway, k).rows == total.rows
        decreases |users| - i
      {
        var batch := users[i..Min(i + size, |users|)];
        var call := CallOf(gateway, k);
        ghost var effect := BatchEffect(cid, batch, call, i + size < |users|);
        ghost var later := SendingFrom(cid, users, size, i + size, gateway, k + 1);
        SendingStep(cid, users, size, i, gateway, k);
        AppendAssociates(rows, effect.rows, later.rows);
        AppendAssociates(old(deliveryLog), rows, effect.rows);
        var r, _ := SendBatchNotifications(batch, call);
        rows := rows + effect.rows;
        if r.Ok? {
          totalSent := totalSent + r.value.successCount;
          totalFailed := totalFailed + r.value.failureCount;
          if i + size < |users| {
            delays := delays + 1;
          }
        } else {
          totalFailed := totalFailed + |batch|;
        }
        i := i + size;
        k := k + 1;
      }
      AppendEmpty(rows);
    }

    /** One campaign run, start to finish. */
    method Run(inputs: RunInputs) returns (r: Outcome<()>)
      requires ScanEnds(inputs.scan) && (batchSize > 0 || !ReachesSend(campaigns, campaignId, thresholdDays, inputs))
      modifies this`campaigns, this`deliveryLog
      ensures var e := Campaign(old(campaigns), campaignId, thresholdDays, batchSize, clickTrackingBaseUrl, inputs);
        r == e.result && campaigns == e.campaigns && deliveryLog == old(deliveryLog) + e.rows
    {
      var created := CreateCampaignRecord(inputs.createdAt, inputs.createFails);
      if created.Fail? {
        UpdateCampaignStats(0, 0, inputs.finishedAt, inputs.statsFails);
        return Fail(created.failure);
      }
      var staleLocks, _ := GetStaleLocks(inputs.scanAt, inputs.scan);
      if staleLocks.Fail? {
        UpdateCampaignStats(0, 0, inputs.finishedAt, inputs.statsFails);
        return Fail(staleLocks.failure);
      }
      if |staleLocks.value| == 0 {
        UpdateCampaignStats(0, 0, inputs.finishedAt, inputs.statsFails);
        return Ok(());
      }
      var lockIds := LockIds(staleLocks.value);
      var users, _ := GetUsersForLocks(lockIds, inputs.mapping, inputs.lookupFailures);
      LookingUpIsLookup(inputs.mapping, lockIds, inputs.lookupFailures);
      if users.Fail? {
        UpdateCampaignStats(0, 0, inputs.finishedAt, inputs.statsFails);
        return Fail(users.failure);
      }
      if |users.value| == 0 {
        UpdateCampaignStats(0, 0, inputs.finishedAt, inputs.statsFails);
        return Ok(());
      }
      var totalSent, totalFailed, _ := ProcessBatches(users.value, inputs.gateway);
      SendingIsDispatch(campaignId, users.value, batchSize, inputs.gateway);
      UpdateCampaignStats(totalSent, totalFailed, inputs.finishedAt, inputs.statsFails);
      r := Ok(());
    }
  }
}
