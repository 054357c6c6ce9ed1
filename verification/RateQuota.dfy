/** How many requests of one client the rate limiter (backend/src/rate_limit.js) lets through, when the requests of a
    key come with different spans and limits, windows are evicted and rows are cleaned up. */
module RateQuota {
  import opened Options
  import opened RateLimit

  /** How many requests of one key are answered with yes at times in [a, a + length). */
  function Yeses(answers: seq<bool>, qs: seq<Request>, k: ClientId, length: nat, a: int): nat
    requires |answers| == |qs|
    decreases |qs|
  {
    if qs == [] then 0
    else (if qs[0].key == k && a <= qs[0].now < a + length && answers[0] then 1 else 0)
         + Yeses(answers[1..], qs[1..], k, length, a)
  }

  /** Every request, and every request of key k, has at least the given span; every request of key k has at most the
      given limit. */
  predicate AllSpans(qs: seq<Request>, least: nat) { forall i :: 0 <= i < |qs| ==> qs[i].span >= least }

  predicate SpansOf(qs: seq<Request>, k: ClientId, least: nat) {
    forall i :: 0 <= i < |qs| && qs[i].key == k ==> qs[i].span >= least
  }

  predicate LimitsOf(qs: seq<Request>, k: ClientId, limit: nat) {
    forall i :: 0 <= i < |qs| && qs[i].key == k ==> qs[i].limit <= limit
  }

  // ---------- at most twice the limit less one ----------

  function TwiceLessOne(limit: nat): nat { if limit == 0 then 0 else 2 * limit - 1 }

  function Left(limit: nat, count: nat): nat { if count < limit then limit - count else 0 }

  /** What can still get through from time from on: the rest of a window that began in the interval; the rest of an
      older window, and a new one, once the interval has begun; and before that all but the first request of a window,
      and a new one. */
  function Quota(w: Option<Window>, from: int, limit: nat, a: int): nat {
    if w.Some? && w.value.startedAt >= a then Left(limit, w.value.count)
    else if from < a then TwiceLessOne(limit)
    else (if w.Some? then Left(limit, w.value.count) else 0) + limit
  }

  predicate Counted(w: Option<Window>) { w.Some? ==> w.value.count >= 1 }

  /** A window may be forgotten when it is over for the given span. */
  predicate Kept(before: Option<Window>, after: Option<Window>, least: nat, now: int) {
    after == before || (after.None? && before.Some? && now - before.value.startedAt >= least)
  }

  /** Time passes, and a window may be forgotten: the quota does not grow, as no window begins twice within the least
      span. */
  lemma QuotaStands(before: Option<Window>, after: Option<Window>, least: nat, limit: nat, a: int, from: int, now: int)
    requires Counted(before) && Kept(before, after, least, now) && from <= now < a + least
    ensures Quota(after, now, limit, a) <= Quota(before, from, limit, a)
  {
  }

  /** A request uses up what it gets. */
  lemma QuotaIsSpent(w: Option<Window>, q: Request, least: nat, limit: nat, a: int, from: int)
    requires Counted(w) && q.span >= least && q.limit <= limit && from <= q.now < a + least
    ensures var charged := Charge(w, q.span, q.now);
            (if a <= q.now && charged.count <= q.limit then 1 else 0)
              + Quota(Some(charged), q.now, limit, a) <= Quota(w, from, limit, a)
  {
  }

  lemma {:induction false} NothingAfter(answers: seq<bool>, qs: seq<Request>, k: ClientId, length: nat, a: int,
      from: int)
    requires |answers| == |qs| && Ordered(qs, from) && from >= a + length
    ensures Yeses(answers, qs, k, length, a) == 0
    decreases |qs|
  {
    if qs != [] {
      NothingAfter(answers[1..], qs[1..], k, length, a, qs[0].now);
    }
  }

  /** One request, of k or of another key, whose call may also forget k's window, against the rest of the answers. */
  lemma OneAnswer(before: Option<Window>, after: Option<Window>, qs: seq<Request>, answers: seq<bool>, k: ClientId,
      least: nat, limit: nat, a: int, from: int)
    requires qs != [] && |answers| == |qs| && Ordered(qs, from) && Counted(before)
    requires qs[0].key == k ==> qs[0].span >= least && qs[0].limit <= limit
    requires var q := qs[0];
             var charged := if q.key == k then Some(Charge(before, q.span, q.now)) else before;
             && Kept(charged, after, least, q.now)
             && (q.key == k ==> (answers[0] <==> charged.value.count <= q.limit))
    requires qs[0].now < a + least ==> Yeses(answers[1..], qs[1..], k, least, a) <= Quota(after, qs[0].now, limit, a)
    ensures Yeses(answers, qs, k, least, a) <= Quota(before, from, limit, a)
  {
    var q := qs[0];
    if q.now >= a + least {
      NothingAfter(answers[1..], qs[1..], k, least, a, q.now);
    } else if q.key == k {
      QuotaIsSpent(before, q, least, limit, a, from);
      QuotaStands(Some(Charge(before, q.span, q.now)), after, least, limit, a, q.now, q.now);
    } else {
      QuotaStands(before, after, least, limit, a, from, q.now);
    }
  }

  lemma {:induction false} PlainWithin(windows: map<ClientId, Window>, qs: seq<Request>, k: ClientId, least: nat,
      limit: nat, a: int, from: int)
    requires Ordered(qs, from) && SpansOf(qs, k, least) && LimitsOf(qs, k, limit) && Counted(Get(windows, k))
    ensures Yeses(PlainAnswers(windows, qs), qs, k, least, a) <= Quota(Get(windows, k), from, limit, a)
    decreases |qs|
  {
    if qs != [] {
      var next := Consume(windows, qs[0]);
      PlainWithin(next, qs[1..], k, least, limit, a, qs[0].now);
      OneAnswer(Get(windows, k), Get(next, k), qs, PlainAnswers(windows, qs), k, least, limit, a, from);
    }
  }

  lemma {:induction false} LocalWithin(windows: map<ClientId, Window>, qs: seq<Request>, k: ClientId, least: nat,
      limit: nat, a: int, from: int)
    requires Ordered(qs, from) && AllSpans(qs, least) && LimitsOf(qs, k, limit) && Counted(Get(windows, k))
    ensures Yeses(LocalAnswers(windows, qs), qs, k, least, a) <= Quota(Get(windows, k), from, limit, a)
    decreases |qs|
  {
    if qs != [] {
      var next := ConsumeLocal(windows, qs[0]);
      LocalWithin(next, qs[1..], k, least, limit, a, qs[0].now);
      OneAnswer(Get(windows, k), Get(next, k), qs, LocalAnswers(windows, qs), k, least, limit, a, from);
    }
  }

  /** The first operation is a request. */
  lemma AskWithin(rows: map<ClientId, Window>, ops: seq<SqlOp>, k: ClientId, least: nat, limit: nat, a: int, from: int)
    requires ops != [] && ops[0].Ask? && Ordered(Asked(ops), from) && Counted(Get(rows, k))
    requires SpansOf(Asked(ops), k, least) && LimitsOf(Asked(ops), k, limit)
    requires var q := ops[0].request;
             var next := rows[q.key := Upsert(Get(rows, q.key), q.span, q.now)];
             Yeses(SqlAnswers(next, ops[1..]), Asked(ops[1..]), k, least, a) <= Quota(Get(next, k), q.now, limit, a)
    ensures Yeses(SqlAnswers(rows, ops), Asked(ops), k, least, a) <= Quota(Get(rows, k), from, limit, a)
  {
    var q := ops[0].request;
    UpsertCharges(Get(rows, q.key), q.span, q.now);
    var row := Upsert(Get(rows, q.key), q.span, q.now);
    var qs, rest := Asked(ops), SqlAnswers(rows[q.key := row], ops[1..]);
    var answers := [row.count <= q.limit] + rest;
    assert SqlAnswers(rows, ops) == answers;
    assert qs[0] == q && qs[1..] == Asked(ops[1..]) && answers[1..] == rest;
    OneAnswer(Get(rows, k), Get(rows[q.key := row], k), qs, answers, k, least, limit, a, from);
  }

  /** The first operation is a clean-up. */
  lemma CleanupWithin(rows: map<ClientId, Window>, answers: seq<bool>, qs: seq<Request>, now: int, k: ClientId,
      least: nat,
      limit: nat, a: int, from: int)
    requires |answers| == |qs| && Ordered(qs, now) && from <= now && least <= OLDEST && Counted(Get(rows, k))
    requires Yeses(answers, qs, k, least, a) <= Quota(Get(Cleaned(rows, now), k), now, limit, a)
    ensures Yeses(answers, qs, k, least, a) <= Quota(Get(rows, k), from, limit, a)
  {
    if now >= a + least {
      NothingAfter(answers, qs, k, least, a, now);
    } else {
      QuotaStands(Get(rows, k), Get(Cleaned(rows, now), k), least, limit, a, from, now);
    }
  }

  predicate SqlSetting(rows: map<ClientId, Window>, ops: seq<SqlOp>, k: ClientId, least: nat, limit: nat, from: int) {
    OrderedOps(ops, from) && least <= OLDEST && SpansOf(Asked(ops), k, least) && LimitsOf(Asked(ops), k, limit)
    && Counted(Get(rows, k))
  }

  lemma {:induction false} SqlWithin(rows: map<ClientId, Window>, ops: seq<SqlOp>, k: ClientId, least: nat, limit: nat,
      a: int, from: int)
    requires SqlSetting(rows, ops, k, least, limit, from)
    ensures Yeses(SqlAnswers(rows, ops), Asked(ops), k, least, a) <= Quota(Get(rows, k), from, limit, a)
    decreases |ops|, 1
  {
    if ops != [] {
      if ops[0].Ask? {
        SqlWithinAsk(rows, ops, k, least, limit, a, from);
      } else {
        SqlWithinCleanup(rows, ops, k, least, limit, a, from);
      }
    }
  }

  lemma {:induction false} SqlWithinAsk(rows: map<ClientId, Window>, ops: seq<SqlOp>, k: ClientId, least: nat,
      limit: nat,
      a: int, from: int)
    requires SqlSetting(rows, ops, k, least, limit, from) && ops != [] && ops[0].Ask?
    ensures Yeses(SqlAnswers(rows, ops), Asked(ops), k, least, a) <= Quota(Get(rows, k), from, limit, a)
    decreases |ops|, 0
  {
    var q, rest := ops[0].request, ops[1..];
    assert Asked(ops)[1..] == Asked(rest);
    AskedAreOrdered(ops, from);
    var next := rows[q.key := Upsert(Get(rows, q.key), q.span, q.now)];
    assert SqlSetting(next, rest, k, least, limit, q.now);
    SqlWithin(next, rest, k, least, limit, a, q.now);
    AskWithin(rows, ops, k, least, limit, a, from);
  }

  lemma {:induction false} SqlWithinCleanup(rows: map<ClientId, Window>, ops: seq<SqlOp>, k: ClientId, least: nat,
      limit: nat, a: int, from: int)
    requires SqlSetting(rows, ops, k, least, limit, from) && ops != [] && ops[0].Cleanup?
    ensures Yeses(SqlAnswers(rows, ops), Asked(ops), k, least, a) <= Quota(Get(rows, k), from, limit, a)
    decreases |ops|, 0
  {
    var now, rest := ops[0].now, ops[1..];
    assert Asked(ops) == Asked(rest);
    AskedAreOrdered(rest, now);
    assert SqlSetting(Cleaned(rows, now), rest, k, least, limit, now);
    SqlWithin(Cleaned(rows, now), rest, k, least, limit, a, now);
    CleanupWithin(rows, SqlAnswers(Cleaned(rows, now), rest), Asked(rest), now, k, least, limit, a, from);
  }

  lemma {:induction false} AskedAreOrdered(ops: seq<SqlOp>, from: int)
    requires OrderedOps(ops, from)
    ensures Ordered(Asked(ops), from)
    decreases |ops|
  {
    if ops != [] {
      AskedAreOrdered(ops[1..], Time(ops[0]));
      if ops[0].Ask? {
        assert Asked(ops)[1..] == Asked(ops[1..]);
      } else {
        assert Asked(ops) == Asked(ops[1..]);
        OrderedFromEarlier(Asked(ops), from, Time(ops[0]));
      }
    }
  }

  lemma OrderedFromEarlier(qs: seq<Request>, earlier: int, from: int)
    requires Ordered(qs, from) && earlier <= from
    ensures Ordered(qs, earlier)
  {
  }

  /** In any half-open interval of the length of its shortest span a client gets at most twice its highest limit, less
      one, through. */
  lemma FewerThanTwice(qs: seq<Request>, k: ClientId, least: nat, limit: nat, a: int, from: int)
    requires Ordered(qs, from) && SpansOf(qs, k, least) && LimitsOf(qs, k, limit)
    ensures Yeses(PlainAnswers(map[], qs), qs, k, least, a) <= TwiceLessOne(limit)
  {
    var start := if from < a then from else a - 1;
    OrderedFromEarlier(qs, start, from);
    PlainWithin(map[], qs, k, least, limit, a, start);
  }

  /** The same for the in-process limiter, where the shortest span of any caller counts, because any caller may
      evict. */
  lemma LocalFewerThanTwice(qs: seq<Request>, k: ClientId, least: nat, limit: nat, a: int, from: int)
    requires Ordered(qs, from) && AllSpans(qs, least) && LimitsOf(qs, k, limit)
    ensures Yeses(LocalAnswers(map[], qs), qs, k, least, a) <= TwiceLessOne(limit)
  {
    var start := if from < a then from else a - 1;
    OrderedFromEarlier(qs, start, from);
    LocalWithin(map[], qs, k, least, limit, a, start);
  }

  /** The same for the SQL limiter, up to the age from which rows are cleaned up. */
  lemma SqlFewerThanTwice(ops: seq<SqlOp>, k: ClientId, least: nat, limit: nat, a: int, from: int)
    requires OrderedOps(ops, from) && least <= OLDEST && SpansOf(Asked(ops), k, least) && LimitsOf(Asked(ops), k, limit)
    ensures Yeses(SqlAnswers(map[], ops), Asked(ops), k, least, a) <= TwiceLessOne(limit)
  {
    var start := if from < a then from else a - 1;
    assert ops != [] ==> start <= Time(ops[0]);
    SqlWithin(map[], ops, k, least, limit, a, start);
  }

  // ---------- the bound is reached ----------

  /** The yeses of the in-process limiter, counted as they are given. */
  function Got(windows: map<ClientId, Window>, qs: seq<Request>, k: ClientId, length: nat, a: int): nat
    decreases |qs|
  {
    if qs == [] then 0
    else (if qs[0].key == k && a <= qs[0].now < a + length && Allowed(windows, qs[0]) then 1 else 0)
         + Got(ConsumeLocal(windows, qs[0]), qs[1..], k, length, a)
  }

  lemma {:induction false} GotAreYeses(windows: map<ClientId, Window>, qs: seq<Request>, k: ClientId, length: nat,
      a: int)
    ensures Yeses(LocalAnswers(windows, qs), qs, k, length, a) == Got(windows, qs, k, length, a)
    decreases |qs|
  {
    if qs != [] {
      GotAreYeses(ConsumeLocal(windows, qs[0]), qs[1..], k, length, a);
    }
  }

  /** n times the same request, and then the rest. */
  function Burst(q: Request, n: nat, rest: seq<Request>): seq<Request> {
    if n == 0 then rest else [q] + Burst(q, n - 1, rest)
  }

  /** A request of the only client inside a window that is not over. */
  lemma Continues(w: Window, q: Request, rest: seq<Request>, length: nat, a: int)
    requires w.count < q.limit && q.now - w.startedAt < q.span && a <= q.now < a + length
    ensures var qs := [q] + rest;
            Got(map[q.key := w], qs, q.key, length, a)
            == 1 + Got(map[q.key := w.(count := w.count + 1)], rest, q.key, length, a)
  {
    assert ([q] + rest)[1..] == rest;
    assert ConsumeLocal(map[q.key := w], q) == map[q.key := w.(count := w.count + 1)];
  }

  /** A burst inside such a window: all that the limit leaves gets through. */
  lemma {:induction false} BurstAdmits(w: Window, q: Request, n: nat, rest: seq<Request>, length: nat, a: int)
    requires w.count + n <= q.limit && q.now - w.startedAt < q.span && a <= q.now < a + length
    ensures var qs, after := Burst(q, n, rest), w.(count := w.count + n);
            Got(map[q.key := w], qs, q.key, length, a)
            == n + Got(map[q.key := after], rest, q.key, length, a)
    decreases n
  {
    if n > 0 {
      Continues(w, q, Burst(q, n - 1, rest), length, a);
      BurstAdmits(w.(count := w.count + 1), q, n - 1, rest, length, a);
    }
  }

  /** A request of the only client that begins a window. */
  lemma Begins(windows: map<ClientId, Window>, q: Request, rest: seq<Request>, length: nat, a: int)
    requires windows.Keys <= {q.key} && (q.key in windows ==> q.now - windows[q.key].startedAt >= q.span)
    requires q.limit >= 1
    ensures var qs := [q] + rest;
            Got(windows, qs, q.key, length, a)
            == (if a <= q.now < a + length then 1 else 0)
               + Got(map[q.key := Window(q.now, 1)], rest, q.key, length, a)
  {
    var begun := map[q.key := Window(q.now, 1)];
    assert ([q] + rest)[1..] == rest;
    assert Consume(windows, q) == begun;
    assert |begun| == 1;
    assert ConsumeLocal(windows, q) == begun;
  }

  /** A window filled: its first request, and then n more inside it. */
  lemma Fills(windows: map<ClientId, Window>, first: Request, later: Request, n: nat, rest: seq<Request>, length: nat,
      a: int)
    requires first.key == later.key && windows.Keys <= {first.key} && n + 1 <= first.limit && n + 1 <= later.limit
    requires first.key in windows ==> first.now - windows[first.key].startedAt >= first.span
    requires later.now - first.now < later.span && a <= later.now < a + length
    ensures Got(windows, [first] + Burst(later, n, rest), first.key, length, a)
            == (if a <= first.now < a + length then 1 else 0) + n
               + Got(map[first.key := Window(first.now, n + 1)], rest, first.key, length, a)
  {
    Begins(windows, first, Burst(later, n, rest), length, a);
    BurstAdmits(Window(first.now, 1), later, n, rest, length, a);
  }

  /** One request at 0, the rest of the window at its last instant, then a full new window. */
  function Worst(k: ClientId, span: nat, limit: nat): seq<Request>
    requires limit >= 1
  {
    [Request(k, limit, span, 0)]
    + Burst(Request(k, limit, span, span - 1), limit - 1,
            [Request(k, limit, span, span)] + Burst(Request(k, limit, span, span), limit - 1, []))
  }

  /** All but the first of them get through, within an interval of the length of the window. */
  lemma TwiceLessOneIsReached(k: ClientId, span: nat, limit: nat)
    requires limit >= 1 && span >= 2
    ensures Yeses(LocalAnswers(map[], Worst(k, span, limit)), Worst(k, span, limit), k, span, 1) == TwiceLessOne(limit)
  {
    var first, late, again :=
      Request(k, limit, span, 0), Request(k, limit, span, span - 1), Request(k, limit, span, span);
    Fills(map[], first, late, limit - 1, [again] + Burst(again, limit - 1, []), span, 1);
    Fills(map[k := Window(0, limit)], again, again, limit - 1, [], span, 1);
    GotAreYeses(map[], Worst(k, span, limit), k, span, 1);
  }

  // ---------- one key, two spans ----------

  /** With two spans in use, and whatever else is asked: a client gets at most 2 * limit - 1 requests through in an
      interval of length s. */
  ghost predicate QuotaHolds(s: nat, t: nat, limit: nat) {
    forall qs, from, k, a {:trigger Ordered(qs, from), Yeses(LocalAnswers(map[], qs), qs, k, s, a)} ::
      Ordered(qs, from) && Spans(qs, s, t) && LimitsOf(qs, k, limit) ==>
        Yeses(LocalAnswers(map[], qs), qs, k, s, a) <= TwiceLessOne(limit)
  }

  /** A full window of span s, and at time t another one that a single request of span t begins. */
  function Renewed(s: nat, t: nat, limit: nat): seq<Request>
    requires limit >= 1
  {
    [Request(1, limit, s, 0)]
    + Burst(Request(1, limit, s, 0), limit - 1, [Request(1, limit, t, t)]
            + Burst(Request(1, limit, s, t), limit - 1, []))
  }

  lemma RenewedGetsTwice(s: nat, t: nat, limit: nat)
    requires limit >= 1 && t < s
    ensures Yeses(LocalAnswers(map[], Renewed(s, t, limit)), Renewed(s, t, limit), 1, s, 0) == 2 * limit
  {
    var general, probe, later := Request(1, limit, s, 0), Request(1, limit, t, t), Request(1, limit, s, t);
    Fills(map[], general, general, limit - 1, [probe] + Burst(later, limit - 1, []), s, 0);
    Fills(map[1 := Window(0, limit)], probe, later, limit - 1, [], s, 0);
    GotAreYeses(map[], Renewed(s, t, limit), 1, s, 0);
  }

  lemma {:induction false} BurstIsOrdered(q: Request, n: nat, rest: seq<Request>)
    requires Ordered(rest, q.now)
    ensures Ordered(Burst(q, n, rest), q.now)
    ensures forall x :: x in Burst(q, n, rest) ==> x == q || x in rest
  {
    if n > 0 {
      BurstIsOrdered(q, n - 1, rest);
      assert Burst(q, n, rest)[1..] == Burst(q, n - 1, rest);
    }
  }

  lemma RenewedIsOrdered(s: nat, t: nat, limit: nat)
    requires limit >= 1
    ensures Ordered(Renewed(s, t, limit), 0) && Spans(Renewed(s, t, limit), s, t)
            && LimitsOf(Renewed(s, t, limit), 1, limit)
    ensures forall i :: 0 <= i < |Renewed(s, t, limit)| ==> Renewed(s, t, limit)[i].key == 1
  {
    var general, probe, later := Request(1, limit, s, 0), Request(1, limit, t, t), Request(1, limit, s, t);
    var fill := Burst(later, limit - 1, []);
    BurstIsOrdered(later, limit - 1, []);
    assert ([probe] + fill)[1..] == fill;
    BurstIsOrdered(general, limit - 1, [probe] + fill);
    assert Renewed(s, t, limit)[1..] == Burst(general, limit - 1, [probe] + fill);
    var qs := Renewed(s, t, limit);
    assert forall x :: x in qs ==> x in [general] + Burst(general, limit - 1, [probe] + fill);
    forall i | 0 <= i < |qs| ensures qs[i].span in {s, t} && qs[i].limit == limit && qs[i].key == 1 {
      assert qs[i] in qs;
    }
  }

  /** A limit of zero lets nothing through. */
  lemma {:induction false} LocalNone(windows: map<ClientId, Window>, qs: seq<Request>, k: ClientId, length: nat, a: int)
    requires LimitsOf(qs, k, 0)
    ensures Yeses(LocalAnswers(windows, qs), qs, k, length, a) == 0
    decreases |qs|
  {
    if qs != [] {
      LocalNone(ConsumeLocal(windows, qs[0]), qs[1..], k, length, a);
    }
  }

  /** The bound holds for the requests of a span s if and only if no caller uses a shorter span (or the limit is zero):
      health probes share the key of general requests, and one of them begins a new window for all. */
  lemma QuotaHoldsIff(s: nat, t: nat, limit: nat)
    ensures QuotaHolds(s, t, limit) <==> limit == 0 || s <= t
  {
    if limit == 0 || s <= t {
      forall qs, from, k, a | Ordered(qs, from) && Spans(qs, s, t) && LimitsOf(qs, k, limit)
        ensures Yeses(LocalAnswers(map[], qs), qs, k, s, a) <= TwiceLessOne(limit)
      {
        if limit == 0 {
          LocalNone(map[], qs, k, s, a);
        } else {
          LocalFewerThanTwice(qs, k, s, limit, a, from);
        }
      }
    } else {
      RenewedIsOrdered(s, t, limit);
      RenewedGetsTwice(s, t, limit);
    }
  }

  /** The same of the SQL limiter. */
  ghost predicate SqlQuotaHolds(s: nat, t: nat, limit: nat) {
    forall ops, from, k, a {:trigger OrderedOps(ops, from), Yeses(SqlAnswers(map[], ops), Asked(ops), k, s, a)} ::
      OrderedOps(ops, from) && Spans(Asked(ops), s, t) && LimitsOf(Asked(ops), k, limit) ==>
        Yeses(SqlAnswers(map[], ops), Asked(ops), k, s, a) <= TwiceLessOne(limit)
  }

  /** The yeses of the SQL limiter, counted as they are given. */
  function SqlGot(rows: map<ClientId, Window>, ops: seq<SqlOp>, k: ClientId, length: nat, a: int): nat
    decreases |ops|
  {
    if ops == [] then 0
    else match ops[0]
      case Ask(q) =>
        var row := Upsert(Get(rows, q.key), q.span, q.now);
        (if q.key == k && a <= q.now < a + length && row.count <= q.limit then 1 else 0)
        + SqlGot(rows[q.key := row], ops[1..], k, length, a)
      case Cleanup(now) => SqlGot(Cleaned(rows, now), ops[1..], k, length, a)
  }

  lemma {:induction false} SqlGotAreYeses(rows: map<ClientId, Window>, ops: seq<SqlOp>, k: ClientId, length: nat,
      a: int)
    ensures Yeses(SqlAnswers(rows, ops), Asked(ops), k, length, a) == SqlGot(rows, ops, k, length, a)
    decreases |ops|
  {
    if ops != [] {
      var rest := ops[1..];
      match ops[0] {
        case Ask(q) =>
          assert Asked(ops)[1..] == Asked(rest);
          SqlGotAreYeses(rows[q.key := Upsert(Get(rows, q.key), q.span, q.now)], rest, k, length, a);
        case Cleanup(now) =>
          assert Asked(ops) == Asked(rest);
          SqlGotAreYeses(Cleaned(rows, now), rest, k, length, a);
      }
    }
  }

  /** n times the same request, and then the rest. */
  function AskBurst(q: Request, n: nat, rest: seq<SqlOp>): seq<SqlOp> {
    if n == 0 then rest else [Ask(q)] + AskBurst(q, n - 1, rest)
  }

  lemma {:induction false} AskBurstAdmits(w: Window, q: Request, n: nat, rest: seq<SqlOp>, length: nat, a: int)
    requires w.count + n <= q.limit && q.now - w.startedAt < q.span && a <= q.now < a + length
    ensures SqlGot(map[q.key := w], AskBurst(q, n, rest), q.key, length, a)
            == n + SqlGot(map[q.key := w.(count := w.count + n)], rest, q.key, length, a)
    decreases n
  {
    if n > 0 {
      var next, fewer := w.(count := w.count + 1), AskBurst(q, n - 1, rest);
      assert ([Ask(q)] + fewer)[1..] == fewer;
      assert map[q.key := w][q.key := next] == map[q.key := next];
      AskBurstAdmits(next, q, n - 1, rest, length, a);
    }
  }

  /** The only client fills a window. */
  lemma AskFills(rows: map<ClientId, Window>, first: Request, later: Request, n: nat, rest: seq<SqlOp>, length: nat,
      a: int)
    requires first.key == later.key && rows.Keys <= {first.key} && n + 1 <= first.limit && n + 1 <= later.limit
    requires first.key in rows ==> first.now - rows[first.key].startedAt >= first.span
    requires later.now - first.now < later.span && a <= first.now < a + length && a <= later.now < a + length
    ensures SqlGot(rows, [Ask(first)] + AskBurst(later, n, rest), first.key, length, a)
            == n + 1 + SqlGot(map[first.key := Window(first.now, n + 1)], rest, first.key, length, a)
  {
    var burst := AskBurst(later, n, rest);
    assert ([Ask(first)] + burst)[1..] == burst;
    assert rows[first.key := Window(first.now, 1)] == map[first.key := Window(first.now, 1)];
    AskBurstAdmits(Window(first.now, 1), later, n, rest, length, a);
  }

  /** A full window of span s, and at time at another one, which a request of span u begins; in between the rest of the
      operations. */
  function TwoWindows(s: nat, u: nat, at: nat, between: seq<SqlOp>, limit: nat): seq<SqlOp>
    requires limit >= 1
  {
    [Ask(Request(1, limit, s, 0))]
    + AskBurst(Request(1, limit, s, 0), limit - 1,
               between + ([Ask(Request(1, limit, u, at))] + AskBurst(Request(1, limit, s, at), limit - 1, [])))
  }

  /** Either the second window is due because its first request has the shorter span, or a clean-up has deleted the
      first one. */
  predicate SecondIsDue(u: nat, at: nat, between: seq<SqlOp>) {
    (between == [] && at >= u) || (between == [Cleanup(at)] && at >= OLDEST)
  }

  lemma TwoWindowsGetTwice(s: nat, u: nat, at: nat, between: seq<SqlOp>, limit: nat)
    requires limit >= 1 && at < s && SecondIsDue(u, at, between)
    ensures SqlGot(map[], TwoWindows(s, u, at, between, limit), 1, s, 0) == 2 * limit
  {
    var first, second, later := Request(1, limit, s, 0), Request(1, limit, u, at), Request(1, limit, s, at);
    var rest := [Ask(second)] + AskBurst(later, limit - 1, []);
    var full := map[1 := Window(0, limit)];
    AskFills(map[], first, first, limit - 1, between + rest, s, 0);
    if between == [] {
      assert between + rest == rest;
      AskFills(full, second, later, limit - 1, [], s, 0);
    } else {
      assert (between + rest)[1..] == rest && (between + rest)[0] == Cleanup(at);
      assert Cleaned(full, at) == map[];
      AskFills(map[], second, later, limit - 1, [], s, 0);
    }
  }

  predicate AllAre(qs: seq<Request>, among: set<Request>) { forall i :: 0 <= i < |qs| ==> qs[i] in among }

  lemma {:induction false} AskBurstIsOrdered(q: Request, n: nat, rest: seq<SqlOp>, among: set<Request>)
    requires OrderedOps(rest, q.now) && AllAre(Asked(rest), among) && q in among
    ensures OrderedOps(AskBurst(q, n, rest), q.now) && AllAre(Asked(AskBurst(q, n, rest)), among)
  {
    if n > 0 {
      AskBurstIsOrdered(q, n - 1, rest, among);
      assert AskBurst(q, n, rest)[1..] == AskBurst(q, n - 1, rest);
    }
  }

  lemma TwoWindowsAreOrdered(s: nat, u: nat, at: nat, between: seq<SqlOp>, limit: nat)
    requires limit >= 1 && SecondIsDue(u, at, between)
    ensures var ops := TwoWindows(s, u, at, between, limit);
            OrderedOps(ops, 0) && Spans(Asked(ops), s, u) && LimitsOf(Asked(ops), 1, limit)
  {
    var first, second, later := Request(1, limit, s, 0), Request(1, limit, u, at), Request(1, limit, s, at);
    var among, fill := {first, second, later}, AskBurst(later, limit - 1, []);
    AskBurstIsOrdered(later, limit - 1, [], among);
    AskBurstIsOrdered(second, 1, fill, among);
    var rest := [Ask(second)] + fill;
    assert AskBurst(second, 1, fill) == rest;
    if between == [] {
      assert between + rest == rest;
    } else {
      assert (between + rest)[1..] == rest;
    }
    AskBurstIsOrdered(first, limit - 1, between + rest, among);
    AskBurstIsOrdered(first, 1, AskBurst(first, limit - 1, between + rest), among);
    assert AskBurst(first, 1, AskBurst(first, limit - 1, between + rest)) == TwoWindows(s, u, at, between, limit);
  }

  lemma SqlQuotaFails(s: nat, u: nat, at: nat, between: seq<SqlOp>, t: nat, limit: nat)
    requires limit >= 1 && at < s && u in {s, t} && SecondIsDue(u, at, between)
    ensures !SqlQuotaHolds(s, t, limit)
  {
    var ops := TwoWindows(s, u, at, between, limit);
    TwoWindowsGetTwice(s, u, at, between, limit);
    TwoWindowsAreOrdered(s, u, at, between, limit);
    SqlGotAreYeses(map[], ops, 1, s, 0);
    assert OrderedOps(ops, 0) && Spans(Asked(ops), s, t);
  }

  lemma {:induction false} SqlNone(rows: map<ClientId, Window>, ops: seq<SqlOp>, k: ClientId, length: nat, a: int)
    requires LimitsOf(Asked(ops), k, 0) && forall i :: i in rows ==> rows[i].count >= 1
    ensures SqlGot(rows, ops, k, length, a) == 0
    decreases |ops|
  {
    if ops != [] {
      var rest := ops[1..];
      match ops[0] {
        case Ask(q) =>
          assert Asked(ops)[0] == q && Asked(ops)[1..] == Asked(rest);
          UpsertCharges(Get(rows, q.key), q.span, q.now);
          SqlNone(rows[q.key := Upsert(Get(rows, q.key), q.span, q.now)], rest, k, length, a);
        case Cleanup(now) =>
          assert Asked(ops) == Asked(rest);
          SqlNone(Cleaned(rows, now), rest, k, length, a);
      }
    }
  }

  /** In the SQL limiter a clean-up begins new windows too: the bound holds for the requests of a span s if and only if
      no caller uses a shorter span and s is no longer than the age from which rows are deleted (or the limit is
      zero). */
  lemma SqlQuotaHoldsIff(s: nat, t: nat, limit: nat)
    ensures SqlQuotaHolds(s, t, limit) <==> limit == 0 || (s <= t && s <= OLDEST)
  {
    if limit == 0 || (s <= t && s <= OLDEST) {
      forall ops, from, k, a | OrderedOps(ops, from) && Spans(Asked(ops), s, t) && LimitsOf(Asked(ops), k, limit)
        ensures Yeses(SqlAnswers(map[], ops), Asked(ops), k, s, a) <= TwiceLessOne(limit)
      {
        if limit == 0 {
          SqlNone(map[], ops, k, s, a);
          SqlGotAreYeses(map[], ops, k, s, a);
        } else {
          SqlFewerThanTwice(ops, k, s, limit, a, from);
        }
      }
    } else if t < s {
      SqlQuotaFails(s, t, t, [], t, limit);
    } else {
      SqlQuotaFails(s, s, OLDEST, [Cleanup(OLDEST)], t, limit);
    }
  }

  /** The default spans, with a limit of two: two general requests at 0, then a health probe and a general request,
      twice. */
  const PROBED: seq<Request> := [
    Request(1, 2, 60_000, 0), Request(1, 2, 60_000, 0), Request(1, 2, 10_000, 10_000), Request(1, 2, 60_000, 10_000),
    Request(1, 2, 10_000, 20_000), Request(1, 2, 60_000, 20_000)]

  /** All are admitted, four general requests among them in a third of their span, where 2 * limit - 1 is three. */
  lemma ProbesRenewGeneralWindows()
    ensures LocalAnswers(map[], PROBED) == [true, true, true, true, true, true]
  {
    AnsweredNext(map[], PROBED, map[1 := Window(0, 1)]);
    AnsweredNext(map[1 := Window(0, 1)], PROBED[1..], map[1 := Window(0, 2)]);
    ProbesRenewTwice();
  }

  lemma ProbesRenewTwice()
    ensures LocalAnswers(map[1 := Window(0, 2)], PROBED[1..][1..]) == [true, true, true, true]
  {
    var rest := PROBED[1..][1..];
    AnsweredNext(map[1 := Window(0, 2)], rest, map[1 := Window(10_000, 1)]);
    AnsweredNext(map[1 := Window(10_000, 1)], rest[1..], map[1 := Window(10_000, 2)]);
    AnsweredNext(map[1 := Window(10_000, 2)], rest[1..][1..], map[1 := Window(20_000, 1)]);
    AnsweredNext(map[1 := Window(20_000, 1)], rest[1..][1..][1..], map[1 := Window(20_000, 2)]);
  }

  lemma AnsweredNext(windows: map<ClientId, Window>, qs: seq<Request>, next: map<ClientId, Window>)
    requires qs != [] && Allowed(windows, qs[0]) && Consume(windows, qs[0]) == next && |next| <= MAX_ENTRIES
    ensures LocalAnswers(windows, qs) == [true] + LocalAnswers(next, qs[1..])
  {
  }

  // ---------- at least the limit ----------

  /** How many requests of key k came after the given time. */
  function Since(qs: seq<Request>, k: ClientId, time: int): nat
    decreases |qs|
  {
    if qs == [] then 0 else (if qs[0].key == k && qs[0].now > time then 1 else 0) + Since(qs[1..], k, time)
  }

  /** What a window that began after the given time has counted. */
  function Weight(w: Option<Window>, time: int): nat {
    if w.Some? && w.value.startedAt > time then w.value.count else 0
  }

  predicate Begun(w: Option<Window>, now: int) { w.Some? ==> w.value.startedAt <= now }

  /** A request, with whatever span, adds to the weight at most itself; a window that is forgotten adds nothing. */
  lemma WeightGrowsByOne(before: Option<Window>, q: Request, time: int)
    requires Begun(before, q.now)
    ensures var charged := Charge(before, q.span, q.now);
            && Begun(Some(charged), q.now)
            && Weight(Some(charged), time) <= Weight(before, time) + (if q.now > time then 1 else 0)
  {
  }

  lemma LightIsAdmitted(w: Option<Window>, q: Request)
    requires Weight(w, q.now - q.span) < q.limit
    ensures Charge(w, q.span, q.now).count <= q.limit
  {
  }

  /** What the window has counted within q's span, and the requests of q's key still to come before q, stay below q's
      limit. */
  predicate Light(w: Option<Window>, qs: seq<Request>, q: Request) {
    Weight(w, q.now - q.span) + Since(qs, q.key, q.now - q.span) < q.limit
  }

  lemma LightStays(w: Option<Window>, r: Request, qs: seq<Request>, q: Request)
    requires Light(w, [r] + qs, q) && Begun(w, r.now)
    ensures Light(if r.key == q.key then Some(Charge(w, r.span, r.now)) else w, qs, q)
    ensures Begun(if r.key == q.key then Some(Charge(w, r.span, r.now)) else w, r.now)
  {
    assert ([r] + qs)[1..] == qs;
    if r.key == q.key {
      WeightGrowsByOne(w, r, q.now - q.span);
    }
  }

  lemma {:induction false} PlainAdmits(windows: map<ClientId, Window>, qs: seq<Request>, q: Request, from: int)
    requires Ordered(qs + [q], from) && Begun(Get(windows, q.key), from) && Light(Get(windows, q.key), qs, q)
    ensures PlainAnswers(windows, qs + [q])[|qs|]
    decreases |qs|
  {
    var all := qs + [q];
    if qs == [] {
      LightIsAdmitted(Get(windows, q.key), q);
    } else {
      assert all[1..] == qs[1..] + [q];
      assert [qs[0]] + qs[1..] == qs;
      LightStays(Get(windows, q.key), qs[0], qs[1..], q);
      PlainAdmits(Consume(windows, qs[0]), qs[1..], q, qs[0].now);
    }
  }

  lemma {:induction false} LocalAdmits(windows: map<ClientId, Window>, qs: seq<Request>, q: Request, from: int)
    requires Ordered(qs + [q], from) && Begun(Get(windows, q.key), from) && Light(Get(windows, q.key), qs, q)
    ensures LocalAnswers(windows, qs + [q])[|qs|]
    decreases |qs|
  {
    var all := qs + [q];
    if qs == [] {
      LightIsAdmitted(Get(windows, q.key), q);
    } else {
      assert all[1..] == qs[1..] + [q];
      assert [qs[0]] + qs[1..] == qs;
      LightStays(Get(windows, q.key), qs[0], qs[1..], q);
      LocalAdmits(ConsumeLocal(windows, qs[0]), qs[1..], q, qs[0].now);
    }
  }

  predicate LastYes(answers: seq<bool>) { answers != [] && answers[|answers|-1] }

  lemma SqlAsk(rows: map<ClientId, Window>, ops: seq<SqlOp>)
    requires ops != [] && ops[0].Ask?
    ensures var q := ops[0].request;
            var row := Charge(Get(rows, q.key), q.span, q.now);
            && SqlAnswers(rows, ops) == [row.count <= q.limit] + SqlAnswers(rows[q.key := row], ops[1..])
            && Asked(ops) == [q] + Asked(ops[1..])
  {
    UpsertCharges(Get(rows, ops[0].request.key), ops[0].request.span, ops[0].request.now);
  }

  lemma {:induction false} SqlAdmits(rows: map<ClientId, Window>, ops: seq<SqlOp>, q: Request, from: int)
    requires OrderedOps(ops + [Ask(q)], from) && Begun(Get(rows, q.key), from) && Light(Get(rows, q.key), Asked(ops), q)
    ensures LastYes(SqlAnswers(rows, ops + [Ask(q)]))
    decreases |ops|
  {
    var all := ops + [Ask(q)];
    if ops == [] {
      SqlAsk(rows, all);
      assert all[1..] == [];
      LightIsAdmitted(Get(rows, q.key), q);
    } else {
      assert all[1..] == ops[1..] + [Ask(q)];
      match ops[0] {
        case Ask(r) =>
          SqlAsk(rows, ops);
          SqlAsk(rows, all);
          LightStays(Get(rows, q.key), r, Asked(ops[1..]), q);
          SqlAdmits(rows[r.key := Charge(Get(rows, r.key), r.span, r.now)], ops[1..], q, r.now);
        case Cleanup(now) => SqlAdmitsCleaned(rows, now, ops, q, from);
      }
    }
  }

  lemma {:induction false} SqlAdmitsCleaned(rows: map<ClientId, Window>, now: int, ops: seq<SqlOp>, q: Request,
      from: int)
    requires ops != [] && ops[0] == Cleanup(now) && OrderedOps(ops + [Ask(q)], from)
    requires Begun(Get(rows, q.key), from) && Light(Get(rows, q.key), Asked(ops), q)
    ensures LastYes(SqlAnswers(rows, ops + [Ask(q)]))
    decreases |ops|, 0
  {
    var all := ops + [Ask(q)];
    assert all[1..] == ops[1..] + [Ask(q)];
    assert Asked(ops) == Asked(ops[1..]);
    assert SqlAnswers(rows, all) == SqlAnswers(Cleaned(rows, now), all[1..]);
    SqlAdmits(Cleaned(rows, now), ops[1..], q, now);
  }

  /** A request gets through whenever fewer requests of its key than its limit came within its span before it, whatever
      the spans and limits of the others: in the plain limiter, and in process with its evictions. */
  lemma FewGetThrough(qs: seq<Request>, q: Request, from: int)
    requires Ordered(qs + [q], from) && Since(qs, q.key, q.now - q.span) < q.limit
    ensures LastYes(PlainAnswers(map[], qs + [q])) && LastYes(LocalAnswers(map[], qs + [q]))
  {
    PlainAdmits(map[], qs, q, from);
    LocalAdmits(map[], qs, q, from);
  }

  /** The same in SQL, wherever clean-ups fall. */
  lemma SqlFewGetThrough(ops: seq<SqlOp>, q: Request, from: int)
    requires OrderedOps(ops + [Ask(q)], from) && Since(Asked(ops), q.key, q.now - q.span) < q.limit
    ensures LastYes(SqlAnswers(map[], ops + [Ask(q)]))
  {
    SqlAdmits(map[], ops, q, from);
  }
}
