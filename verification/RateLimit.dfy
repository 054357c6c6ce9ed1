/** The fixed-window rate limiter (backend/src/rate_limit.js): the in-process map with its eviction loop, the SQL upsert
    with its periodic clean-up, and a plain limiter that forgets nothing, which both are compared with. */
module RateLimit {
  import opened Options

  type ClientId = nat

  datatype Window = Window(startedAt: int, count: nat)
  datatype Request = Request(key: ClientId, limit: nat, span: nat, now: int)

  const MAX_ENTRIES: nat := 10_000
  const CLEANUP_AGE: nat := 600_000

  /** The age, in whole milliseconds, from which the clean-up deletes a row. */
  const OLDEST: nat := CLEANUP_AGE + 1

  /** Count one request: a window that is over starts again. */
  function Charge(current: Option<Window>, span: nat, now: int): (w: Window)
    ensures w.count >= 1
  {
    if current.None? || now - current.value.startedAt >= span then Window(now, 1)
    else Window(current.value.startedAt, current.value.count + 1)
  }

  // ---------- three limiters ----------

  /** The plain limiter. */
  function Consume(windows: map<ClientId, Window>, q: Request): map<ClientId, Window> {
    windows[q.key := Charge(Get(windows, q.key), q.span, q.now)]
  }

  /** The loop at the end of consumeLocal: entries that are over by the caller's span go. */
  function Evict(windows: map<ClientId, Window>, span: nat, now: int): map<ClientId, Window> {
    map k | k in windows && now - windows[k].startedAt < span :: windows[k]
  }

  function ConsumeLocal(windows: map<ClientId, Window>, q: Request): map<ClientId, Window> {
    var charged := Consume(windows, q);
    if |charged| > MAX_ENTRIES then Evict(charged, q.span, q.now) else charged
  }

  function Allowed(windows: map<ClientId, Window>, q: Request): bool {
    Charge(Get(windows, q.key), q.span, q.now).count <= q.limit
  }

  /** The row the upsert writes: start and count are each decided by whether the stored window is over. */
  function Upsert(row: Option<Window>, span: nat, now: int): Window {
    if row.None? then Window(now, 1)
    else Window(if row.value.startedAt <= now - span then now else row.value.startedAt,
                if row.value.startedAt <= now - span then 1 else row.value.count + 1)
  }

  datatype SqlOp = Ask(request: Request) | Cleanup(now: int)

  function Cleaned(rows: map<ClientId, Window>, now: int): map<ClientId, Window> {
    map k | k in rows && rows[k].startedAt >= now - CLEANUP_AGE :: rows[k]
  }

  // ---------- answers to a sequence of requests ----------

  function PlainAnswers(windows: map<ClientId, Window>, qs: seq<Request>): (answers: seq<bool>)
    ensures |answers| == |qs|
    decreases |qs|
  {
    if qs == [] then [] else [Allowed(windows, qs[0])] + PlainAnswers(Consume(windows, qs[0]), qs[1..])
  }

  function LocalAnswers(windows: map<ClientId, Window>, qs: seq<Request>): (answers: seq<bool>)
    ensures |answers| == |qs|
    decreases |qs|
  {
    if qs == [] then [] else [Allowed(windows, qs[0])] + LocalAnswers(ConsumeLocal(windows, qs[0]), qs[1..])
  }

  function SqlAnswers(rows: map<ClientId, Window>, ops: seq<SqlOp>): (answers: seq<bool>)
    ensures |answers| == |Asked(ops)|
    decreases |ops|
  {
    if ops == [] then []
    else match ops[0]
      case Ask(q) =>
        var row := Upsert(Get(rows, q.key), q.span, q.now);
        [row.count <= q.limit] + SqlAnswers(rows[q.key := row], ops[1..])
      case Cleanup(now) => SqlAnswers(Cleaned(rows, now), ops[1..])
  }

  function Asked(ops: seq<SqlOp>): seq<Request> {
    if ops == [] then [] else (if ops[0].Ask? then [ops[0].request] else []) + Asked(ops[1..])
  }

  /** The clock never goes back. */
  predicate Ordered(qs: seq<Request>, from: int) {
    qs == [] || (from <= qs[0].now && Ordered(qs[1..], qs[0].now))
  }

  function Time(op: SqlOp): int { match op case Ask(q) => q.now case Cleanup(now) => now }

  predicate OrderedOps(ops: seq<SqlOp>, from: int) {
    ops == [] || (from <= Time(ops[0]) && OrderedOps(ops[1..], Time(ops[0])))
  }

  // ---------- what forgetting a window changes ----------

  /** Forgetting a window changes the answer to a request of its key if and only if the window is not over by the span
      of the request and the limit is at least one and already used up. */
  lemma ForgottenAnswer(w: Window, r: Request)
    requires w.count >= 1
    ensures (Charge(None, r.span, r.now).count <= r.limit) != (Charge(Some(w), r.span, r.now).count <= r.limit)
            <==> r.now - w.startedAt < r.span && 1 <= r.limit <= w.count
  {
  }

  /** few has lost only windows that are over for every span up to the given one. */
  predicate Forgets(few: map<ClientId, Window>, all: map<ClientId, Window>, span: nat, now: int) {
    && (forall k :: k in few ==> k in all && few[k] == all[k])
    && (forall k :: k in all && k !in few ==> now - all[k].startedAt >= span)
  }

  lemma SameCharge(few: map<ClientId, Window>, all: map<ClientId, Window>, most: nat, q: Request, from: int)
    requires Forgets(few, all, most, from) && q.span <= most && from <= q.now
    ensures Charge(Get(few, q.key), q.span, q.now) == Charge(Get(all, q.key), q.span, q.now)
    ensures Forgets(few[q.key := Charge(Get(few, q.key), q.span, q.now)], Consume(all, q), most, q.now)
  {
  }

  // ---------- the eviction ----------

  /** The next answer to a key that q's call evicts is another one if and only if the evicted window is live and used
      up. */
  lemma EvictionVisibleIff(windows: map<ClientId, Window>, q: Request, r: Request)
    requires r.key in windows && r.key != q.key && windows[r.key].count >= 1
    requires |Consume(windows, q)| > MAX_ENTRIES && q.now - windows[r.key].startedAt >= q.span
    ensures Allowed(ConsumeLocal(windows, q), r) != Allowed(Consume(windows, q), r)
            <==> r.now - windows[r.key].startedAt < r.span && 1 <= r.limit <= windows[r.key].count
  {
    ForgottenAnswer(windows[r.key], r);
  }

  /** Every request uses one of two spans. */
  predicate Spans(qs: seq<Request>, s: nat, t: nat) { forall i :: 0 <= i < |qs| ==> qs[i].span in {s, t} }

  lemma {:induction false} EvictionStaysInvisible(few: map<ClientId, Window>, all: map<ClientId, Window>,
      qs: seq<Request>, span: nat, from: int)
    requires Forgets(few, all, span, from) && Spans(qs, span, span) && Ordered(qs, from)
    ensures LocalAnswers(few, qs) == PlainAnswers(all, qs)
    decreases |qs|
  {
    if qs != [] {
      var q := qs[0];
      SameCharge(few, all, span, q, from);
      assert q.span == span;
      assert Forgets(ConsumeLocal(few, q), Consume(all, q), span, q.now);
      EvictionStaysInvisible(ConsumeLocal(few, q), Consume(all, q), qs[1..], span, q.now);
    }
  }

  /** With the two spans no sequence of requests gets other answers than a limiter that forgets nothing would give. */
  ghost predicate EvictionInvisible(s: nat, t: nat) {
    forall qs, from {:trigger Ordered(qs, from)} :: Ordered(qs, from) && Spans(qs, s, t) ==>
        LocalAnswers(map[], qs) == PlainAnswers(map[], qs)
  }

  /** Clients i, i + 1, ... ask once each at time t with span t; then client 0, limited to one request per s, asks
      again. */
  function Crowd(i: nat, s: nat, t: nat): seq<Request>
    decreases MAX_ENTRIES + 1 - i
  {
    if i > MAX_ENTRIES then [Request(0, 1, s, t)] else [Request(i, 1, t, t)] + Crowd(i + 1, s, t)
  }

  lemma {:induction false} CrowdIsOrdered(i: nat, s: nat, t: nat)
    ensures Ordered(Crowd(i, s, t), t) && Spans(Crowd(i, s, t), s, t)
    decreases MAX_ENTRIES + 1 - i
  {
    if i <= MAX_ENTRIES {
      CrowdIsOrdered(i + 1, s, t);
      assert Crowd(i, s, t)[1..] == Crowd(i + 1, s, t);
    }
  }

  /** Client 0 has asked at time 0, the other clients below n at time t. */
  function Filled(n: nat, t: nat): (windows: map<ClientId, Window>)
    ensures |windows| == n && forall k: ClientId :: k in windows <==> k < n
    ensures n > 0 ==> windows[0] == Window(0, 1)
  {
    if n == 0 then map[]
    else
      var fewer := Filled(n - 1, t);
      fewer[n - 1 := if n == 1 then Window(0, 1) else Window(t, 1)]
  }

  predicate EndsDifferently(local: seq<bool>, plain: seq<bool>) {
    local != [] && plain != [] && local[|local|-1] && !plain[|plain|-1]
  }

  lemma {:induction false} CrowdEvicts(i: nat, s: nat, t: nat)
    requires 1 <= i <= MAX_ENTRIES && t < s
    ensures EndsDifferently(LocalAnswers(Filled(i, t), Crowd(i, s, t)), PlainAnswers(Filled(i, t), Crowd(i, s, t)))
    decreases MAX_ENTRIES - i
  {
    var q := Request(i, 1, t, t);
    var all := Filled(i + 1, t);
    assert Consume(Filled(i, t), q) == all;
    assert Crowd(i, s, t)[1..] == Crowd(i + 1, s, t);
    if i < MAX_ENTRIES {
      CrowdEvicts(i + 1, s, t);
    } else {
      LastOfCrowd(Evict(all, t, t), all, s, t);
    }
  }

  lemma LastOfCrowd(few: map<ClientId, Window>, all: map<ClientId, Window>, s: nat, t: nat)
    requires t < s && 0 !in few && 0 in all && all[0] == Window(0, 1)
    ensures LocalAnswers(few, [Request(0, 1, s, t)]) == [true] && PlainAnswers(all, [Request(0, 1, s, t)]) == [false]
  {
    var last := Request(0, 1, s, t);
    assert [last][1..] == [];
    assert LocalAnswers(few, [last]) == [Allowed(few, last)] + LocalAnswers(ConsumeLocal(few, last), []);
  }

  function CrowdRun(s: nat, t: nat): seq<Request> { [Request(0, 1, s, 0)] + Crowd(1, s, t) }

  /** Ten thousand callers with a shorter span evict a live window, and a client that the plain limiter refuses is
      admitted. With the default spans of general requests and health probes, s is 60 seconds and t is 10 seconds. */
  lemma CrowdForgives(s: nat, t: nat)
    requires t < s
    ensures Ordered(CrowdRun(s, t), 0) && Spans(CrowdRun(s, t), s, t)
    ensures EndsDifferently(LocalAnswers(map[], CrowdRun(s, t)), PlainAnswers(map[], CrowdRun(s, t)))
  {
    var first, rest := Request(0, 1, s, 0), Crowd(1, s, t);
    CrowdIsOrdered(1, s, t);
    CrowdEvicts(1, s, t);
    assert Consume(map[], first) == Filled(1, t);
    OneMore(first, rest, Filled(1, t));
  }

  /** An answer to one request before others. */
  lemma OneMore(q: Request, qs: seq<Request>, windows: map<ClientId, Window>)
    requires ConsumeLocal(map[], q) == windows && Consume(map[], q) == windows
    ensures LocalAnswers(map[], [q] + qs) == [Allowed(map[], q)] + LocalAnswers(windows, qs)
    ensures PlainAnswers(map[], [q] + qs) == [Allowed(map[], q)] + PlainAnswers(windows, qs)
    ensures forall from: int :: Ordered([q] + qs, from) <==> from <= q.now && Ordered(qs, q.now)
  {
    assert ([q] + qs)[1..] == qs;
  }

  /** The eviction above 10000 entries never changes an answer if and only if all callers share a span. */
  lemma EvictionInvisibleIff(s: nat, t: nat)
    ensures EvictionInvisible(s, t) <==> s == t
  {
    if s == t {
      forall qs, from | Ordered(qs, from) && Spans(qs, s, t)
        ensures LocalAnswers(map[], qs) == PlainAnswers(map[], qs) {
        EvictionStaysInvisible(map[], map[], qs, s, from);
      }
    } else {
      var longer, shorter := if s < t then t else s, if s < t then s else t;
      CrowdForgives(longer, shorter);
      assert Spans(CrowdRun(longer, shorter), s, t);
    }
  }

  // ---------- the SQL form ----------

  lemma UpsertCharges(row: Option<Window>, span: nat, now: int)
    ensures Upsert(row, span, now) == Charge(row, span, now)
  {
  }

  predicate SpansUpTo(ops: seq<SqlOp>, most: nat) {
    forall i :: 0 <= i < |ops| && ops[i].Ask? ==> ops[i].request.span <= most
  }

  lemma {:induction false} CleanupStaysInvisible(few: map<ClientId, Window>, all: map<ClientId, Window>,
      ops: seq<SqlOp>, from: int)
    requires Forgets(few, all, OLDEST, from) && SpansUpTo(ops, OLDEST) && OrderedOps(ops, from)
    ensures SqlAnswers(few, ops) == PlainAnswers(all, Asked(ops))
    decreases |ops|
  {
    if ops != [] {
      match ops[0] {
        case Ask(q) =>
          UpsertCharges(Get(few, q.key), q.span, q.now);
          assert q.span <= OLDEST;
          SameCharge(few, all, OLDEST, q, from);
          var row := Upsert(Get(few, q.key), q.span, q.now);
          CleanupStaysInvisible(few[q.key := row], Consume(all, q), ops[1..], q.now);
          assert Asked(ops) == [q] + Asked(ops[1..]);
          assert Asked(ops)[1..] == Asked(ops[1..]);
        case Cleanup(now) =>
          assert Forgets(Cleaned(few, now), all, OLDEST, now);
          CleanupStaysInvisible(Cleaned(few, now), all, ops[1..], now);
          assert Asked(ops) == Asked(ops[1..]);
      }
    }
  }

  /** The next answer to a key whose row a clean-up deletes is another one if and only if the deleted window is live and
      used up. */
  lemma CleanupVisibleIff(rows: map<ClientId, Window>, now: int, r: Request)
    requires r.key in rows && rows[r.key].count >= 1 && rows[r.key].startedAt < now - CLEANUP_AGE
    ensures (Upsert(Get(Cleaned(rows, now), r.key), r.span, r.now).count <= r.limit)
            != (Upsert(Get(rows, r.key), r.span, r.now).count <= r.limit)
            <==> r.now - rows[r.key].startedAt < r.span && 1 <= r.limit <= rows[r.key].count
  {
    UpsertCharges(Get(rows, r.key), r.span, r.now);
    ForgottenAnswer(rows[r.key], r);
  }

  /** With spans up to the given one the upsert and its clean-ups answer every sequence like a limiter that forgets
      nothing. */
  ghost predicate CleanupInvisible(most: nat) {
    forall ops, from :: OrderedOps(ops, from) && SpansUpTo(ops, most) ==>
        SqlAnswers(map[], ops) == PlainAnswers(map[], Asked(ops))
  }

  function ForgivenRun(span: nat): seq<SqlOp> {
    [Ask(Request(1, 1, span, 0)), Cleanup(OLDEST), Ask(Request(1, 1, span, OLDEST))]
  }

  /** With a longer span, one hour say, a client limited to one request gets two. */
  lemma CleanupCanForgive(span: nat)
    requires span > OLDEST
    ensures SqlAnswers(map[], ForgivenRun(span)) == [true, true]
            && PlainAnswers(map[], Asked(ForgivenRun(span))) == [true, false]
  {
    var a, b := Request(1, 1, span, 0), Request(1, 1, span, OLDEST);
    var ops := ForgivenRun(span);
    var rows := map[1 := Window(0, 1)];
    assert ops[1..] == [Cleanup(OLDEST), Ask(b)] && ops[1..][1..] == [Ask(b)] && [Ask(b)][1..] == [];
    assert map[][1 := Upsert(None, span, 0)] == rows;
    assert Cleaned(rows, OLDEST) == map[];
    assert SqlAnswers(map[], [Ask(b)]) == [true] + SqlAnswers(map[1 := Window(OLDEST, 1)], []);
    assert SqlAnswers(rows, ops[1..]) == SqlAnswers(map[], [Ask(b)]);
    assert Asked([Ask(b)]) == [b] + Asked([]);
    assert Asked(ops[1..]) == [] + Asked([Ask(b)]);
    assert Asked(ops) == [a, b];
    assert [a, b][1..] == [b] && [b][1..] == [];
    assert Consume(map[], a) == rows;
    assert PlainAnswers(rows, [b]) == [false] + PlainAnswers(Consume(rows, b), []);
  }

  /** The clean-ups never change an answer, wherever they fall, if and only if no span is longer than the age they
      delete from. */
  lemma CleanupInvisibleIff(most: nat)
    ensures CleanupInvisible(most) <==> most <= OLDEST
  {
    if most <= OLDEST {
      forall ops, from | OrderedOps(ops, from) && SpansUpTo(ops, most)
        ensures SqlAnswers(map[], ops) == PlainAnswers(map[], Asked(ops))
      {
        CleanupStaysInvisible(map[], map[], ops, from);
      }
    } else {
      var ops := ForgivenRun(most);
      CleanupCanForgive(most);
      assert ops[1..][1..] == [ops[2]] && ops[1..][1..][1..] == [];
      assert OrderedOps(ops[1..][1..], OLDEST) && OrderedOps(ops[1..], 0) && OrderedOps(ops, 0);
      assert SpansUpTo(ops, most);
    }
  }

  // ---------- the limiter as it runs ----------

  class LocalLimiter {
    var localWindows: map<ClientId, Window>

    constructor ()
      ensures localWindows == map[]
    {
      localWindows := map[];
    }

    method Admit(q: Request) returns (allowed: bool)
      modifies this
      ensures localWindows == ConsumeLocal(old(localWindows), q) && allowed == Allowed(old(localWindows), q)
    {
      var current := if q.key in localWindows then localWindows[q.key] else Window(q.now, 0);
      if q.now - current.startedAt >= q.span {
        current := Window(q.now, 0);
      }
      current := current.(count := current.count + 1);
      localWindows := localWindows[q.key := current];
      if |localWindows| > MAX_ENTRIES {
        DeleteExpired(q.span, q.now);
      }
      allowed := current.count <= q.limit;
    }

    method DeleteExpired(span: nat, now: int)
      modifies this
      ensures localWindows == Evict(old(localWindows), span, now)
    {
      var rest := localWindows.Keys;
      while rest != {}
        invariant rest <= localWindows.Keys <= old(localWindows.Keys)
        invariant forall k :: k in localWindows ==> localWindows[k] == old(localWindows)[k]
        invariant forall k :: k in old(localWindows) && k !in rest ==>
                    (k in localWindows <==> now - old(localWindows)[k].startedAt < span)
        decreases rest
      {
        var k :| k in rest;
        rest := rest - {k};
        if now - localWindows[k].startedAt >= span {
          localWindows := localWindows - {k};
        }
      }
    }
  }
}
