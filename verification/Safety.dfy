/** What the invariant means for money: theorems over every run from the empty database. */
module Safety {
  import opened Options
  import opened Money
  import opened Schema
  import opened Transactions
  import opened Protocol
  import opened Outcomes
  import opened Ledger
  import opened Invariant
  import opened Preservation
  import opened Evolution
  import opened Reachability

  // ---------- the ledger ----------

  /** Cash, escrow, payable and revenue of a payment as its status alone determines them (debits minus credits). */
  function ExpectedBalance(pay: Payment, account: Account): int {
    match (pay.status, account)
    case (Refunded, _) => 0
    case (Released, PlatformCash) => pay.fees.platformFee
    case (Released, PlatformFeeRevenue) => -(pay.fees.platformFee as int)
    case (Released, _) => 0
    case (_, PlatformCash) => pay.fees.charge
    case (_, EscrowLiability) => -(pay.fees.payout as int)
    case (_, PlatformFeeRevenue) => -(pay.fees.platformFee as int)
    case (_, UserPayable) => 0
  }

  function LineBalance(line: Line, account: Account): int {
    if line.account == account then line.debit - line.credit else 0
  }

  lemma BalanceOfTwo(journal: nat, reference: Reference, p: PaymentId, a: Line, b: Line, account: Account)
    ensures Balance(Rows(journal, reference, p, [a, b]), account) == LineBalance(a, account) + LineBalance(b, account)
  {
    var rows := Rows(journal, reference, p, [a, b]);
    assert rows == [rows[0]] + [rows[1]];
    BalanceAppend([rows[0]], [rows[1]], account);
    assert forall e: Entry :: Balance([e], account) == Balance([], account) + LineBalance(e.line, account);
  }

  lemma BalanceOfThree(journal: nat, reference: Reference, p: PaymentId, a: Line, b: Line, c: Line, account: Account)
    ensures Balance(Rows(journal, reference, p, [a, b, c]), account)
            == LineBalance(a, account) + LineBalance(b, account) + LineBalance(c, account)
  {
    var rows := Rows(journal, reference, p, [a, b, c]);
    assert rows == Rows(journal, reference, p, [a, b]) + [rows[2]];
    BalanceAppend(Rows(journal, reference, p, [a, b]), [rows[2]], account);
    BalanceOfTwo(journal, reference, p, a, b, account);
    assert Balance([rows[2]], account) == Balance([], account) + LineBalance(c, account);
  }

  lemma RowsGiveBalance(p: PaymentId, pay: Payment, rows: seq<Entry>, account: Account)
    requires RowsFollowStatus(p, pay, rows) && FeesOk(pay.fees)
    ensures Balance(rows, account) == ExpectedBalance(pay, account)
  {
    var f := pay.fees;
    var funding, rest := rows[..3], rows[3..];
    assert rows == funding + rest;
    BalanceAppend(funding, rest, account);
    BalanceOfThree(funding[0].journal, PaymentFund, p, FundingLines(f)[0], FundingLines(f)[1], FundingLines(f)[2],
                   account);
    match pay.status {
      case Released =>
        var a, b := rest[..2], rest[2..];
        assert rest == a + b;
        BalanceAppend(a, b, account);
        BalanceOfTwo(rest[0].journal, rest[0].reference, p, ReleaseLines(f)[0], ReleaseLines(f)[1], account);
        BalanceOfTwo(rest[2].journal, rest[2].reference, p, PayoutLines(f)[0], PayoutLines(f)[1], account);
      case Refunded =>
        BalanceOfThree(rest[0].journal, rest[0].reference, p, RefundLines(f)[0], RefundLines(f)[1], RefundLines(f)[2],
                       account);
      case _ =>
        assert rest == [];
    }
  }

  /** In every reachable state the four balances of every payment are a function of its status. */
  lemma LedgerFollowsStatus(steps: seq<Step>, p: PaymentId, account: Account)
    requires p in Run(INITIAL, steps).db.payments
    ensures var db := Run(INITIAL, steps).db;
            Balance(EntriesOf(db.ledger, p), account) == ExpectedBalance(db.payments[p], account)
  {
    var db := Run(INITIAL, steps).db;
    ReachableWorldOk(steps);
    ViewAt(db, p);
    RowsGiveBalance(p, db.payments[p], ViewOf(db, p).rows, account);
  }

  /** Every journal id of the ledger balances, whoever posted it and however steps interleave. */
  lemma EveryJournalBalances(steps: seq<Step>, journal: nat)
    ensures JournalNet(Run(INITIAL, steps).db.ledger, journal) == 0
  {
    ReachableWorldOk(steps);
  }

  /** A payment has one funding journal, and after it either nothing, one release with its payout, or one refund, never
      two of them; a settlement exists exactly when it is released, for the payout. */
  lemma OneFundingOneEnding(steps: seq<Step>, p: PaymentId)
    requires p in Run(INITIAL, steps).db.payments
    ensures var db := Run(INITIAL, steps).db;
            var pay := db.payments[p];
            var rows := EntriesOf(db.ledger, p);
            && |rows| >= 3 && FundingRows(p, pay.fees, rows[..3])
            && (pay.status == Released <==> ReleaseRows(p, pay.fees, rows[3..]))
            && (pay.status == PaymentStatus.Refunded <==> RefundRows(p, pay.fees, rows[3..]))
            && (pay.status !in {Released, PaymentStatus.Refunded} <==> |rows| == 3)
            && (p in db.settlements <==> pay.status == Released)
            && (p in db.settlements ==> db.settlements[p].amount == pay.fees.payout)
  {
    ReachableWorldOk(steps);
    ViewAt(Run(INITIAL, steps).db, p);
  }

  // ---------- what later steps keep ----------

  predicate SameDeal(a: Payment, b: Payment) {
    b == a.(status := b.status, ref := b.ref, key := b.key)
  }

  /** Once the hold has been confirmed the provider reference is final, and a key is final once it is set. */
  predicate Final(a: Payment, b: Payment) {
    && SameDeal(a, b)
    && (a.status !in {HoldPending, HoldFailed} ==>
         b.ref == a.ref && b.key == a.key && b.status !in {HoldPending, HoldFailed})
    && (a.key != NoKey ==> b.key == a.key)
    && (a.status in {Released, PaymentStatus.Refunded} ==> b == a)
  }

  lemma {:induction false} RunKeepsPayment(w: World, steps: seq<Step>, p: PaymentId)
    requires p in w.db.payments
    ensures p in Run(w, steps).db.payments && Final(w.db.payments[p], Run(w, steps).db.payments[p])
  {
    if steps != [] {
      var mid := Run(w, steps[..|steps|-1]);
      RunKeepsPayment(w, steps[..|steps|-1], p);
      NextKeepsFinal(mid, steps[|steps|-1], p);
    }
  }

  lemma GrownIsFinal(db: Db, next: Db, p: PaymentId)
    requires Grows(db, next) && p in db.payments
    ensures p in next.payments && Final(db.payments[p], next.payments[p])
  {
  }

  lemma NextKeepsFinal(w: World, s: Step, p: PaymentId)
    requires p in w.db.payments
    ensures p in Next(w, s).db.payments && Final(w.db.payments[p], Next(w, s).db.payments[p])
  {
    if Enabled(w, s) {
      NextGrows(w.db, s);
      GrownIsFinal(w.db, NextDb(w.db, s), p);
    }
  }

  lemma {:induction false} RunKeepsLedger(w: World, steps: seq<Step>)
    ensures |w.db.ledger| <= |Run(w, steps).db.ledger| && Run(w, steps).db.ledger[..|w.db.ledger|] == w.db.ledger
  {
    if steps != [] {
      var mid := Run(w, steps[..|steps|-1]);
      RunKeepsLedger(w, steps[..|steps|-1]);
      NextGrows(mid.db, steps[|steps|-1]);
      PrefixChain(w.db.ledger, mid.db.ledger, Run(w, steps).db.ledger);
    }
  }

  lemma PrefixChain<T>(a: seq<T>, b: seq<T>, c: seq<T>)
    requires |a| <= |b| && b[..|a|] == a && |b| <= |c| && c[..|b|] == b
    ensures c[..|a|] == a
  {
    assert c[..|a|] == c[..|b|][..|a|];
  }

  lemma NextKeepsSettlement(w: World, s: Step, p: PaymentId)
    requires WorldOk(w) && p in w.db.payments && p in w.db.settlements
    ensures p in Next(w, s).db.settlements && Next(w, s).db.settlements[p] == w.db.settlements[p]
  {
    if Enabled(w, s) {
      NextGrows(w.db, s);
      SettledIsReleased(w.db, p);
      GrownSettlement(w.db, NextDb(w.db, s), p);
    }
  }

  lemma GrownSettlement(db: Db, next: Db, p: PaymentId)
    requires Grows(db, next) && p in db.payments && p in db.settlements && db.payments[p].status == Released
    ensures p in next.settlements && next.settlements[p] == db.settlements[p]
  {
  }

  lemma SettledIsReleased(db: Db, p: PaymentId)
    requires Core(db) && p in db.payments && p in db.settlements
    ensures db.payments[p].status == Released
  {
    ViewAt(db, p);
    assert ViewOf(db, p).settlement == Some(db.settlements[p]);
  }

  lemma {:induction false} RunKeepsSettlement(w: World, more: seq<Step>, p: PaymentId)
    requires WorldOk(w) && p in w.db.payments && p in w.db.settlements
    ensures p in Run(w, more).db.settlements && Run(w, more).db.settlements[p] == w.db.settlements[p]
  {
    if more != [] {
      var front := more[..|more|-1];
      RunKeepsSettlement(w, front, p);
      RunKeepsWorld(w, front);
      RunKeepsPayment(w, front, p);
      NextKeepsSettlement(Run(w, front), more[|more|-1], p);
    }
  }

  /** Once a settlement is there, its whole row is the same after any continuation. */
  lemma SettlementIsFinal(steps: seq<Step>, more: seq<Step>, p: PaymentId)
    requires p in Run(INITIAL, steps).db.payments && p in Run(INITIAL, steps).db.settlements
    ensures Get(Run(INITIAL, steps + more).db.settlements, p) == Some(Run(INITIAL, steps).db.settlements[p])
  {
    ReachableWorldOk(steps);
    RunConcat(INITIAL, steps, more);
    RunKeepsSettlement(Run(INITIAL, steps), more, p);
  }

  /** Released and Refunded are absorbing: after any continuation the payment row, its ledger rows and its settlement
      are the same. */
  lemma TerminalIsFinal(steps: seq<Step>, more: seq<Step>, p: PaymentId)
    requires p in Run(INITIAL, steps).db.payments
    requires Run(INITIAL, steps).db.payments[p].status in {Released, PaymentStatus.Refunded}
    ensures var before, after := Run(INITIAL, steps).db, Run(INITIAL, steps + more).db;
            && Get(after.payments, p) == Some(before.payments[p])
            && EntriesOf(after.ledger, p) == EntriesOf(before.ledger, p)
            && Get(after.settlements, p) == Get(before.settlements, p)
  {
    var before, after := Run(INITIAL, steps).db, Run(INITIAL, steps + more).db;
    RunConcat(INITIAL, steps, more);
    RunKeepsPayment(Run(INITIAL, steps), more, p);
    RunKeepsLedger(Run(INITIAL, steps), more);
    if p in before.settlements {
      SettlementIsFinal(steps, more, p);
    }
    OneFundingOneEnding(steps, p);
    OneFundingOneEnding(steps + more, p);
    var tail := after.ledger[|before.ledger|..];
    assert after.ledger == before.ledger + tail;
    EntriesOfAppend(before.ledger, tail, p);
  }

  /** A payment is never deleted, its parties, amounts and currency never change, its key never changes once set, and
      its provider reference changes at most once, from the placeholder, when the hold is confirmed. */
  lemma DealIsFixed(steps: seq<Step>, more: seq<Step>, p: PaymentId)
    requires p in Run(INITIAL, steps).db.payments
    ensures var before := Run(INITIAL, steps).db.payments[p];
            var after := Run(INITIAL, steps + more).db.payments;
            && p in after && Final(before, after[p])
            && (before.status in {HoldPending, HoldFailed} ==> before.ref == Placeholder(p))
  {
    RunConcat(INITIAL, steps, more);
    RunKeepsPayment(Run(INITIAL, steps), more, p);
    ReachableWorldOk(steps);
    ViewAt(Run(INITIAL, steps).db, p);
  }

  /** One payment per job, and one per payer and non-empty key. */
  lemma PaymentsAreUnique(steps: seq<Step>, p: PaymentId, q: PaymentId)
    requires p in Run(INITIAL, steps).db.payments && q in Run(INITIAL, steps).db.payments
    requires var payments := Run(INITIAL, steps).db.payments;
             payments[p].job == payments[q].job
             || (payments[p].key != NoKey && payments[p].key == payments[q].key
                 && payments[p].payer == payments[q].payer)
    ensures p == q
  {
    ReachableWorldOk(steps);
  }

  /** Funding a job that already has a payment changes nothing at all, unless its hold failed; then the same payment is
      queued again. */
  lemma FundingIsIdempotent(steps: seq<Step>, p: PaymentId, payer: UserId, payee: UserId, chosen: Option<OfferId>,
      amount: nat, id: PaymentId, key: Key, currency: Currency, now: int)
    requires p in Run(INITIAL, steps).db.payments
    ensures var db := Run(INITIAL, steps).db;
            var j := db.payments[p].job;
            var (next, reply) := FundJob(db, j, payer, payee, chosen, amount, id, key, currency, now);
            && reply != Created
            && (db.payments[p].status != HoldFailed ==> next == db)
            && next.payments.Keys == db.payments.Keys && next.ledger == db.ledger && next.outbox.Keys == db.outbox.Keys
  {
    var db := Run(INITIAL, steps).db;
    assert Core(db) by { ReachableWorldOk(steps); }
    FundAgainOnly(db, p, payer, payee, chosen, amount, id, key, currency, now);
  }

  lemma FundAgainOnly(db: Db, p: PaymentId, payer: UserId, payee: UserId, chosen: Option<OfferId>, amount: nat,
      id: PaymentId, key: Key, currency: Currency, now: int)
    requires Core(db) && p in db.payments
    ensures var (next, reply) := FundJob(db, db.payments[p].job, payer, payee, chosen, amount, id, key, currency, now);
            && reply != Created
            && (db.payments[p].status != HoldFailed ==> next == db)
            && next.payments.Keys == db.payments.Keys && next.ledger == db.ledger && next.outbox.Keys == db.outbox.Keys
  {
    var j := db.payments[p].job;
    assert EventKey(CreateHold, p) in db.outbox by { ViewAt(db, p); }
    assert HasPayment(db, j) && db.paymentByJob[j] == p;
    if FundReply(db, j, payer, payee, chosen, amount, id, key) == Retried {
      RetryTouchesNoKeys(db, j, p, payer, key, currency, now);
    }
  }

  lemma RetryTouchesNoKeys(db: Db, j: JobId, p: PaymentId, payer: UserId, key: Key, currency: Currency, now: int)
    requires HasPayment(db, j) && db.paymentByJob[j] == p && EventKey(CreateHold, p) in db.outbox
    ensures var next := RetryHold(db, j, payer, key, currency, now);
            next.payments.Keys == db.payments.Keys && next.ledger == db.ledger && next.outbox.Keys == db.outbox.Keys
  {
  }

  // ---------- nothing is stranded ----------

  predicate Live(db: Db, k: EventKey) {
    k in db.outbox && db.outbox[k].status in {EventStatus.Pending, EventStatus.Processing}
  }

  /** A payment that waits for the provider has an event that will be worked on, and a payment whose last attempt failed
      has an event that is dead and that no old lease can touch. */
  lemma NothingIsStranded(steps: seq<Step>, p: PaymentId)
    requires p in Run(INITIAL, steps).db.payments
    ensures var db := Run(INITIAL, steps).db;
            var hold, release, refund := EventKey(CreateHold, p), EventKey(Release, p), EventKey(Refund, p);
            match db.payments[p].status
            case HoldPending => Live(db, hold)
            case RefundPending => Live(db, refund) && HasPendingRefund(db, p)
            case ReleasePending => release in db.outbox ==> Live(db, release)
            case HoldFailed => Dead(Get(db.outbox, hold))
            case ReleaseFailed => Dead(Get(db.outbox, release))
            case _ => true
  {
    var db := Run(INITIAL, steps).db;
    ReachableWorldOk(steps);
    ViewAt(db, p);
    if db.payments[p].status == RefundPending {
      var v := ViewOf(db, p);
      var r :| r in v.refunds && v.refunds[r].status == RefundStatus.Pending;
      assert PendingRefund(db, p, r);
    }
  }

  // ---------- provider calls ----------

  /** All calls of one kind for one payment are the same call: same amount, currency, reference and key, whatever was
      retried. A hold call asks for the stored employer charge. A provider that is idempotent on its key does each
      operation at most once per payment. */
  lemma CallsAreIdentical(steps: seq<Step>, i: nat, k: nat)
    requires i < |Run(INITIAL, steps).calls| && k < |Run(INITIAL, steps).calls|
    requires KeyOfCall(Run(INITIAL, steps).calls[i]) == KeyOfCall(Run(INITIAL, steps).calls[k])
    ensures var w := Run(INITIAL, steps);
            var c := w.calls[i];
            && c == w.calls[k] && c.payment in w.db.payments && c.key != NoKey
            && var pay := w.db.payments[c.payment];
               if c.HoldCall? then c.amount == pay.fees.charge && c.currency == pay.currency else c.ref == pay.ref
  {
    var w := Run(INITIAL, steps);
    var c := w.calls[i];
    ReachableWorldOk(steps);
    assert KeyOfCall(c).payment == c.payment;
    ViewAt(w.db, c.payment);
    EventInView(w.db, KeyOfCall(c));
  }

  /** The key a call is made under when the payment has none. */
  function DefaultKey(c: Call): Key {
    match c
    case HoldCall(p, _, _, _) => PaymentKey(p)
    case ReleaseCall(p, _, _) => ReleaseKey(p)
    case RefundCall(p, _, _) => NoKey
  }

  /** Calls are made under the payment's own key or the default one. */
  lemma CallKey(steps: seq<Step>, i: nat)
    requires i < |Run(INITIAL, steps).calls| && !Run(INITIAL, steps).calls[i].RefundCall?
    ensures var w := Run(INITIAL, steps);
            var c := w.calls[i];
            c.payment in w.db.payments && c.key != NoKey && c.key in {w.db.payments[c.payment].key, DefaultKey(c)}
  {
    var w := Run(INITIAL, steps);
    CallsAreIdentical(steps, i, i);
    ReachableWorldOk(steps);
    ViewAt(w.db, w.calls[i].payment);
    EventInView(w.db, KeyOfCall(w.calls[i]));
  }

  predicate SameKind(c: Call, d: Call) { (c.HoldCall? && d.HoldCall?) || (c.ReleaseCall? && d.ReleaseCall?) }

  /** Two hold calls, or two release calls, under one key are for one payment if and only if the payers are the same and
      the key is the default one of both or of neither: stored keys are unique for a payer only. */
  lemma OneKeyOnePaymentIff(steps: seq<Step>, i: nat, k: nat)
    requires i < |Run(INITIAL, steps).calls| && k < |Run(INITIAL, steps).calls|
    requires var calls := Run(INITIAL, steps).calls; SameKind(calls[i], calls[k]) && calls[i].key == calls[k].key
    ensures var w := Run(INITIAL, steps);
            var c, d := w.calls[i], w.calls[k];
            && c.payment in w.db.payments && d.payment in w.db.payments
            && (c.payment == d.payment <==>
                  w.db.payments[c.payment].payer == w.db.payments[d.payment].payer
                  && (c.key == DefaultKey(c) <==> d.key == DefaultKey(d)))
  {
    var w := Run(INITIAL, steps);
    var c, d := w.calls[i], w.calls[k];
    CallKey(steps, i);
    CallKey(steps, k);
    if c.key != DefaultKey(c) && d.key != DefaultKey(d)
       && w.db.payments[c.payment].payer == w.db.payments[d.payment].payer {
      PaymentsAreUnique(steps, c.payment, d.payment);
    }
  }

  // ---------- the transition table (backend/src/domain/payment_state.js) ----------

  /** PAYMENT_TRANSITIONS. It has no RefundPending: the repository's REFUND_PENDING is still HELD there. */
  function Edges(s: PaymentStatus): set<PaymentStatus> {
    match s
    case HoldPending => {Held, HoldFailed}
    case Held => {ReleasePending, PaymentStatus.Refunded}
    case ReleasePending => {Released, ReleaseFailed}
    case ReleaseFailed => {ReleasePending}
    case HoldFailed => {HoldPending}
    case _ => {}
  }

  function Abstract(s: PaymentStatus): PaymentStatus { if s == RefundPending then Held else s }

  predicate IsPath(path: seq<PaymentStatus>) {
    path != [] && forall i :: 0 <= i < |path| - 1 ==> path[i + 1] in Edges(path[i])
  }

  function StatusOf(w: World, p: PaymentId): PaymentStatus {
    if p in w.db.payments then w.db.payments[p].status else HoldPending
  }

  /** The edges one step takes: none, one, or two when a webhook releases a payment whose release had failed. */
  function Hop(from: PaymentStatus, to: PaymentStatus): seq<PaymentStatus> {
    if Abstract(to) == Abstract(from) then []
    else if from == ReleaseFailed && to == Released then [ReleasePending, Released]
    else [Abstract(to)]
  }

  /** The statuses payment p goes through along a run, without repetitions. */
  function Trace(w: World, steps: seq<Step>, p: PaymentId): (path: seq<PaymentStatus>)
    ensures path != []
  {
    if steps == [] then [Abstract(StatusOf(w, p))]
    else
      var front := steps[..|steps|-1];
      Trace(w, front, p) + Hop(StatusOf(Run(w, front), p), StatusOf(Run(w, steps), p))
  }

  lemma PathGoesOn(path: seq<PaymentStatus>, from: PaymentStatus, to: PaymentStatus)
    requires IsPath(path) && path[|path|-1] == Abstract(from) && Moves(from, to)
    ensures var longer := path + Hop(from, to); IsPath(longer) && longer[|longer|-1] == Abstract(to)
  {
  }

  lemma NextMoves(w: World, s: Step, p: PaymentId)
    requires p in w.db.payments
    ensures p in Next(w, s).db.payments && Moves(StatusOf(w, p), StatusOf(Next(w, s), p))
  {
    if Enabled(w, s) {
      NextGrows(w.db, s);
    }
  }

  /** The statuses of a payment along any run are a path of the table. */
  lemma {:induction false} RefinesTransitionTable(w: World, steps: seq<Step>, p: PaymentId)
    requires p in w.db.payments
    ensures var path := Trace(w, steps, p);
            && IsPath(path) && path[0] == Abstract(w.db.payments[p].status)
            && path[|path|-1] == Abstract(StatusOf(Run(w, steps), p))
  {
    if steps != [] {
      var front := steps[..|steps|-1];
      RefinesTransitionTable(w, front, p);
      RunKeepsPayment(w, front, p);
      NextMoves(Run(w, front), steps[|steps|-1], p);
      PathGoesOn(Trace(w, front, p), StatusOf(Run(w, front), p), StatusOf(Run(w, steps), p));
    }
  }

  // ---------- fencing ----------

  /** The lease of a ticket is no longer the one its event carries. */
  predicate Fenced(w: World, t: Ticket) {
    t.event in w.db.outbox && t.token < w.db.nextId && w.db.outbox[t.event].token != Some(t.token)
  }

  /** Whatever a fenced ticket is used for, no table changes. */
  lemma FencedTicketIsHarmless(w: World, t: Ticket, ref: Ref, maxAttempts: nat, now: int, jitter: nat)
    requires Fenced(w, t)
    ensures Next(w, Work(Complete(t, ref))).db == w.db && Next(w, Work(Fail(t, maxAttempts, now, jitter))).db == w.db
  {
    StaleCommit(w.db, t, ref);
    StaleFailure(w.db, t, maxAttempts, now, jitter);
  }

  lemma StaleCommit(db: Db, t: Ticket, ref: Ref)
    requires t.event in db.outbox && db.outbox[t.event].token != Some(t.token)
    ensures CompleteTicket(db, t, ref).0 == db
  {
    match t.payload {
      case HoldPayload(j, _, p, _, _, _, _) =>
        assert HoldCommitReply(db, t.event, j, p, ref, Some(t.token)) == Refused(StaleLease);
      case ReleasePayload(j, _, p, _, _) =>
        assert ReleaseCommitReply(db, t.event, j, p, Some(t.token)) == Refused(StaleLease);
      case RefundPayload(j, _, p, r, _, _) =>
        assert RefundCommitReply(db, t.event, j, p, r, ref, Some(t.token)) == Refused(StaleLease);
    }
  }

  lemma StaleFailure(db: Db, t: Ticket, maxAttempts: nat, now: int, jitter: nat)
    requires t.event in db.outbox && db.outbox[t.event].token != Some(t.token)
    ensures FailEvent(db, t.event, Some(t.token), maxAttempts, now, jitter).0 == db
  {
    assert FailReply(db, t.event, Some(t.token), maxAttempts) == Stale;
  }

  /** A claim fences every earlier ticket of the event; a failure that takes effect fences the ticket that reported
      it. */
  lemma ClaimFencesOlder(w: World, k: EventKey, now: int, lease: nat, t: Ticket)
    requires WorldOk(w) && t in w.tickets && t.event == k && Enabled(w, Work(ClaimStep(k, now, lease)))
    ensures Fenced(Next(w, Work(ClaimStep(k, now, lease))), t)
  {
  }

  lemma FailureFencesItself(w: World, t: Ticket, maxAttempts: nat, now: int, jitter: nat)
    requires WorldOk(w) && t in w.tickets
    ensures Fenced(Next(w, Work(Fail(t, maxAttempts, now, jitter))), t)
  {
    if FailReply(w.db, t.event, Some(t.token), maxAttempts) in {RetryLater, Terminal} {
      FailureClearsLease(w.db, t.event, AfterFailure(w.db.outbox[t.event], maxAttempts, now, jitter));
    }
  }

  lemma FailureClearsLease(db: Db, k: EventKey, failed: Event)
    requires k in db.outbox && failed.token.None?
    ensures var next := FailWith(db, k, failed);
            k in next.outbox && next.outbox[k].token.None? && next.nextId == db.nextId
  {
    if failed.status == EventStatus.Failed {
      CompensateKeepsOutbox(db.(outbox := db.outbox[k := failed]), k);
    }
  }

  /** Once fenced, always fenced: no later step of any party revives an old lease. So a token makes a failure take
      effect at most once, and after a re-claim an old worker can change nothing. */
  lemma {:induction false} FencedForEver(w: World, steps: seq<Step>, t: Ticket)
    requires Fenced(w, t)
    ensures Fenced(Run(w, steps), t)
  {
    if steps != [] {
      FencedForEver(w, steps[..|steps|-1], t);
      NextGrows(Run(w, steps[..|steps|-1]).db, steps[|steps|-1]);
    }
  }

  /** An event that was claimed again: whatever happens afterwards, a worker that still holds an earlier ticket of it
      can neither complete nor fail it, and changes no table when it tries. */
  lemma ReclaimedIsHarmless(steps: seq<Step>, k: EventKey, at: int, lease: nat, more: seq<Step>, t: Ticket, ref: Ref,
      maxAttempts: nat, now: int, jitter: nat)
    requires var w := Run(INITIAL, steps); t in w.tickets && t.event == k && Enabled(w, Work(ClaimStep(k, at, lease)))
    ensures var w := Run(Next(Run(INITIAL, steps), Work(ClaimStep(k, at, lease))), more);
            Next(w, Work(Complete(t, ref))).db == w.db && Next(w, Work(Fail(t, maxAttempts, now, jitter))).db == w.db
  {
    var w := Run(INITIAL, steps);
    var claimed := Next(w, Work(ClaimStep(k, at, lease)));
    ReachableWorldOk(steps);
    ClaimFencesOlder(w, k, at, lease, t);
    FencedForEver(claimed, more, t);
    FencedTicketIsHarmless(Run(claimed, more), t, ref, maxAttempts, now, jitter);
  }

  /** One ticket makes a failure take effect at most once: after its first report it changes no table any more, reported
      again or not. */
  lemma FailureTakesEffectOnce(steps: seq<Step>, t: Ticket, firstMax: nat, firstNow: int, firstJitter: nat,
      more: seq<Step>, ref: Ref, maxAttempts: nat, now: int, jitter: nat)
    requires t in Run(INITIAL, steps).tickets
    ensures var w := Run(Next(Run(INITIAL, steps), Work(Fail(t, firstMax, firstNow, firstJitter))), more);
            Next(w, Work(Complete(t, ref))).db == w.db && Next(w, Work(Fail(t, maxAttempts, now, jitter))).db == w.db
  {
    var w := Run(INITIAL, steps);
    var failed := Next(w, Work(Fail(t, firstMax, firstNow, firstJitter)));
    ReachableWorldOk(steps);
    FailureFencesItself(w, t, firstMax, firstNow, firstJitter);
    FencedForEver(failed, more, t);
    FencedTicketIsHarmless(Run(failed, more), t, ref, maxAttempts, now, jitter);
  }

  // ---------- webhooks ----------

  lemma WaitsUnderPlaceholder(steps: seq<Step>, p: PaymentId)
    requires p in Run(INITIAL, steps).db.payments && Run(INITIAL, steps).db.payments[p].status == HoldPending
    ensures Run(INITIAL, steps).db.payments[p].ref == Placeholder(p)
  {
    ReachableWorldOk(steps);
    ViewAt(Run(INITIAL, steps).db, p);
  }

  /** A payment still waiting for its hold is only confirmed by a webhook that names its placeholder: any other held
      webhook changes nothing, with another reference or none. */
  lemma HeldWebhookNeedsPlaceholder(steps: seq<Step>, id: WebhookId, p: PaymentId, ref: Ref, row: RefundId)
    requires p in Run(INITIAL, steps).db.payments && Run(INITIAL, steps).db.payments[p].status == HoldPending
    requires ref != Placeholder(p)
    ensures NextPay(Run(INITIAL, steps).db, Webhook(id, PaymentHeld, p, ref, row)) == Run(INITIAL, steps).db
  {
    WaitsUnderPlaceholder(steps, p);
    OtherHeldWebhook(Run(INITIAL, steps).db, id, p, ref, row);
  }

  lemma OtherHeldWebhook(db: Db, id: WebhookId, p: PaymentId, ref: Ref, row: RefundId)
    requires p in db.payments && db.payments[p].ref == Placeholder(p) && ref != Placeholder(p)
    ensures NextPay(db, Webhook(id, PaymentHeld, p, ref, row)) == db
  {
    if ref != NoRef {
      WrongReferenceIsRefused(db, id, PaymentHeld, p, ref, row);
    }
  }

  /** A hold or release webhook under another reference than the stored one changes nothing. */
  lemma WrongReferenceIsRefused(db: Db, id: WebhookId, kind: WebhookType, p: PaymentId, ref: Ref, row: RefundId)
    requires p in db.payments && kind != PaymentRefunded && ref != NoRef && db.payments[p].ref != NoRef
             && ref != db.payments[p].ref
    ensures ApplyWebhook(db, id, kind, p, ref, row).0 == db
  {
    assert WebhookReply(db, id, kind, p, ref, row) in {Duplicate, Throw(ProviderRefMismatch)};
  }

  lemma {:induction false} WebhooksAreKept(w: World, more: seq<Step>, id: WebhookId)
    requires id in w.db.webhooks
    ensures id in Run(w, more).db.webhooks
  {
    if more != [] {
      WebhooksAreKept(w, more[..|more|-1], id);
      NextGrows(Run(w, more[..|more|-1]).db, more[|more|-1]);
    }
  }

  lemma DuplicateChangesNothing(db: Db, s: PayStep)
    requires s.Webhook? && s.id in db.webhooks
    ensures NextPay(db, s) == db
  {
  }

  /** A webhook takes effect at most once: a webhook of the same id, in any later state and whatever it says, changes
      nothing. */
  lemma WebhookCountsOnce(w: World, more: seq<Step>, s: PayStep)
    requires s.Webhook? && s.id in w.db.webhooks
    ensures Next(Run(w, more), Pay(s)).db == Run(w, more).db
  {
    WebhooksAreKept(w, more, s.id);
    DuplicateChangesNothing(Run(w, more).db, s);
  }

  // ---------- who may act ----------

  /** The party a request is made for, when it names one. */
  function Actor(s: PayStep): Option<(JobId, UserId)> {
    match s
    case Fund(j, payer, _, _, _, _, _, _, _) => Some((j, payer))
    case RequestRefund(j, _, owner, _, _, _, _) => Some((j, owner))
    case RequestRelease(j, owner, _, _) => Some((j, owner))
    case _ => None
  }

  /** Only the owner of a job funds it, refunds it or releases it: anybody else's request changes no table, in any
      state. */
  lemma OnlyTheOwnerPays(db: Db, s: PayStep)
    requires Actor(s).Some? && !(Actor(s).value.0 in db.jobs && db.jobs[Actor(s).value.0].owner == Actor(s).value.1)
    ensures NextPay(db, s) == db
  {
    match s {
      case Fund(j, payer, payee, chosen, amount, p, key, _, _) =>
        assert FundReply(db, j, payer, payee, chosen, amount, p, key) in {Null, Throw(Forbidden)};
      case RequestRefund(j, p, owner, amount, r, key, _) =>
        assert RefundReply(db, j, p, owner, amount, r, key) in {Null, Throw(Forbidden)};
      case RequestRelease(j, owner, p, _) => assert ReleaseReply(db, j, owner, p) in {Null, Throw(Forbidden)};
    }
  }

  /** A new payment is between the owner of the job and the payee of the request, for the requested amount, waiting
      under its placeholder; the payee becomes the job's provider unless it has one; and of the job's offers only the
      one it was funded by is accepted, which is the payee's, while no offer of the job is left pending and offers of
      other jobs are as they were. */
  lemma FundedByOwnerForProvider(db: Db, j: JobId, payer: UserId, payee: UserId, offer: Option<OfferId>, amount: nat,
      id: PaymentId, key: Key, currency: Currency, now: int)
    requires FundJob(db, j, payer, payee, offer, amount, id, key, currency, now).1 == Created
    ensures var next := FundJob(db, j, payer, payee, offer, amount, id, key, currency, now).0;
            && id !in db.payments && next.payments.Keys == db.payments.Keys + {id} && j in next.jobs
            && next.payments[id] == Payment(j, db.jobs[j].owner, payee, amount, HoldPending, Placeholder(id), key,
                                            Breakdown(db.jobs[j].kind, amount), currency)
            && next.jobs[j] == db.jobs[j].(status := Funded,
                                           provider := if db.jobs[j].provider.Some? then db.jobs[j].provider
                                                       else Some(payee))
            && (offer.Some? ==>
                 offer.value in next.offers && OnlyOfferOf(db.offers, next.offers, offer.value, j)
                 && next.offers[offer.value].provider == payee)
            && (offer.None? ==> next.offers == db.offers)
  {
    if offer.Some? {
      ChosenIsOnly(db.offers, offer.value, j);
    }
  }

  /** Accepting an offer makes its provider the job's, under the same rule for the other offers. */
  lemma AcceptedOfferGetsJob(db: Db, o: OfferId, owner: UserId)
    requires AcceptOffer(db, o, owner).1 == Updated
    ensures var next := AcceptOffer(db, o, owner).0;
            var j := db.offers[o].job;
            && o in next.offers && OnlyOfferOf(db.offers, next.offers, o, j)
            && j in next.jobs && next.jobs[j].provider == Some(next.offers[o].provider)
            && next.jobs[j].status == Assigned
            && db.jobs[j].owner == owner
  {
    ChosenIsOnly(db.offers, o, db.offers[o].job);
  }

  predicate OnlyOfferOf(offers: map<OfferId, Offer>, next: map<OfferId, Offer>, o: OfferId, j: JobId)
    requires o in next
  {
    && next[o].job == j && next[o].status == OfferStatus.Accepted
    && next.Keys == offers.Keys
    && (forall x :: x in next && next[x].job == j ==> next[x].status != OfferStatus.Pending)
    && (forall x :: x in next && next[x].job != j ==> next[x] == offers[x])
    && (forall x :: x in next ==>
         next[x].job == offers[x].job && next[x].provider == offers[x].provider && next[x].price == offers[x].price)
    && (forall x :: x in next && x != o && next[x].status == OfferStatus.Accepted ==>
         offers[x].status == OfferStatus.Accepted)
  }

  lemma ChosenIsOnly(offers: map<OfferId, Offer>, o: OfferId, j: JobId)
    requires o in offers && offers[o].job == j
    ensures OnlyOfferOf(offers, ChooseOffer(offers, o, j), o, j)
  {
  }
}
