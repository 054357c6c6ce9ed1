/** The offline adapter and the drained SQL protocol reach the same state: a forward simulation, command by command. */
module Simulation {
  import opened Options
  import opened Money
  import opened Schema
  import opened Ledger
  import opened Transactions
  import opened Offline

  // ---------- one worker pass ----------

  /** The tables right after the worker has marked event k done, before it moves the payment. */
  function Taken(db: Db, k: EventKey, now: int): Db
    requires k in db.outbox
  {
    DoneEvent(Claim(db, k, now), k)
  }

  predicate JustQueued(db: Db, k: EventKey, payload: Payload, now: int) {
    k in db.outbox && db.outbox[k].status == EventStatus.Pending && db.outbox[k].availableAt == now
    && db.outbox[k].payload == payload
  }

  lemma DrainHold(db: Db, p: PaymentId, j: JobId, payload: Payload, a: Answer)
    requires payload.HoldPayload? && payload.job == j && payload.payment == p
             && JustQueued(db, EventKey(CreateHold, p), payload, a.now)
    requires p in db.payments && db.payments[p].job == j && db.payments[p].status == HoldPending
             && !RefTaken(db.payments, a.ref, p)
    ensures Drain(db, EventKey(CreateHold, p), a) == Confirm(Taken(db, EventKey(CreateHold, p), a.now), p, a.ref)
  {
    var k := EventKey(CreateHold, p);
    assert HoldCommitReply(Claim(db, k, a.now), k, j, p, a.ref, Some(db.nextId)) == Committed;
  }

  lemma DrainRelease(db: Db, p: PaymentId, j: JobId, payload: Payload, a: Answer)
    requires payload.ReleasePayload? && payload.job == j && payload.payment == p
             && JustQueued(db, EventKey(Release, p), payload, a.now)
    requires p in db.payments && db.payments[p].job == j && db.payments[p].status == ReleasePending
    requires Postable(ReleaseLines(db.payments[p].fees)) && Postable(PayoutLines(db.payments[p].fees))
    requires !SettlementRefTaken(db.settlements, db.payments[p].ref, p)
    ensures Drain(db, EventKey(Release, p), a)
            == FinishRelease(Taken(db, EventKey(Release, p), a.now), p, db.payments[p].ref, PaymentRelease,
                             PaymentPayout)
  {
    var k := EventKey(Release, p);
    assert ReleaseCommitReply(Claim(db, k, a.now), k, j, p, Some(db.nextId)) == Committed;
  }

  lemma DrainRefund(db: Db, p: PaymentId, j: JobId, r: RefundId, payload: Payload, a: Answer)
    requires payload.RefundPayload? && payload.job == j && payload.payment == p && payload.refund == r
    requires JustQueued(db, EventKey(Refund, p), payload, a.now)
    requires p in db.payments && db.payments[p].job == j && j in db.jobs && db.payments[p].status == RefundPending
    requires PendingRefund(db, p, r) && !RefundRefTaken(db.refunds, a.ref, r)
             && Postable(RefundLines(db.payments[p].fees))
    ensures Drain(db, EventKey(Refund, p), a)
            == FinishRefund(Taken(db, EventKey(Refund, p), a.now), p, r, Some(a.ref), PaymentRefund)
  {
    var k := EventKey(Refund, p);
    assert RefundCommitReply(Claim(db, k, a.now), k, j, p, r, a.ref, Some(db.nextId)) == Committed;
  }

  // ---------- the shared view of each write ----------

  lemma AbsPost(db: Db, reference: Reference, p: PaymentId, lines: seq<Line>)
    ensures AbsLedger(Post(db, reference, p, lines).ledger) == AbsLedger(db.ledger) + Lines(p, lines)
  {
  }

  lemma AbsPaymentUpdate(payments: map<PaymentId, Payment>, p: PaymentId, pay: Payment)
    ensures AbsPayments(payments[p := pay]) == AbsPayments(payments)[p := AbsPayment(pay)]
  {
  }

  lemma AbsRefundUpdate(refunds: map<RefundId, RefundRow>, r: RefundId, row: RefundRow)
    ensures AbsRefunds(refunds[r := row])
            == AbsRefunds(refunds)[r := OffRefund(row.payment, row.amount, row.status, row.key)]
  {
  }

  lemma AbsSettle(settlements: map<PaymentId, Settlement>, p: PaymentId, ref: Ref, amount: nat, currency: Currency)
    requires p !in settlements
    ensures AbsSettlements(Settle(settlements, p, ref, amount, currency))
            == AbsSettlements(settlements)[p := OffSettlement(amount, currency)]
  {
  }

  function OffMove(off: OffDb, p: PaymentId, status: PaymentStatus): OffDb
    requires p in off.payments
  {
    off.(payments := off.payments[p := off.payments[p].(status := status)])
  }

  lemma AbsTaken(db: Db, k: EventKey, now: int)
    requires k in db.outbox
    ensures Abs(Taken(db, k, now)) == Abs(db)
  {
  }

  lemma AbsConfirm(db: Db, p: PaymentId, ref: Ref)
    requires p in db.payments
    ensures Abs(Confirm(db, p, ref)) == OffMove(Abs(db), p, Held)
  {
    AbsPaymentUpdate(db.payments, p, db.payments[p].(status := Held, ref := ref));
  }

  lemma AbsInsert(db: Db, c: Command, payee: UserId, now: int)
    requires c.FundCmd? && c.job in db.jobs
    ensures var pay := NewPayment(db.jobs[c.job], c.job, c.me, payee, c.amount, c.payment, c.key, c.currency);
            var off := OffInsert(Abs(db), c, payee, pay.fees);
            Abs(InsertPayment(db, pay, c.payment, c.chosen, now)) == OffMove(off, c.payment, HoldPending)
  {
    var pay := NewPayment(db.jobs[c.job], c.job, c.me, payee, c.amount, c.payment, c.key, c.currency);
    var next := InsertPayment(db, pay, c.payment, c.chosen, now);
    AbsPaymentUpdate(db.payments, c.payment, pay);
    assert AbsLedger(next.ledger) == AbsLedger(db.ledger) + Lines(c.payment, FundingLines(pay.fees));
  }

  lemma AbsRequest(db: Db, j: JobId, p: PaymentId, me: UserId, r: RefundId, key: Key, now: int)
    requires p in db.payments && r !in db.refunds && PriorRefund(db, p, key).None?
    ensures var off := OffMove(Abs(db), p, RefundPending);
            Abs(RequestRefundOf(db, j, p, me, r, key, now))
            == off.(refunds := off.refunds[r := OffRefund(p, db.payments[p].amount, RefundStatus.Pending, key)])
  {
    AbsPaymentUpdate(db.payments, p, db.payments[p].(status := RefundPending));
    AbsRefundUpdate(db.refunds, r, RefundRow(p, db.payments[p].amount, RefundStatus.Pending, None, key, now));
  }

  lemma AbsFinishRefund(db: Db, p: PaymentId, r: RefundId, ref: Option<Ref>)
    requires p in db.payments && r in db.refunds
    ensures var off := OffMove(Abs(db), p, PaymentStatus.Refunded);
            Abs(FinishRefund(db, p, r, ref, PaymentRefund))
            == off.(refunds := off.refunds[r := off.refunds[r].(status := RefundStatus.Refunded)],
                    jobs := RefundedJob(db.jobs, db.payments[p].job), lines := off.lines
                      + Lines(p, RefundLines(db.payments[p].fees)))
  {
    AbsPaymentUpdate(db.payments, p, db.payments[p].(status := PaymentStatus.Refunded));
    AbsRefundUpdate(db.refunds, r, db.refunds[r].(status := RefundStatus.Refunded, ref := ref));
    AbsPost(db, PaymentRefund, p, RefundLines(db.payments[p].fees));
  }

  lemma AbsQueueRelease(db: Db, j: JobId, me: UserId, p: PaymentId, now: int)
    requires p in db.payments
    ensures Abs(QueueRelease(db, j, me, p, now)) == OffMove(Abs(db), p, ReleasePending)
  {
    AbsPaymentUpdate(db.payments, p, db.payments[p].(status := ReleasePending));
  }

  lemma AbsFinishRelease(db: Db, p: PaymentId, ref: Ref)
    requires p in db.payments && p !in db.settlements
    ensures Abs(FinishRelease(db, p, ref, PaymentRelease, PaymentPayout)) == OffReleasePayment(Abs(db), p)
  {
    var pay := db.payments[p];
    var db1 := Post(db, PaymentRelease, p, ReleaseLines(pay.fees));
    AbsPaymentUpdate(db.payments, p, pay.(status := Released));
    AbsSettle(db.settlements, p, ref, pay.fees.payout, pay.currency);
    AbsPost(db, PaymentRelease, p, ReleaseLines(pay.fees));
    AbsPost(db1, PaymentPayout, p, PayoutLines(pay.fees));
  }

  // ---------- whole commands ----------

  lemma AbsHoldTaken(db: Db, k: EventKey, p: PaymentId, ref: Ref, off: OffDb, now: int)
    requires k in db.outbox && p in db.payments && p in off.payments && off.payments[p].status == Held
             && Abs(db) == OffMove(off, p, HoldPending)
    ensures Abs(Confirm(Taken(db, k, now), p, ref)) == off
  {
    AbsTaken(db, k, now);
    AbsConfirm(Taken(db, k, now), p, ref);
    assert off.payments[p := off.payments[p]] == off.payments;
  }

  /** A new payment, held at once. */
  lemma AbsFunded(db: Db, c: Command, payee: UserId, a: Answer)
    requires c.FundCmd? && c.job in db.jobs
    ensures var k := EventKey(CreateHold, c.payment);
            var pay := NewPayment(db.jobs[c.job], c.job, c.me, payee, c.amount, c.payment, c.key, c.currency);
            var db1 := InsertPayment(db, pay, c.payment, c.chosen, a.now);
            k in db1.outbox && c.payment in db1.payments
            && Abs(Confirm(Taken(db1, k, a.now), c.payment, a.ref)) == OffInsert(Abs(db), c, payee, pay.fees)
  {
    var k := EventKey(CreateHold, c.payment);
    var pay := NewPayment(db.jobs[c.job], c.job, c.me, payee, c.amount, c.payment, c.key, c.currency);
    var db1 := InsertPayment(db, pay, c.payment, c.chosen, a.now);
    AbsInsert(db, c, payee, a.now);
    AbsHoldTaken(db1, k, c.payment, a.ref, OffInsert(Abs(db), c, payee, pay.fees), a.now);
  }

  lemma AbsRefundTaken(db: Db, k: EventKey, p: PaymentId, r: RefundId, ref: Ref, key: Key, off: OffDb, now: int)
    requires k in db.outbox && p in db.payments && r in db.refunds && p in off.payments
             && off.payments[p] == AbsPayment(db.payments[p]).(status := Held)
    requires Abs(db) == OffMove(off, p,
                                RefundPending).(refunds := off.refunds[r := OffRefund(p, db.payments[p].amount,
                                                                                      RefundStatus.Pending, key)])
    ensures Abs(FinishRefund(Taken(db, k, now), p, r, Some(ref), PaymentRefund)) == OffRefundPayment(off, p, r, key)
  {
    AbsTaken(db, k, now);
    AbsFinishRefund(Taken(db, k, now), p, r, Some(ref));
  }

  lemma AbsRefunded(db: Db, j: JobId, p: PaymentId, me: UserId, r: RefundId, key: Key, a: Answer)
    requires p in db.payments && db.payments[p].status == Held && r !in db.refunds && PriorRefund(db, p, key).None?
             && EventKey(Refund, p) !in db.outbox
    ensures var k := EventKey(Refund, p);
            var db1 := RequestRefundOf(db, j, p, me, r, key, a.now);
            k in db1.outbox && p in db1.payments && r in db1.refunds
            && Abs(FinishRefund(Taken(db1, k, a.now), p, r, Some(a.ref), PaymentRefund))
               == OffRefundPayment(Abs(db), p, r, key)
  {
    AbsRequest(db, j, p, me, r, key, a.now);
    AbsRefundTaken(RequestRefundOf(db, j, p, me, r, key, a.now), EventKey(Refund, p), p, r, a.ref, key, Abs(db), a.now);
  }

  lemma AbsReleaseTaken(db: Db, k: EventKey, p: PaymentId, ref: Ref, off: OffDb, now: int)
    requires k in db.outbox && p in db.payments && p !in db.settlements && p in off.payments
             && Abs(db) == OffMove(off, p, ReleasePending)
    ensures Abs(FinishRelease(Taken(db, k, now), p, ref, PaymentRelease, PaymentPayout)) == OffReleasePayment(off, p)
  {
    AbsTaken(db, k, now);
    AbsFinishRelease(Taken(db, k, now), p, ref);
    OffReleaseForgetsStatus(off, p, ReleasePending);
  }

  lemma OffReleaseForgetsStatus(off: OffDb, p: PaymentId, status: PaymentStatus)
    requires p in off.payments
    ensures OffReleasePayment(OffMove(off, p, status), p) == OffReleasePayment(off, p)
  {
    var moved := off.payments[p := off.payments[p].(status := status)];
    var released := off.payments[p].(status := Released);
    assert moved[p := released] == off.payments[p := released];
  }

  lemma AbsReleased(db: Db, j: JobId, p: PaymentId, me: UserId, a: Answer)
    requires p in db.payments && p !in db.settlements && EventKey(Release, p) !in db.outbox
    ensures var k := EventKey(Release, p);
            var db1 := QueueRelease(db, j, me, p, a.now);
            k in db1.outbox && p in db1.payments
            && Abs(FinishRelease(Taken(db1, k, a.now), p, db.payments[p].ref, PaymentRelease, PaymentPayout))
               == OffReleasePayment(Abs(db), p)
  {
    var k := EventKey(Release, p);
    var db1 := QueueRelease(db, j, me, p, a.now);
    AbsQueueRelease(db, j, me, p, a.now);
    AbsReleaseTaken(db1, k, p, db.payments[p].ref, Abs(db), a.now);
  }

  // ---------- rest is kept ----------

  /** Only payment p changes, and what is new in other tables belongs to it. */
  predicate Local(db: Db, next: Db, p: PaymentId) {
    && p in next.payments && (next.payments == db.payments[p := next.payments[p]])
    && db.jobs.Keys <= next.jobs.Keys
    && (next.paymentByJob == db.paymentByJob
        || (next.payments[p].job !in db.paymentByJob
            && next.paymentByJob == db.paymentByJob[next.payments[p].job := p]))
    && (forall e :: e in next.paymentByKey ==>
         next.paymentByKey[e] == p || (e in db.paymentByKey && next.paymentByKey[e] == db.paymentByKey[e]))
    && (forall e :: e in next.refundByKey ==> e in db.refundByKey || e.0 == p)
    && (forall k :: k in next.outbox ==>
          (k in db.outbox && next.outbox[k] == db.outbox[k])
          || (k.payment == p && next.outbox[k].status == EventStatus.Done))
    && (forall r :: r in next.refunds ==>
         next.refunds[r].payment == p || (r in db.refunds && next.refunds[r] == db.refunds[r]))
    && (next.settlements == db.settlements
        || (p in next.settlements && next.settlements == db.settlements[p := next.settlements[p]]))
  }

  /** What a step owes for the payment it changed. */
  ghost predicate OwesNothing(db: Db, next: Db, p: PaymentId)
    requires p in next.payments
  {
    && AtRest(next, p)
    && (p in db.payments ==> next.payments[p].ref == db.payments[p].ref && next.payments[p].job == db.payments[p].job
                             && db.payments[p].status != PaymentStatus.Refunded)
    && (p !in db.payments ==> forall q :: q in db.payments ==> db.payments[q].ref != next.payments[p].ref)
    && (p in next.settlements ==> next.settlements[p].ref == next.payments[p].ref)
    && ((exists e :: e in next.refundByKey && e.0 == p) ==> next.payments[p].status == PaymentStatus.Refunded)
    && ((exists r :: r in next.refunds && next.refunds[r].payment == p) ==>
         next.payments[p].status == PaymentStatus.Refunded)
  }

  lemma LocalAtRest(db: Db, next: Db, p: PaymentId, q: PaymentId)
    requires Local(db, next, p) && q in db.payments && q != p && AtRest(db, q)
    ensures q in next.payments && AtRest(next, q)
  {
  }

  lemma LocalRefunds(db: Db, next: Db, p: PaymentId, r: RefundId)
    requires Drained(db) && Local(db, next, p) && OwesNothing(db, next, p) && r in next.refunds
    ensures next.refunds[r].payment in next.payments
            && next.payments[next.refunds[r].payment].status == PaymentStatus.Refunded
  {
    if next.refunds[r].payment != p {
      assert r in db.refunds && next.refunds[r] == db.refunds[r];
    }
  }

  lemma LocalJobIndex(db: Db, next: Db, p: PaymentId)
    requires NoStrays(db) && Local(db, next, p)
    requires p in db.payments ==> next.payments[p].job == db.payments[p].job
    ensures forall j :: j in next.paymentByJob ==>
              next.paymentByJob[j] in next.payments && next.payments[next.paymentByJob[j]].job == j
  {
  }

  lemma LocalIndexes(db: Db, next: Db, p: PaymentId)
    requires Drained(db) && Local(db, next, p) && OwesNothing(db, next, p)
    ensures forall j :: j in next.paymentByJob ==>
              next.paymentByJob[j] in next.payments && next.payments[next.paymentByJob[j]].job == j
    ensures forall e :: e in next.paymentByKey ==> next.paymentByKey[e] in next.payments
  {
    LocalJobIndex(db, next, p);
  }

  lemma LocalOutbox(db: Db, next: Db, p: PaymentId)
    requires Drained(db) && Local(db, next, p)
    ensures forall k :: k in next.outbox ==> k.payment in next.payments && next.outbox[k].status == EventStatus.Done
  {
  }

  lemma LocalStrays(db: Db, next: Db, p: PaymentId)
    requires Drained(db) && Local(db, next, p) && OwesNothing(db, next, p)
    ensures NoStrays(next)
  {
    LocalIndexes(db, next, p);
    LocalOutbox(db, next, p);
    forall r | r in next.refunds
      ensures next.refunds[r].payment in next.payments
              && next.payments[next.refunds[r].payment].status == PaymentStatus.Refunded
    {
      LocalRefunds(db, next, p, r);
    }
  }

  lemma LocalRefs(db: Db, next: Db, p: PaymentId)
    requires Drained(db) && Local(db, next, p) && OwesNothing(db, next, p)
    ensures RefsDistinct(next.payments)
  {
  }

  lemma LocalSettlements(db: Db, next: Db, p: PaymentId)
    requires SettledUnderOwnRef(db) && Local(db, next, p)
    requires p in next.settlements ==> next.settlements[p].ref == next.payments[p].ref
    ensures SettledUnderOwnRef(next)
  {
  }

  lemma LocalKeys(db: Db, next: Db, p: PaymentId)
    requires RefundKeysUsed(db) && Local(db, next, p)
    requires (exists e :: e in next.refundByKey && e.0 == p) ==> next.payments[p].status == PaymentStatus.Refunded
    ensures RefundKeysUsed(next)
  {
    forall e | e in next.refundByKey
      ensures e.0 in next.payments && next.payments[e.0].status == PaymentStatus.Refunded {
      assert e.0 != p ==> e in db.refundByKey;
    }
  }

  lemma LocalKeepsDrained(db: Db, next: Db, p: PaymentId)
    requires Drained(db) && Local(db, next, p) && OwesNothing(db, next, p)
    ensures Drained(next)
  {
    forall q | q in next.payments ensures AtRest(next, q) {
      if q != p {
        assert AtRest(db, q);
        LocalAtRest(db, next, p, q);
      }
    }
    LocalStrays(db, next, p);
    LocalRefs(db, next, p);
    LocalSettlements(db, next, p);
    LocalKeys(db, next, p);
  }

  /** Steps on the job alone. */
  lemma JobKeepsDrained(db: Db, next: Db)
    requires Drained(db) && next == db.(jobs := next.jobs) && db.jobs.Keys <= next.jobs.Keys
    ensures Drained(next)
  {
    forall q | q in next.payments ensures AtRest(next, q) {
      assert AtRest(db, q);
    }
  }

  // ---------- funding ----------

  function Funded(db: Db, c: Command, a: Answer): Db
    requires c.FundCmd? && Payable(db.jobs, db.offers, c)
  {
    var payee := Payee(db.jobs, db.offers, c);
    var pay := NewPayment(db.jobs[c.job], c.job, c.me, payee, c.amount, c.payment, c.key, c.currency);
    var db1 := InsertPayment(db, pay, c.payment, c.chosen, a.now);
    Confirm(Taken(db1, EventKey(CreateHold, c.payment), a.now), c.payment, a.ref)
  }

  predicate FundsAnew(db: Db, c: Command)
    requires c.FundCmd?
  {
    Payable(db.jobs, db.offers, c) && c.job !in db.paymentByJob && db.jobs[c.job].status in {Published, Assigned}
    && (c.key != NoKey ==> (c.me, c.key) !in db.paymentByKey)
  }

  /** With a new payment the route, the transaction and the worker end in Funded exactly when the ledger takes the
      amount; otherwise the transaction is rolled back. */
  lemma SqlFunds(db: Db, c: Command, a: Answer)
    requires Drained(db) && c.FundCmd? && FreshInput(db, c, a.ref) && FundsAnew(db, c)
    ensures SqlStep(db, c, a) == if LargeEnough(db.jobs, c) then Funded(db, c, a) else db
  {
    NewFundJob(db, c, a);
    if LargeEnough(db.jobs, c) {
      HoldIsDrained(db, c, Payee(db.jobs, db.offers, c), a);
    } else {
      NothingToDrain(db, EventKey(CreateHold, c.payment), a);
    }
  }

  lemma NewFundJob(db: Db, c: Command, a: Answer)
    requires Drained(db) && c.FundCmd? && FreshInput(db, c, a.ref) && FundsAnew(db, c)
    ensures var payee := Payee(db.jobs, db.offers, c);
            FundJob(db, c.job, c.me, payee, c.chosen, c.amount, c.payment, c.key, c.currency, a.now).0
            == if !LargeEnough(db.jobs, c) then db
               else InsertPayment(db,
                                  NewPayment(db.jobs[c.job], c.job, c.me, payee, c.amount, c.payment, c.key,
                                             c.currency),
                                  c.payment, c.chosen, a.now)
  {
    NewFundReply(db, c, a);
  }

  lemma NewFundReply(db: Db, c: Command, a: Answer)
    requires Drained(db) && c.FundCmd? && FreshInput(db, c, a.ref) && FundsAnew(db, c)
    ensures FundReply(db, c.job, c.me, Payee(db.jobs, db.offers, c), c.chosen, c.amount, c.payment, c.key)
            == if LargeEnough(db.jobs, c) then Created else Throw(JournalRejected)
  {
    PostableIffLargeEnough(db.jobs[c.job].kind, c.amount);
    assert EventKey(CreateHold, c.payment) !in db.outbox;
    assert !RefTaken(db.payments, Placeholder(c.payment), c.payment);
  }

  lemma HoldIsDrained(db: Db, c: Command, payee: UserId, a: Answer)
    requires c.FundCmd? && c.job in db.jobs && FreshInput(db, c, a.ref)
    ensures var pay := NewPayment(db.jobs[c.job], c.job, c.me, payee, c.amount, c.payment, c.key, c.currency);
            var db1 := InsertPayment(db, pay, c.payment, c.chosen, a.now);
            var k := EventKey(CreateHold, c.payment);
            k in db1.outbox && c.payment in db1.payments
            && Drain(db1, k, a) == Confirm(Taken(db1, k, a.now), c.payment, a.ref)
  {
    var pay := NewPayment(db.jobs[c.job], c.job, c.me, payee, c.amount, c.payment, c.key, c.currency);
    var db1 := InsertPayment(db, pay, c.payment, c.chosen, a.now);
    var k := EventKey(CreateHold, c.payment);
    DrainHold(db1, c.payment, c.job, db1.outbox[k].payload, a);
  }

  lemma FundedDrained(db: Db, c: Command, a: Answer)
    requires Drained(db) && c.FundCmd? && FreshInput(db, c, a.ref) && FundsAnew(db, c) && LargeEnough(db.jobs, c)
    ensures Drained(Funded(db, c, a))
  {
    PostableIffLargeEnough(db.jobs[c.job].kind, c.amount);
    FundedShape(db, c, a);
    FundedIsLocal(db, Funded(db, c, a), c, EventKey(CreateHold, c.payment));
    FundedOwesNothing(db, c, a);
    LocalKeepsDrained(db, Funded(db, c, a), c.payment);
  }

  /** Which rows a new payment writes. */
  lemma FundedShape(db: Db, c: Command, a: Answer)
    requires c.FundCmd? && Payable(db.jobs, db.offers, c)
    ensures var next := Funded(db, c, a);
            var p := c.payment;
            var k := EventKey(CreateHold, p);
            && p in next.payments && next.payments == db.payments[p := next.payments[p]]
            && k in next.outbox && next.outbox[k].status == EventStatus.Done
            && next.payments[p].job == c.job && next.payments[p].ref == a.ref && next.payments[p].status == Held
            && next.payments[p].fees == Breakdown(db.jobs[c.job].kind, c.amount)
            && next.paymentByJob == db.paymentByJob[c.job := p]
            && next.paymentByKey == (if c.key == NoKey then db.paymentByKey else db.paymentByKey[(c.me, c.key) := p])
            && next == db.(jobs := next.jobs, offers := next.offers, payments := next.payments,
                           paymentByJob := next.paymentByJob,
                           paymentByKey := next.paymentByKey, outbox := db.outbox[k := next.outbox[k]],
                           ledger := next.ledger, nextId := next.nextId)
            && next.jobs.Keys == db.jobs.Keys
  {
  }

  lemma FundedIsLocal(db: Db, next: Db, c: Command, k: EventKey)
    requires c.FundCmd? && c.payment in next.payments
             && next.payments == db.payments[c.payment := next.payments[c.payment]]
    requires k.payment == c.payment && k in next.outbox && next.outbox[k].status == EventStatus.Done
             && next.payments[c.payment].job == c.job && c.job !in db.paymentByJob
    requires next.paymentByJob == db.paymentByJob[c.job := c.payment] && next.jobs.Keys == db.jobs.Keys
    requires next.paymentByKey == (if c.key == NoKey then db.paymentByKey
                                   else db.paymentByKey[(c.me, c.key) := c.payment])
    requires next == db.(jobs := next.jobs, offers := next.offers, payments := next.payments,
                         paymentByJob := next.paymentByJob,
                         paymentByKey := next.paymentByKey, outbox := db.outbox[k := next.outbox[k]],
                         ledger := next.ledger, nextId := next.nextId)
    ensures Local(db, next, c.payment)
  {
  }

  lemma FundedOwesNothing(db: Db, c: Command, a: Answer)
    requires Drained(db) && c.FundCmd? && FreshInput(db, c, a.ref) && FundsAnew(db, c)
    requires var f := Breakdown(db.jobs[c.job].kind, c.amount);
             Postable(ReleaseLines(f)) && Postable(PayoutLines(f)) && Postable(RefundLines(f))
    ensures c.payment in Funded(db, c, a).payments && OwesNothing(db, Funded(db, c, a), c.payment)
  {
    FundedShape(db, c, a);
    NewOwesNothing(db, Funded(db, c, a), c.payment);
  }

  lemma NewOwesNothing(db: Db, next: Db, p: PaymentId)
    requires Drained(db) && p !in db.payments && p in next.payments && next.payments[p].status == Held
             && next.payments[p].ref.External?
    requires forall q :: q in db.payments ==> db.payments[q].ref != next.payments[p].ref
    requires next.payments[p].job in next.jobs && Get(next.paymentByJob, next.payments[p].job) == Some(p)
    requires var f := next.payments[p].fees;
             Postable(ReleaseLines(f)) && Postable(PayoutLines(f)) && Postable(RefundLines(f))
    requires EventKey(CreateHold, p) in next.outbox
             && next.outbox == db.outbox[EventKey(CreateHold, p) := next.outbox[EventKey(CreateHold, p)]]
    requires next.settlements == db.settlements && next.refundByKey == db.refundByKey && next.refunds == db.refunds
    ensures OwesNothing(db, next, p)
  {
    assert EventKey(Release, p) !in db.outbox && EventKey(Refund, p) !in db.outbox;
  }

  /** A key the payer has used for another job. */
  lemma UsedKeyConflicts(db: Db, c: Command, a: Answer)
    requires Drained(db) && c.FundCmd? && FreshInput(db, c, a.ref) && Payable(db.jobs, db.offers, c)
             && c.job !in db.paymentByJob
    requires db.jobs[c.job].status in {Published, Assigned} && c.key != NoKey && (c.me, c.key) in db.paymentByKey
    ensures SqlStep(db, c, a) == db
  {
    UsedKeyReply(db, c);
    NothingToDrain(db, EventKey(CreateHold, c.payment), a);
  }

  lemma UsedKeyReply(db: Db, c: Command)
    requires Drained(db) && c.FundCmd? && Payable(db.jobs, db.offers, c) && c.job !in db.paymentByJob
    requires db.jobs[c.job].status in {Published, Assigned} && c.key != NoKey && (c.me, c.key) in db.paymentByKey
    ensures FundReply(db, c.job, c.me, Payee(db.jobs, db.offers, c), c.chosen, c.amount, c.payment, c.key)
            == Throw(IdempotencyConflict)
  {
    assert AtRest(db, db.paymentByKey[(c.me, c.key)]);
  }

  /** A fund command that finds a payment, a used key or a wrong state changes nothing in either form. */
  lemma FundIdle(db: Db, c: Command, a: Answer)
    requires Drained(db) && c.FundCmd? && FreshInput(db, c, a.ref) && !FundsAnew(db, c)
    ensures SqlStep(db, c, a) == db && OffStep(Abs(db), c) == Abs(db)
  {
    if c.job in db.paymentByJob {
      assert AtRest(db, db.paymentByJob[c.job]);
    } else if Payable(db.jobs, db.offers, c) && db.jobs[c.job].status in {Published, Assigned} {
      UsedKeyConflicts(db, c, a);
    }
  }

  lemma FundSimulates(db: Db, c: Command, a: Answer)
    requires Drained(db) && c.FundCmd? && FreshInput(db, c, a.ref) && LargeEnough(db.jobs, c)
    ensures Abs(SqlStep(db, c, a)) == OffStep(Abs(db), c) && Drained(SqlStep(db, c, a))
  {
    if FundsAnew(db, c) {
      SqlFunds(db, c, a);
      AbsFunded(db, c, Payee(db.jobs, db.offers, c), a);
      FundedDrained(db, c, a);
    } else {
      FundIdle(db, c, a);
    }
  }

  /** The offline form has no check on small amounts: the two forms agree on a new payment if and only if the amount is
      large enough. */
  lemma FundingAgreesIff(db: Db, c: Command, a: Answer)
    requires Drained(db) && c.FundCmd? && FreshInput(db, c, a.ref) && FundsAnew(db, c)
    ensures Abs(SqlStep(db, c, a)) == OffStep(Abs(db), c) <==> LargeEnough(db.jobs, c)
  {
    SqlFunds(db, c, a);
    AbsFunded(db, c, Payee(db.jobs, db.offers, c), a);
    assert c.payment in OffStep(Abs(db), c).payments && c.payment !in Abs(db).payments;
  }

  // ---------- refund and release ----------

  function RefundedNow(db: Db, j: JobId, p: PaymentId, me: UserId, r: RefundId, key: Key, a: Answer): Db
    requires p in db.payments
  {
    var db1 := RequestRefundOf(db, j, p, me, r, key, a.now);
    if EventKey(Refund, p) in db1.outbox && r in db1.refunds then
      FinishRefund(Taken(db1, EventKey(Refund, p), a.now), p, r, Some(a.ref), PaymentRefund)
    else db1
  }

  function ReleasedNow(db: Db, j: JobId, p: PaymentId, me: UserId, a: Answer): Db
    requires p in db.payments
  {
    var db1 := QueueRelease(db, j, me, p, a.now);
    if EventKey(Release, p) in db1.outbox then
      FinishRelease(Taken(db1, EventKey(Release, p), a.now), p, db.payments[p].ref, PaymentRelease, PaymentPayout)
    else db1
  }

  predicate Refunds(db: Db, c: Command)
    requires c.RefundCmd?
  {
    HasPayment(db, c.job) && Owned(db.jobs, c.job, c.me) && db.payments[db.paymentByJob[c.job]].status == Held
  }

  predicate Releases(db: Db, c: Command)
    requires c.ReleaseCmd?
  {
    HasPayment(db, c.job) && Owned(db.jobs, c.job, c.me) && db.jobs[c.job].status == Completed
    && db.payments[db.paymentByJob[c.job]].status == ReleasePending
  }

  lemma HeldHasNoRefund(db: Db, p: PaymentId, key: Key)
    requires Drained(db) && p in db.payments && db.payments[p].status == Held
    ensures PriorRefund(db, p, key).None? && EventKey(Refund, p) !in db.outbox
            && Postable(RefundLines(db.payments[p].fees))
    ensures db.payments[p].job in db.jobs && !KeyUsed(Abs(db), p, key)
  {
    assert AtRest(db, p);
  }

  lemma RefundIsDrained(db: Db, c: Command, p: PaymentId, a: Answer)
    requires c.RefundCmd? && FreshInput(db, c, a.ref) && p in db.payments && db.payments[p].job == c.job
             && c.job in db.jobs
    requires PriorRefund(db, p, c.key).None? && EventKey(Refund, p) !in db.outbox
             && Postable(RefundLines(db.payments[p].fees))
    ensures Drain(RequestRefundOf(db, c.job, p, c.me, c.refund, c.key, a.now), EventKey(Refund, p), a)
            == RefundedNow(db, c.job, p, c.me, c.refund, c.key, a)
  {
    var db1 := RequestRefundOf(db, c.job, p, c.me, c.refund, c.key, a.now);
    assert db1.refunds == db.refunds[c.refund := db1.refunds[c.refund]];
    DrainRefund(db1, p, c.job, c.refund, db1.outbox[EventKey(Refund, p)].payload, a);
  }

  lemma SqlRefunds(db: Db, c: Command, a: Answer)
    requires Drained(db) && c.RefundCmd? && FreshInput(db, c, a.ref) && Refunds(db, c)
    ensures SqlStep(db, c, a) == RefundedNow(db, c.job, db.paymentByJob[c.job], c.me, c.refund, c.key, a)
  {
    var p := db.paymentByJob[c.job];
    assert AtRest(db, p);
    HeldHasNoRefund(db, p, c.key);
    RefundIsDrained(db, c, p, a);
    assert RefundReply(db, c.job, p, c.me, db.payments[p].amount, c.refund, c.key) == Queued;
  }

  /** Between commands the worker finds nothing to do. */
  lemma NothingToDrain(db: Db, k: EventKey, a: Answer)
    requires NoStrays(db)
    ensures Drain(db, k, a) == db
  {
  }

  lemma SqlRefundIdle(db: Db, c: Command, a: Answer)
    requires NoStrays(db) && c.RefundCmd?
    requires HasPayment(db, c.job) ==>
      var p := db.paymentByJob[c.job]; RefundReply(db, c.job, p, c.me, db.payments[p].amount, c.refund, c.key) != Queued
    ensures SqlStep(db, c, a) == db
  {
    if HasPayment(db, c.job) {
      NothingToDrain(db, EventKey(Refund, db.paymentByJob[c.job]), a);
    }
  }

  lemma OffRefundIdle(off: OffDb, c: Command)
    requires c.RefundCmd? && !(Owned(off.jobs, c.job, c.me) && OffStatus(off, c.job) == Some(Held))
    ensures OffStep(off, c) == off
  {
  }

  lemma RefundIdle(db: Db, c: Command, a: Answer)
    requires Drained(db) && c.RefundCmd? && !Refunds(db, c)
    ensures SqlStep(db, c, a) == db && OffStep(Abs(db), c) == Abs(db)
  {
    if HasPayment(db, c.job) {
      assert AtRest(db, db.paymentByJob[c.job]);
    }
    SqlRefundIdle(db, c, a);
    StatusAgrees(db, c.job);
    OffRefundIdle(Abs(db), c);
  }

  lemma ReleaseIsDrained(db: Db, c: Command, p: PaymentId, a: Answer)
    requires Drained(db) && c.ReleaseCmd? && p in db.payments && db.payments[p].job == c.job
             && db.payments[p].status == ReleasePending
    ensures p !in db.settlements && EventKey(Release, p) !in db.outbox
    ensures Drain(QueueRelease(db, c.job, c.me, p, a.now), EventKey(Release, p), a)
            == ReleasedNow(db, c.job, p, c.me, a)
  {
    assert AtRest(db, p);
    var db1 := QueueRelease(db, c.job, c.me, p, a.now);
    assert !SettlementRefTaken(db1.settlements, db.payments[p].ref, p);
    DrainRelease(db1, p, c.job, db1.outbox[EventKey(Release, p)].payload, a);
  }

  lemma SqlReleases(db: Db, c: Command, a: Answer)
    requires Drained(db) && c.ReleaseCmd? && Releases(db, c)
    ensures SqlStep(db, c, a) == ReleasedNow(db, c.job, db.paymentByJob[c.job], c.me, a)
  {
    var p := db.paymentByJob[c.job];
    ReleaseIsDrained(db, c, p, a);
    assert ReleaseReply(db, c.job, c.me, p) == Queued;
  }

  lemma SqlReleaseIdle(db: Db, c: Command, a: Answer)
    requires NoStrays(db) && c.ReleaseCmd?
             && (HasPayment(db, c.job) ==> ReleaseReply(db, c.job, c.me, db.paymentByJob[c.job]) != Queued)
    ensures SqlStep(db, c, a) == db
  {
    if HasPayment(db, c.job) {
      NothingToDrain(db, EventKey(Release, db.paymentByJob[c.job]), a);
    }
  }

  lemma OffReleaseIdle(off: OffDb, c: Command)
    requires c.ReleaseCmd?
    requires !(Owned(off.jobs, c.job, c.me) && off.jobs[c.job].status == Completed
               && OffStatus(off, c.job) in {Some(ReleasePending), Some(ReleaseFailed)})
    ensures OffStep(off, c) == off
  {
  }

  lemma ReleaseIdle(db: Db, c: Command, a: Answer)
    requires Drained(db) && c.ReleaseCmd? && !Releases(db, c)
    ensures SqlStep(db, c, a) == db && OffStep(Abs(db), c) == Abs(db)
  {
    if HasPayment(db, c.job) {
      assert AtRest(db, db.paymentByJob[c.job]);
    }
    SqlReleaseIdle(db, c, a);
    StatusAgrees(db, c.job);
    OffReleaseIdle(Abs(db), c);
  }

  /** The rows of an accepted request. */
  predicate RequestWrote(db: Db, next: Db, p: PaymentId, r: RefundId, key: Key)
    requires p in db.payments
  {
    var k := EventKey(Refund, p);
    && k in next.outbox && r in next.refunds && next.refunds[r].payment == p
    && next == db.(payments := db.payments[p := db.payments[p].(status := RefundPending)],
                   refunds := db.refunds[r := next.refunds[r]],
                   refundByKey := if key == NoKey then db.refundByKey else db.refundByKey[(p, key) := r],
                   outbox := db.outbox[k := next.outbox[k]])
  }

  /** The rows of the commit. */
  predicate CommitWrote(db: Db, next: Db, p: PaymentId, r: RefundId)
    requires p in db.payments && r in db.refunds
  {
    var k := EventKey(Refund, p);
    && next.payments == db.payments[p := db.payments[p].(status := PaymentStatus.Refunded)]
    && k in next.outbox && next.outbox[k].status == EventStatus.Done
    && r in next.refunds && next.refunds[r].payment == db.refunds[r].payment
    && next == db.(jobs := next.jobs, payments := next.payments, refunds := db.refunds[r := next.refunds[r]],
                   outbox := db.outbox[k := next.outbox[k]], ledger := next.ledger, nextId := next.nextId)
    && next.jobs.Keys == db.jobs.Keys
  }

  /** The rows of both. */
  predicate RefundWrote(db: Db, next: Db, p: PaymentId, r: RefundId, key: Key)
    requires p in db.payments
  {
    var k := EventKey(Refund, p);
    && next.payments == db.payments[p := db.payments[p].(status := PaymentStatus.Refunded)]
    && k in next.outbox && next.outbox[k].status == EventStatus.Done
    && r in next.refunds && next.refunds[r].payment == p
    && next == db.(jobs := next.jobs, payments := next.payments, refunds := db.refunds[r := next.refunds[r]],
                   refundByKey := if key == NoKey then db.refundByKey else db.refundByKey[(p, key) := r],
                   outbox := db.outbox[k := next.outbox[k]], ledger := next.ledger, nextId := next.nextId)
    && next.jobs.Keys == db.jobs.Keys
  }

  lemma WritesCompose(db: Db, db1: Db, next: Db, p: PaymentId, r: RefundId, key: Key)
    requires p in db.payments && RequestWrote(db, db1, p, r, key) && CommitWrote(db1, next, p, r)
    ensures RefundWrote(db, next, p, r, key)
  {
  }

  lemma RequestedShape(db: Db, j: JobId, p: PaymentId, me: UserId, r: RefundId, key: Key, now: int)
    requires p in db.payments && r !in db.refunds && PriorRefund(db, p, key).None? && EventKey(Refund, p) !in db.outbox
    ensures RequestWrote(db, RequestRefundOf(db, j, p, me, r, key, now), p, r, key)
  {
    assert RequestedRow(db, p, r, key) == r;
  }

  lemma FinishedShape(db: Db, p: PaymentId, r: RefundId, now: int, ref: Ref)
    requires p in db.payments && r in db.refunds && EventKey(Refund, p) in db.outbox
    ensures CommitWrote(db, FinishRefund(Taken(db, EventKey(Refund, p), now), p, r, Some(ref), PaymentRefund), p, r)
  {
  }

  /** Which rows a refund and a release write, once they are through. */
  lemma RefundedShape(db: Db, j: JobId, p: PaymentId, me: UserId, r: RefundId, key: Key, a: Answer)
    requires p in db.payments && r !in db.refunds && PriorRefund(db, p, key).None? && EventKey(Refund, p) !in db.outbox
    ensures RefundWrote(db, RefundedNow(db, j, p, me, r, key, a), p, r, key)
  {
    var db1 := RequestRefundOf(db, j, p, me, r, key, a.now);
    RequestedShape(db, j, p, me, r, key, a.now);
    FinishedShape(db1, p, r, a.now, a.ref);
    WritesCompose(db, db1, FinishRefund(Taken(db1, EventKey(Refund, p), a.now), p, r, Some(a.ref), PaymentRefund), p, r,
                  key);
  }

  lemma ReleasedShape(db: Db, j: JobId, p: PaymentId, me: UserId, a: Answer)
    requires p in db.payments && p !in db.settlements && EventKey(Release, p) !in db.outbox
    ensures var next := ReleasedNow(db, j, p, me, a);
            var k := EventKey(Release, p);
            && next.payments == db.payments[p := db.payments[p].(status := Released)]
            && k in next.outbox && next.outbox[k].status == EventStatus.Done
            && p in next.settlements && next.settlements[p].ref == db.payments[p].ref
            && next == db.(jobs := next.jobs, payments := next.payments,
                           settlements := db.settlements[p := next.settlements[p]],
                           outbox := db.outbox[k := next.outbox[k]], ledger := next.ledger, nextId := next.nextId)
            && next.jobs.Keys == db.jobs.Keys
  {
  }

  lemma RefundedIsLocal(db: Db, next: Db, p: PaymentId, r: RefundId, key: Key)
    requires p in db.payments && RefundWrote(db, next, p, r, key)
    ensures Local(db, next, p)
  {
  }

  /** A payment that moves on from rest owes nothing when its events and its settlement go with its new status. */
  lemma MovedOwesNothing(db: Db, next: Db, p: PaymentId, to: PaymentStatus)
    requires Drained(db) && p in db.payments && db.payments[p].status in {Held, ReleasePending}
    requires next.payments == db.payments[p := db.payments[p].(status := to)] && next.paymentByJob == db.paymentByJob
             && next.jobs.Keys == db.jobs.Keys
    requires to in {ReleasePending, Released, PaymentStatus.Refunded}
    requires EventKey(Release, p) in next.outbox ==> to == Released
    requires EventKey(Refund, p) in next.outbox ==> to == PaymentStatus.Refunded
    requires p in next.settlements <==> to == Released
    requires p in next.settlements ==> next.settlements[p].ref == db.payments[p].ref
    requires to != PaymentStatus.Refunded ==> next.refundByKey == db.refundByKey && next.refunds == db.refunds
    ensures p in next.payments && OwesNothing(db, next, p)
  {
    assert AtRest(db, p);
  }

  lemma ReleasedIsLocal(db: Db, next: Db, p: PaymentId)
    requires p in db.payments
    requires next.payments == db.payments[p := db.payments[p].(status := Released)] && next.jobs.Keys == db.jobs.Keys
    requires var k := EventKey(Release, p);
             && k in next.outbox && next.outbox[k].status == EventStatus.Done && p in next.settlements
             && next == db.(jobs := next.jobs, payments := next.payments,
                            settlements := db.settlements[p := next.settlements[p]],
                            outbox := db.outbox[k := next.outbox[k]], ledger := next.ledger, nextId := next.nextId)
    ensures Local(db, next, p)
  {
  }

  lemma RefundedDrained(db: Db, j: JobId, p: PaymentId, me: UserId, r: RefundId, key: Key, a: Answer)
    requires Drained(db) && p in db.payments && db.payments[p].status == Held && r !in db.refunds
    requires PriorRefund(db, p, key).None? && EventKey(Refund, p) !in db.outbox
    ensures Drained(RefundedNow(db, j, p, me, r, key, a))
  {
    var next := RefundedNow(db, j, p, me, r, key, a);
    RefundedShape(db, j, p, me, r, key, a);
    RefundedIsLocal(db, next, p, r, key);
    assert AtRest(db, p);
    MovedOwesNothing(db, next, p, PaymentStatus.Refunded);
    LocalKeepsDrained(db, next, p);
  }

  lemma ReleasedDrained(db: Db, j: JobId, p: PaymentId, me: UserId, a: Answer)
    requires Drained(db) && p in db.payments && db.payments[p].status == ReleasePending
    requires p !in db.settlements && EventKey(Release, p) !in db.outbox
    ensures Drained(ReleasedNow(db, j, p, me, a))
  {
    var next := ReleasedNow(db, j, p, me, a);
    ReleasedShape(db, j, p, me, a);
    ReleasedIsLocal(db, next, p);
    assert AtRest(db, p);
    MovedOwesNothing(db, next, p, Released);
    LocalKeepsDrained(db, next, p);
  }

  lemma RefundSimulates(db: Db, c: Command, a: Answer)
    requires Drained(db) && c.RefundCmd? && FreshInput(db, c, a.ref)
    ensures Abs(SqlStep(db, c, a)) == OffStep(Abs(db), c) && Drained(SqlStep(db, c, a))
  {
    if Refunds(db, c) {
      var p := db.paymentByJob[c.job];
      SqlRefunds(db, c, a);
      HeldHasNoRefund(db, p, c.key);
      AbsRefunded(db, c.job, p, c.me, c.refund, c.key, a);
      RefundedDrained(db, c.job, p, c.me, c.refund, c.key, a);
    } else {
      RefundIdle(db, c, a);
    }
  }

  lemma ReleaseSimulates(db: Db, c: Command, a: Answer)
    requires Drained(db) && c.ReleaseCmd?
    ensures Abs(SqlStep(db, c, a)) == OffStep(Abs(db), c) && Drained(SqlStep(db, c, a))
  {
    if Releases(db, c) {
      var p := db.paymentByJob[c.job];
      SqlReleases(db, c, a);
      ReleaseIsDrained(db, c, p, a);
      AbsReleased(db, c.job, p, c.me, a);
      ReleasedDrained(db, c.job, p, c.me, a);
    } else {
      ReleaseIdle(db, c, a);
    }
  }

  // ---------- start, deliver, accept ----------

  lemma UpdateSimulates(db: Db, j: JobId, from: JobStatus, to: JobStatus)
    requires Drained(db) && j in db.jobs
    ensures var next := UpdateJob(db, j, {from}, to).0;
            && Abs(next) == (if db.jobs[j].status == from then Abs(db).(jobs := SetJobStatus(db.jobs, j, to))
                             else Abs(db))
            && Drained(next)
  {
    if db.jobs[j].status == from {
      JobKeepsDrained(db, db.(jobs := SetJobStatus(db.jobs, j, to)));
    }
  }

  lemma StatusAgrees(db: Db, j: JobId)
    ensures OffStatus(Abs(db), j) == SqlStatus(db, j)
  {
  }

  lemma StartSimulates(db: Db, c: Command, a: Answer)
    requires Drained(db) && c.StartCmd?
    ensures Abs(SqlStep(db, c, a)) == OffStep(Abs(db), c) && Drained(SqlStep(db, c, a))
  {
    StatusAgrees(db, c.job);
    if Provided(db.jobs, c.job, c.me) && SqlStatus(db, c.job) == Some(Held) {
      UpdateSimulates(db, c.job, JobStatus.Funded, InProgress);
    }
  }

  lemma DeliverSimulates(db: Db, c: Command, a: Answer)
    requires Drained(db) && c.DeliverCmd?
    ensures Abs(SqlStep(db, c, a)) == OffStep(Abs(db), c) && Drained(SqlStep(db, c, a))
  {
    if Provided(db.jobs, c.job, c.me) {
      UpdateSimulates(db, c.job, InProgress, Delivered);
    }
  }

  lemma CompletedIsLocal(db: Db, j: JobId, p: PaymentId)
    requires p in db.payments
    ensures Local(db, CompleteJob(db, j, p), p)
  {
  }

  lemma CompletedDrained(db: Db, j: JobId, p: PaymentId)
    requires Drained(db) && p in db.payments && db.payments[p].status == Held
    ensures Drained(CompleteJob(db, j, p))
  {
    var next := CompleteJob(db, j, p);
    assert AtRest(db, p);
    MovedOwesNothing(db, next, p, ReleasePending);
    CompletedIsLocal(db, j, p);
    LocalKeepsDrained(db, next, p);
  }

  lemma AcceptIdle(db: Db, c: Command, a: Answer)
    requires c.AcceptCmd? && !(Owned(db.jobs, c.job, c.me) && AcceptDeliveryReply(db, c.job) == Updated)
    ensures SqlStep(db, c, a) == db && OffStep(Abs(db), c) == Abs(db)
  {
    StatusAgrees(db, c.job);
  }

  lemma AcceptSimulates(db: Db, c: Command, a: Answer)
    requires Drained(db) && c.AcceptCmd?
    ensures Abs(SqlStep(db, c, a)) == OffStep(Abs(db), c) && Drained(SqlStep(db, c, a))
  {
    if Owned(db.jobs, c.job, c.me) && AcceptDeliveryReply(db, c.job) == Updated {
      var p := db.paymentByJob[c.job];
      StatusAgrees(db, c.job);
      AbsCompleted(db, c.job, p);
      CompletedDrained(db, c.job, p);
    } else {
      AcceptIdle(db, c, a);
    }
  }

  lemma AbsCompleted(db: Db, j: JobId, p: PaymentId)
    requires p in db.payments
    ensures Abs(CompleteJob(db, j, p))
            == OffMove(Abs(db), p, ReleasePending).(jobs := SetJobStatus(db.jobs, j, Completed))
  {
    AbsPaymentUpdate(db.payments, p, db.payments[p].(status := ReleasePending));
  }

  // ---------- the theorem ----------

  /** One command: both forms reach the same jobs, offers, payments, refunds, settlements and ledger lines. */
  lemma CommandSimulates(db: Db, c: Command, a: Answer)
    requires Drained(db) && FreshInput(db, c, a.ref) && LargeEnough(db.jobs, c)
    ensures Abs(SqlStep(db, c, a)) == OffStep(Abs(db), c) && Drained(SqlStep(db, c, a))
  {
    match c {
      case FundCmd(_, _, _, _, _, _, _) => FundSimulates(db, c, a);
      case StartCmd(_, _) => StartSimulates(db, c, a);
      case DeliverCmd(_, _) => DeliverSimulates(db, c, a);
      case AcceptCmd(_, _) => AcceptSimulates(db, c, a);
      case RefundCmd(_, _, _, _) => RefundSimulates(db, c, a);
      case ReleaseCmd(_, _) => ReleaseSimulates(db, c, a);
    }
  }

  /** Along a run every id and reference is new when it is used, and funded amounts are large enough. */
  predicate GoodRun(db: Db, cs: seq<Command>, answers: seq<Answer>)
    requires |cs| == |answers|
    decreases |cs|
  {
    cs == [] || (FreshInput(db, cs[0], answers[0].ref) && LargeEnough(db.jobs, cs[0])
                 && GoodRun(SqlStep(db, cs[0], answers[0]), cs[1..], answers[1..]))
  }

  /** Every sequence of fund, start, deliver, accept, refund and release commands, by anybody on any jobs. */
  lemma {:induction false} RunsAgree(db: Db, cs: seq<Command>, answers: seq<Answer>)
    requires |cs| == |answers| && Drained(db) && GoodRun(db, cs, answers)
    ensures Abs(SqlRun(db, cs, answers)) == OffRun(Abs(db), cs) && Drained(SqlRun(db, cs, answers))
    decreases |cs|
  {
    if cs != [] {
      CommandSimulates(db, cs[0], answers[0]);
      RunsAgree(SqlStep(db, cs[0], answers[0]), cs[1..], answers[1..]);
    }
  }

  /** Debits minus credits of one account of one payment in the offline ledger. */
  function OffBalance(lines: seq<OffLine>, p: PaymentId, account: Account): int {
    if lines == [] then 0
    else
      var last := lines[|lines|-1];
      OffBalance(lines[..|lines|-1], p, account)
      + (if last.payment == p && last.line.account == account then last.line.debit - last.line.credit else 0)
  }

  lemma OffBalanceStep(front: seq<OffLine>, last: OffLine, p: PaymentId, account: Account)
    ensures OffBalance(front + [last], p, account)
            == OffBalance(front, p, account)
              + (if last.payment == p && last.line.account == account then last.line.debit - last.line.credit else 0)
  {
    assert (front + [last])[..|front + [last]|-1] == front;
  }

  lemma EntriesStep(front: seq<Entry>, last: Entry, p: PaymentId, account: Account)
    ensures Balance(EntriesOf(front + [last], p), account)
            == Balance(EntriesOf(front, p), account)
               + (if last.payment == p && last.line.account == account then last.line.debit - last.line.credit else 0)
  {
    assert (front + [last])[..|front + [last]|-1] == front;
    var own := EntriesOf(front, p);
    if last.payment == p {
      assert (own + [last])[..|own + [last]|-1] == own;
    } else {
      assert own + [] == own;
    }
  }

  lemma AbsStep(front: seq<Entry>, last: Entry)
    ensures AbsLedger(front + [last]) == AbsLedger(front) + [OffLine(last.payment, last.line)]
  {
  }

  lemma {:induction false} BalanceOfAbs(ledger: seq<Entry>, p: PaymentId, account: Account)
    ensures OffBalance(AbsLedger(ledger), p, account) == Balance(EntriesOf(ledger, p), account)
  {
    if ledger != [] {
      var front, last := ledger[..|ledger|-1], ledger[|ledger|-1];
      assert ledger == front + [last];
      BalanceOfAbs(front, p, account);
      AbsStep(front, last);
      OffBalanceStep(AbsLedger(front), OffLine(last.payment, last.line), p, account);
      EntriesStep(front, last, p, account);
    }
  }

  /** So the four balances of every payment agree too. */
  lemma BalancesAgree(db: Db, cs: seq<Command>, answers: seq<Answer>, p: PaymentId, account: Account)
    requires |cs| == |answers| && Drained(db) && GoodRun(db, cs, answers)
    ensures OffBalance(OffRun(Abs(db), cs).lines, p, account)
            == Balance(EntriesOf(SqlRun(db, cs, answers).ledger, p), account)
  {
    RunsAgree(db, cs, answers);
    BalanceOfAbs(SqlRun(db, cs, answers).ledger, p, account);
  }

  /** Jobs, offers and applications, and no payment yet. */
  function BoardOf(jobs: map<JobId, Job>, offers: map<OfferId, Offer>, applications: map<ApplicationId,
      Application>): Db {
    EMPTY.(jobs := jobs, offers := offers, applications := applications)
  }

  /** From any board without payments the two forms reach the same state and the same balances. */
  lemma BoardsAgree(jobs: map<JobId, Job>, offers: map<OfferId, Offer>, applications: map<ApplicationId, Application>,
      cs: seq<Command>, answers: seq<Answer>, p: PaymentId, account: Account)
    requires |cs| == |answers| && GoodRun(BoardOf(jobs, offers, applications), cs, answers)
    ensures var sql := SqlRun(BoardOf(jobs, offers, applications), cs, answers);
            var off := OffRun(OffDb(jobs, offers, map[], map[], map[], map[], map[], []), cs);
            Abs(sql) == off && OffBalance(off.lines, p, account) == Balance(EntriesOf(sql.ledger, p), account)
  {
    var board := BoardOf(jobs, offers, applications);
    assert Drained(board);
    assert Abs(board) == OffDb(jobs, offers, map[], map[], map[], map[], map[], []);
    RunsAgree(board, cs, answers);
    BalancesAgree(board, cs, answers, p, account);
  }
}
