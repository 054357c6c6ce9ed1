/** Every transaction keeps the joint invariant. */
module Preservation {
  import opened Options
  import opened Money
  import opened Schema
  import opened Transactions
  import opened Outcomes
  import opened Ledger
  import opened Invariant

  // ---------- ledger shapes ----------

  lemma AppendKeepsFunding(p: PaymentId, f: Fees, rows: seq<Entry>, more: seq<Entry>)
    requires |rows| == 3 && FundingRows(p, f, rows)
    ensures (rows + more)[..3] == rows && (rows + more)[3..] == more
  {
  }

  /** The ledger of a payment right after its funding journal. */
  lemma FundingJournalPosted(db: Db, p: PaymentId, f: Fees)
    requires EntriesOf(db.ledger, p) == []
    ensures var rows := EntriesOf(Post(db, PaymentFund, p, FundingLines(f)).ledger, p);
            |rows| == 3 && FundingRows(p, f, rows)
  {
    PostEntries(db, PaymentFund, p, FundingLines(f));
  }

  predicate OldJournals(ledger: seq<Entry>, bound: nat) {
    forall i :: 0 <= i < |ledger| ==> ledger[i].journal < bound
  }

  lemma {:induction false} EntriesAreOld(ledger: seq<Entry>, p: PaymentId, bound: nat)
    requires OldJournals(ledger, bound)
    ensures OldJournals(EntriesOf(ledger, p), bound)
  {
    if ledger != [] {
      EntriesAreOld(ledger[..|ledger|-1], p, bound);
    }
  }

  lemma RefundPosted(db: Db, reference: Reference, p: PaymentId, pay: Payment, after: Payment)
    requires OldJournals(db.ledger, db.nextId)
    requires RowsFollowStatus(p, pay, EntriesOf(db.ledger, p)) && pay.status !in {Released, PaymentStatus.Refunded}
    requires after == pay.(status := PaymentStatus.Refunded)
    ensures RowsFollowStatus(p, after, EntriesOf(Post(db, reference, p, RefundLines(pay.fees)).ledger, p))
  {
    var rows := EntriesOf(db.ledger, p);
    EntriesAreOld(db.ledger, p, db.nextId);
    PostEntries(db, reference, p, RefundLines(pay.fees));
    assert rows[..3] == rows;
    AppendKeepsFunding(p, pay.fees, rows, Rows(db.nextId, reference, p, RefundLines(pay.fees)));
  }

  lemma ReleasePosted(db: Db, reference: Reference, payout: Reference, p: PaymentId, pay: Payment, after: Payment)
    requires OldJournals(db.ledger, db.nextId)
    requires RowsFollowStatus(p, pay, EntriesOf(db.ledger, p)) && pay.status !in {Released, PaymentStatus.Refunded}
    requires after == pay.(status := Released)
    ensures var db1 := Post(db, reference, p, ReleaseLines(pay.fees));
            RowsFollowStatus(p, after, EntriesOf(Post(db1, payout, p, PayoutLines(pay.fees)).ledger, p))
  {
    var rows := EntriesOf(db.ledger, p);
    EntriesAreOld(db.ledger, p, db.nextId);
    var db1 := Post(db, reference, p, ReleaseLines(pay.fees));
    var a := Rows(db.nextId, reference, p, ReleaseLines(pay.fees));
    var b := Rows(db1.nextId, payout, p, PayoutLines(pay.fees));
    PostEntries(db, reference, p, ReleaseLines(pay.fees));
    PostEntries(db1, payout, p, PayoutLines(pay.fees));
    assert rows[..3] == rows;
    assert rows + a + b == rows + (a + b);
    AppendKeepsFunding(p, pay.fees, rows, a + b);
    assert (a + b)[..2] == a && (a + b)[2..] == b;
  }

  lemma FeesPostable(f: Fees)
    requires FeesOk(f)
    ensures Postable(FundingLines(f)) && Postable(ReleaseLines(f)) && Postable(PayoutLines(f))
            && Postable(RefundLines(f))
  {
    JournalsBalance(f);
  }

  lemma PostableFeesOk(kind: Kind, amount: nat)
    requires ValidCents(amount) && Postable(FundingLines(Breakdown(kind, amount)))
    ensures FeesOk(Breakdown(kind, amount)) && Breakdown(kind, amount).base == amount
  {
    var f := Breakdown(kind, amount);
    assert OneSided(FundingLines(f)[2]);
  }

  // ---------- assembling ----------

  predicate RefundsStay(db: Db, next: Db, q: PaymentId) {
    forall r :: r in db.refunds && db.refunds[r].payment == q ==>
        Get(next.refunds, r).Some? && next.refunds[r].payment == q
  }

  /** A step on payment q that keeps the indexes and the other payments only owes the view of q. */
  lemma Assemble(db: Db, next: Db, q: PaymentId)
    requires Core(db)
    requires OthersKept(db, next, q) && RefundsStay(db, next, q)
    requires JobIndexOk(next.jobs, next.payments, next.paymentByJob) && KeyIndexOk(next.payments, next.paymentByKey)
    requires RefundIndexOk(next.refunds, next.refundByKey) && Owned(next) && JournalsBalanced(next.ledger)
    requires q in next.payments && ViewOk(q, ViewOf(next, q))
    ensures Core(next)
  {
    FrameViews(db, next, q);
  }

  /** Steps that change no payment table. */
  lemma BystanderStep(db: Db, next: Db)
    requires Core(db)
    requires next == db.(jobs := next.jobs, offers := next.offers, applications := next.applications,
                         webhooks := next.webhooks)
    requires forall j :: j in db.paymentByJob && j in db.jobs ==> j in next.jobs
    ensures Core(next)
  {
    forall p | p in next.payments ensures ViewOk(p, ViewOf(next, p)) {
      assert ViewOf(next, p) == ViewOf(db, p);
    }
  }

  lemma LightFrame(db: Db, next: Db, p: PaymentId, after: Payment, k: EventKey, event: Event)
    requires p in db.payments && k.payment == p
    requires next == db.(jobs := next.jobs, webhooks := next.webhooks, nextId := next.nextId,
                         payments := db.payments[p := after],
                         outbox := db.outbox[k := event])
    ensures OthersKept(db, next, p) && RefundsStay(db, next, p)
  {
  }

  lemma LightOwned(db: Db, next: Db, p: PaymentId, after: Payment, k: EventKey, event: Event)
    requires Owned(db) && p in db.payments && k.payment == p
    requires (event.token.Some? ==> event.token.value < next.nextId) && db.nextId <= next.nextId
    requires next == db.(jobs := next.jobs, webhooks := next.webhooks, nextId := next.nextId,
                         payments := db.payments[p := after],
                         outbox := db.outbox[k := event])
    ensures Owned(next)
  {
  }

  /** Steps that rewrite one payment row and one of its events and nothing else that matters here. */
  lemma LightStep(db: Db, next: Db, p: PaymentId, after: Payment, k: EventKey, event: Event)
    requires Core(db)
    requires p in db.payments && after.job == db.payments[p].job && after.payer == db.payments[p].payer
             && after.key == db.payments[p].key
    requires k.payment == p && (event.token.Some? ==> event.token.value < next.nextId) && db.nextId <= next.nextId
    requires next == db.(jobs := next.jobs, webhooks := next.webhooks, nextId := next.nextId,
                         payments := db.payments[p := after],
                         outbox := db.outbox[k := event])
    requires next.jobs.Keys >= db.jobs.Keys
    requires ViewOk(p, ViewOf(next, p))
    ensures Core(next)
  {
    UpdateKeepsIndexes(db, p, after);
    LightFrame(db, next, p, after, k, event);
    LightOwned(db, next, p, after, k, event);
    Assemble(db, next, p);
  }

  lemma EventView(db: Db, next: Db, k: EventKey, event: Event)
    requires next == db.(outbox := db.outbox[k := event], nextId := next.nextId) && k.payment in db.payments
    ensures ViewOf(next, k.payment) == SetEvent(ViewOf(db, k.payment), k.kind, event)
  {
    match k.kind {
      case CreateHold => assert k == EventKey(CreateHold, k.payment);
      case Release => assert k == EventKey(Release, k.payment);
      case Refund => assert k == EventKey(Refund, k.payment);
    }
  }

  lemma EventInView(db: Db, k: EventKey)
    requires k.payment in db.payments
    ensures EventAt(ViewOf(db, k.payment), k.kind) == Get(db.outbox, k)
  {
    match k.kind {
      case CreateHold => assert k == EventKey(CreateHold, k.payment);
      case Release => assert k == EventKey(Release, k.payment);
      case Refund => assert k == EventKey(Refund, k.payment);
    }
  }

  lemma EventStep(db: Db, next: Db, k: EventKey, event: Event)
    requires Core(db) && k in db.outbox
    requires (event.token.Some? ==> event.token.value < next.nextId) && db.nextId <= next.nextId
    requires next == db.(outbox := db.outbox[k := event], nextId := next.nextId)
    requires k.payment in db.payments && ViewOk(k.payment, SetEvent(ViewOf(db, k.payment), k.kind, event))
    ensures Core(next)
  {
    assert db.payments[k.payment := db.payments[k.payment]] == db.payments;
    EventView(db, next, k, event);
    LightStep(db, next, k.payment, db.payments[k.payment], k, event);
  }

  /** As LightStep, without an event. */
  lemma PaymentStep(db: Db, next: Db, p: PaymentId, after: Payment)
    requires Core(db)
    requires p in db.payments && after.job == db.payments[p].job && after.payer == db.payments[p].payer
             && after.key == db.payments[p].key
    requires next == db.(jobs := next.jobs, webhooks := next.webhooks, payments := db.payments[p := after])
    requires next.jobs.Keys >= db.jobs.Keys
    requires ViewOk(p, ViewOf(next, p))
    ensures Core(next)
  {
    ViewAt(db, p);
    var k := EventKey(CreateHold, p);
    assert db.outbox[k := db.outbox[k]] == db.outbox;
    LightStep(db, next, p, after, k, db.outbox[k]);
  }

  /** A payment update that keeps job, payer and key keeps the indexes. */
  lemma UpdateKeepsIndexes(db: Db, p: PaymentId, after: Payment)
    requires JobIndexOk(db.jobs, db.payments, db.paymentByJob) && KeyIndexOk(db.payments, db.paymentByKey)
    requires p in db.payments && after.job == db.payments[p].job && after.payer == db.payments[p].payer
             && after.key == db.payments[p].key
    ensures JobIndexOk(db.jobs, db.payments[p := after], db.paymentByJob)
            && KeyIndexOk(db.payments[p := after], db.paymentByKey)
  {
  }

  lemma ViewAt(db: Db, p: PaymentId)
    requires Core(db) && p in db.payments
    ensures ViewOk(p, ViewOf(db, p))
  {
  }

  // ---------- what each step does to the view of its payment ----------

  lemma HoldQueuedAgain(p: PaymentId, v: View, key: Key, event: Event)
    requires ViewOk(p, v) && v.pay.status == HoldFailed && (v.pay.key != NoKey ==> key == v.pay.key)
    requires event == v.hold.value.(status := EventStatus.Pending, availableAt := event.availableAt, lockedAt := None)
    ensures ViewOk(p, v.(pay := v.pay.(status := HoldPending, key := key), hold := Some(event)))
  {
  }

  lemma DeliveryAccepted(p: PaymentId, v: View)
    requires ViewOk(p, v) && v.pay.status == Held
    ensures ViewOk(p, v.(pay := v.pay.(status := ReleasePending)))
  {
  }

  lemma HoldConfirmed(p: PaymentId, v: View, ref: Ref, hold: Event)
    requires ViewOk(p, v) && v.pay.status == HoldPending && hold.payload == v.hold.value.payload
    ensures ViewOk(p, v.(pay := v.pay.(status := Held, ref := ref), hold := Some(hold)))
  {
  }

  lemma RefundAsked(p: PaymentId, v: View, r: RefundId, row: RefundRow, event: Event)
    requires ViewOk(p, v) && v.pay.status == Held
    requires row.payment == p && row.amount == v.pay.amount && row.status == RefundStatus.Pending
    requires r in v.refunds ==> v.refunds[r].status == RefundStatus.Failed
    requires event.status == EventStatus.Pending
    requires v.refund.Some? ==> event.payload == v.refund.value.payload
    requires v.refund.None? ==> RefundFits(p, v.pay, event.payload) && event.payload.refund == r
    ensures ViewOk(p, v.(pay := v.pay.(status := RefundPending), refunds := v.refunds[r := row], refund := Some(event)))
  {
    var w := v.(pay := v.pay.(status := RefundPending), refunds := v.refunds[r := row], refund := Some(event));
    assert w.refunds[r].status == RefundStatus.Pending;
  }

  lemma RefundFinished(p: PaymentId, v: View, r: RefundId, row: RefundRow, refund: Event, rows: seq<Entry>)
    requires ViewOk(p, v) && v.pay.status == RefundPending
    requires r in v.refunds && row == v.refunds[r].(status := RefundStatus.Refunded, ref := row.ref)
    requires refund.payload == v.refund.value.payload
    requires RowsFollowStatus(p, v.pay.(status := PaymentStatus.Refunded), rows)
    ensures ViewOk(p,
                   v.(pay := v.pay.(status := PaymentStatus.Refunded), refunds := v.refunds[r := row],
                      refund := Some(refund), rows := rows))
  {
    var w := v.(pay := v.pay.(status := PaymentStatus.Refunded), refunds := v.refunds[r := row], refund := Some(refund),
                rows := rows);
    assert w.refunds[r].status == RefundStatus.Refunded;
  }

  lemma ReleaseQueued(p: PaymentId, v: View, event: Event)
    requires ViewOk(p, v) && v.pay.status in {ReleasePending, ReleaseFailed}
    requires event.status == EventStatus.Pending
    requires if v.release.Some? then event.payload == v.release.value.payload else ReleaseFits(p, v.pay, event.payload)
    ensures ViewOk(p, v.(pay := v.pay.(status := ReleasePending), release := Some(event)))
  {
  }

  lemma ReleaseFinished(p: PaymentId, v: View, release: Option<Event>, settlement: Settlement, rows: seq<Entry>)
    requires ViewOk(p, v) && v.pay.status in {ReleasePending, ReleaseFailed}
    requires release.Some? <==> v.release.Some?
    requires release.Some? ==> release.value.payload == v.release.value.payload
    requires settlement.amount == v.pay.fees.payout && settlement.currency == v.pay.currency
    requires RowsFollowStatus(p, v.pay.(status := Released), rows)
    ensures ViewOk(p,
                   v.(pay := v.pay.(status := Released), release := release, settlement := Some(settlement),
                      rows := rows))
  {
  }

  function EventAt(v: View, kind: EventKind): Option<Event> {
    match kind case CreateHold => v.hold case Release => v.release case Refund => v.refund
  }

  function SetEvent(v: View, kind: EventKind, event: Event): View {
    match kind
    case CreateHold => v.(hold := Some(event))
    case Release => v.(release := Some(event))
    case Refund => v.(refund := Some(event))
  }

  /** A live event may be claimed, may go back to the queue, and may be marked done once its payment has moved on. */
  lemma EventMoved(p: PaymentId, v: View, kind: EventKind, event: Event)
    requires ViewOk(p, v)
    requires EventAt(v, kind).Some? && event.payload == EventAt(v, kind).value.payload
    requires !Dead(EventAt(v, kind)) && event.status in {EventStatus.Pending, EventStatus.Processing}
    ensures ViewOk(p, SetEvent(v, kind, event))
  {
    var w := SetEvent(v, kind, event);
    assert RefundRowsFit(p, w) && RowsFollowStatus(p, w.pay, w.rows) && SettlementFollowsStatus(w);
    assert EventsFollowStatus(w) && PayloadsFit(p, w);
  }

  lemma EventDone(p: PaymentId, v: View, kind: EventKind, event: Event)
    requires ViewOk(p, v)
    requires EventAt(v, kind).Some? && event.payload == EventAt(v, kind).value.payload
    requires match kind
             case CreateHold => v.pay.status == Held
             case Release => v.pay.status == Released
             case Refund => v.pay.status == PaymentStatus.Refunded
    ensures ViewOk(p, SetEvent(v, kind, event))
  {
  }

  function Compensated(pay: Payment, kind: EventKind): Payment {
    match (kind, pay.status)
    case (CreateHold, HoldPending) => pay.(status := HoldFailed)
    case (Refund, RefundPending) => pay.(status := Held)
    case (Release, ReleasePending) => pay.(status := ReleaseFailed)
    case _ => pay
  }

  function GiveUpRow(refunds: map<RefundId, RefundRow>, r: RefundId): map<RefundId, RefundRow>
    requires r in refunds
  {
    if refunds[r].status == RefundStatus.Pending then refunds[r := refunds[r].(status := RefundStatus.Failed)]
    else refunds
  }

  /** Terminal failure: the event dies and the payment steps back in the same transaction. */
  lemma EventDied(p: PaymentId, v: View, kind: EventKind, event: Event, refunds: map<RefundId, RefundRow>)
    requires ViewOk(p, v)
    requires EventAt(v, kind).Some? && event.payload == EventAt(v, kind).value.payload
    requires !Dead(EventAt(v, kind)) && event.status == EventStatus.Failed && event.token.None?
    requires kind != Refund ==> refunds == v.refunds
    requires kind == Refund ==>
      refunds == GiveUpRow(v.refunds, v.refund.value.payload.refund)
    ensures ViewOk(p, SetEvent(v, kind, event).(pay := Compensated(v.pay, kind), refunds := refunds))
  {
    var w := SetEvent(v, kind, event).(pay := Compensated(v.pay, kind), refunds := refunds);
    assert PayloadsFit(p, w) && EventsFollowStatus(w);
    assert RefundRowsFit(p, w) by {
      RefundRowsSurvive(p, v, kind, w);
    }
    assert RowsFollowStatus(p, w.pay, w.rows) && SettlementFollowsStatus(w);
  }

  lemma RefundRowsSurvive(p: PaymentId, v: View, kind: EventKind, w: View)
    requires RefundRowsFit(p, v) && v.pay.amount == w.pay.amount
    requires w.pay == Compensated(v.pay, kind) && (w.refund.None? ==> v.refund.None?)
    requires w.refunds == v.refunds
             || (kind == Refund && exists r :: (r in v.refunds && v.refunds[r].status == RefundStatus.Pending &&
                                        w.refunds == v.refunds[r := v.refunds[r].(status := RefundStatus.Failed)]))
    ensures RefundRowsFit(p, w)
  {
    assert forall r :: r in v.refunds && v.refunds[r].status == RefundStatus.Refunded ==>
        r in w.refunds && w.refunds[r] == v.refunds[r];
    assert forall r :: r in w.refunds && w.refunds[r].status == RefundStatus.Refunded ==>
        r in v.refunds && w.refunds[r] == v.refunds[r];
  }

  // ---------- funding ----------

  lemma FreshPaymentHasNoRows(db: Db, id: PaymentId)
    requires Owned(db) && id !in db.payments
    ensures EntriesOf(db.ledger, id) == [] && RefundsOf(db.refunds, id) == map[] && id !in db.settlements
    ensures forall kind :: EventKey(kind, id) !in db.outbox
  {
    EntriesOfOther(db.ledger, id);
  }

  /** What FundFirst has checked when it inserts. */
  predicate NewRow(db: Db, pay: Payment, id: PaymentId) {
    && pay.job in db.jobs && pay.job !in db.paymentByJob && id !in db.payments
    && (pay.key != NoKey ==> (pay.payer, pay.key) !in db.paymentByKey)
    && pay.status == HoldPending && pay.ref == Placeholder(id) && FeesOk(pay.fees) && pay.amount == pay.fees.base
  }

  lemma NewPaymentView(db: Db, pay: Payment, id: PaymentId, offer: Option<OfferId>, now: int)
    requires NewRow(db, pay, id) && Owned(db)
    ensures var next := InsertPayment(db, pay, id, offer, now); id in next.payments && ViewOk(id, ViewOf(next, id))
  {
    FreshPaymentHasNoRows(db, id);
    FundingJournalPosted(db, id, pay.fees);
    assert RefundsOf(InsertPayment(db, pay, id, offer, now).refunds, id) == map[];
    var v := ViewOf(InsertPayment(db, pay, id, offer, now), id);
    assert v.pay == pay && v.hold.Some? && v.hold.value.status == EventStatus.Pending
           && HoldFits(id, pay, v.hold.value.payload);
    FreshViewOk(id, v);
  }

  /** A payment that waits for its hold, with its first event and its funding journal, and nothing else. */
  lemma FreshViewOk(id: PaymentId, v: View)
    requires v.pay.status == HoldPending && v.pay.ref == Placeholder(id) && FeesOk(v.pay.fees)
             && v.pay.amount == v.pay.fees.base
    requires v.hold.Some? && v.hold.value.status == EventStatus.Pending && HoldFits(id, v.pay, v.hold.value.payload)
    requires v.release.None? && v.refund.None? && v.refunds == map[] && v.settlement.None?
             && FundingRows(id, v.pay.fees, v.rows)
    ensures ViewOk(id, v)
  {
    assert v.rows[..3] == v.rows;
  }

  lemma NewPaymentFrame(db: Db, pay: Payment, id: PaymentId, offer: Option<OfferId>, now: int)
    requires NewRow(db, pay, id)
    ensures var next := InsertPayment(db, pay, id, offer, now); OthersKept(db, next, id)
  {
  }

  lemma NewPaymentOwned(db: Db, pay: Payment, id: PaymentId, offer: Option<OfferId>, now: int)
    requires NewRow(db, pay, id) && Owned(db)
    ensures var next := InsertPayment(db, pay, id, offer, now); Owned(next) && RefundsStay(db, next, id)
  {
  }

  lemma NewPaymentJobIndex(db: Db, pay: Payment, id: PaymentId, offer: Option<OfferId>, now: int)
    requires NewRow(db, pay, id) && JobIndexOk(db.jobs, db.payments, db.paymentByJob)
    ensures var next := InsertPayment(db, pay, id, offer, now); JobIndexOk(next.jobs, next.payments, next.paymentByJob)
  {
  }

  lemma NewPaymentKeyIndex(db: Db, pay: Payment, id: PaymentId, offer: Option<OfferId>, now: int)
    requires NewRow(db, pay, id) && KeyIndexOk(db.payments, db.paymentByKey)
    ensures var next := InsertPayment(db, pay, id, offer, now); KeyIndexOk(next.payments, next.paymentByKey)
  {
  }

  lemma InsertKeepsCore(db: Db, pay: Payment, id: PaymentId, offer: Option<OfferId>, now: int)
    requires NewRow(db, pay, id) && Core(db)
    ensures Core(InsertPayment(db, pay, id, offer, now))
  {
    var next := InsertPayment(db, pay, id, offer, now);
    NewPaymentView(db, pay, id, offer, now);
    NewPaymentFrame(db, pay, id, offer, now);
    NewPaymentOwned(db, pay, id, offer, now);
    NewPaymentJobIndex(db, pay, id, offer, now);
    NewPaymentKeyIndex(db, pay, id, offer, now);
    JournalsBalance(pay.fees);
    PostKeepsBalance(db, PaymentFund, id, FundingLines(pay.fees));
    Assemble(db, next, id);
  }

  predicate Reopens(db: Db, p: PaymentId, newKey: Key) {
    && p in db.payments && db.payments[p].status == HoldFailed
    && (db.payments[p].key != NoKey ==> newKey == db.payments[p].key)
    && (newKey != NoKey && newKey != db.payments[p].key ==> (db.payments[p].payer, newKey) !in db.paymentByKey)
  }

  lemma ReopenFrame(db: Db, p: PaymentId, newKey: Key, rebuilt: Payload, now: int)
    requires Reopens(db, p, newKey) && Owned(db)
    ensures var next := ReopenHold(db, p, newKey, rebuilt, now);
            OthersKept(db, next, p) && RefundsStay(db, next, p) && Owned(next)
  {
  }

  lemma ReopenJobIndex(db: Db, p: PaymentId, newKey: Key, rebuilt: Payload, now: int)
    requires Reopens(db, p, newKey) && JobIndexOk(db.jobs, db.payments, db.paymentByJob)
    ensures var next := ReopenHold(db, p, newKey, rebuilt, now); JobIndexOk(next.jobs, next.payments, next.paymentByJob)
  {
  }

  lemma ReopenKeyIndex(db: Db, p: PaymentId, newKey: Key, rebuilt: Payload, now: int)
    requires Reopens(db, p, newKey) && KeyIndexOk(db.payments, db.paymentByKey)
    ensures var next := ReopenHold(db, p, newKey, rebuilt, now); KeyIndexOk(next.payments, next.paymentByKey)
  {
  }

  lemma ReopenView(db: Db, p: PaymentId, newKey: Key, rebuilt: Payload, now: int)
    requires Reopens(db, p, newKey) && ViewOk(p, ViewOf(db, p))
    ensures var next := ReopenHold(db, p, newKey, rebuilt, now);
            && ViewOk(p, ViewOf(next, p)) && next.refunds == db.refunds && next.refundByKey == db.refundByKey
            && next.ledger == db.ledger
  {
    var next := ReopenHold(db, p, newKey, rebuilt, now);
    HoldQueuedAgain(p, ViewOf(db, p), newKey, next.outbox[EventKey(CreateHold, p)]);
  }

  lemma ReopenKeepsCore(db: Db, p: PaymentId, newKey: Key, rebuilt: Payload, now: int)
    requires Core(db) && Reopens(db, p, newKey)
    ensures Core(ReopenHold(db, p, newKey, rebuilt, now))
  {
    ViewAt(db, p);
    ReopenFrame(db, p, newKey, rebuilt, now);
    ReopenJobIndex(db, p, newKey, rebuilt, now);
    ReopenKeyIndex(db, p, newKey, rebuilt, now);
    ReopenView(db, p, newKey, rebuilt, now);
    Assemble(db, ReopenHold(db, p, newKey, rebuilt, now), p);
  }

  lemma RetryKeepsCore(db: Db, j: JobId, payer: UserId, key: Key, currency: Currency, now: int)
    requires Core(db) && Retryable(db, j, key)
    ensures Core(RetryHold(db, j, payer, key, currency, now))
  {
    var p := db.paymentByJob[j];
    var newKey := RetryKey(db.payments[p], key);
    ReopenKeepsCore(db, p, newKey, RetryPayload(j, payer, p, db.payments[p], newKey, currency), now);
  }

  lemma FundKeepsCore(db: Db, next: Db, j: JobId, payer: UserId, payee: UserId, offer: Option<OfferId>, amount: nat,
      id: PaymentId, key: Key, currency: Currency, now: int)
    requires Core(db) && FundCommit(db, next, j, payer, payee, offer, amount, id, key, currency, now)
    ensures Core(next)
  {
    if Reopened(db, next, j, payer, key, currency, now) {
      RetryKeepsCore(db, j, payer, key, currency, now);
    } else {
      PostableFeesOk(db.jobs[j].kind, amount);
      InsertKeepsCore(db, NewPayment(db.jobs[j], j, payer, payee, amount, id, key, currency), id, offer, now);
    }
  }

  // ---------- steps that touch rows of several tables of one payment ----------

  /** Only the payment row p, the refund row r, the events and settlement of p and new ledger rows of p differ. */
  predicate Touches(db: Db, next: Db, p: PaymentId, r: RefundId) {
    && p in db.payments && p in next.payments && next.payments == db.payments[p := next.payments[p]]
    && (r in next.refunds ==> next.refunds[r].payment == p && next.refunds == db.refunds[r := next.refunds[r]])
    && (r !in next.refunds ==> next.refunds == db.refunds)
    && (r in db.refunds ==> db.refunds[r].payment == p)
    && (next.settlements == db.settlements
        || (p in next.settlements && next.settlements == db.settlements[p := next.settlements[p]]))
    && db.nextId <= next.nextId
    && |db.ledger| <= |next.ledger| && next.ledger[..|db.ledger|] == db.ledger
    && (forall i :: |db.ledger| <= i < |next.ledger| ==>
         next.ledger[i].payment == p && next.ledger[i].journal < next.nextId)
  }

  predicate TouchesEvent(db: Db, next: Db, k: EventKey) {
    next.outbox == db.outbox || (k in next.outbox && next.outbox == db.outbox[k := next.outbox[k]])
  }

  lemma TouchedFrame(db: Db, next: Db, p: PaymentId, r: RefundId, k: EventKey)
    requires Touches(db, next, p, r) && TouchesEvent(db, next, k) && k.payment == p
    ensures OthersKept(db, next, p) && RefundsStay(db, next, p)
  {
  }

  lemma TouchedOwned(db: Db, next: Db, p: PaymentId, r: RefundId, k: EventKey)
    requires Owned(db) && Touches(db, next, p, r) && TouchesEvent(db, next, k) && k.payment == p
    requires k in next.outbox && next.outbox[k].token.Some? ==> next.outbox[k].token.value < next.nextId
    ensures Owned(next)
  {
    forall i | 0 <= i < |next.ledger|
      ensures next.ledger[i].payment in next.payments && next.ledger[i].journal < next.nextId {
      if i < |db.ledger| {
        assert next.ledger[i] == next.ledger[..|db.ledger|][i] == db.ledger[i];
      }
    }
  }

  // ---------- accept, refund requests, release requests ----------

  lemma CompleteJobKeepsCore(db: Db, j: JobId, p: PaymentId)
    requires Core(db) && p in db.payments && db.payments[p].status == Held
    ensures Core(CompleteJob(db, j, p))
  {
    var next := CompleteJob(db, j, p);
    ViewAt(db, p);
    DeliveryAccepted(p, ViewOf(db, p));
    PaymentStep(db, next, p, next.payments[p]);
  }

  lemma RefundRequestView(db: Db, next: Db, p: PaymentId, r: RefundId, row: RefundRow, event: Event)
    requires p in db.payments && ViewOk(p, ViewOf(db, p)) && db.payments[p].status == Held
    requires row.payment == p && row.amount == db.payments[p].amount && row.status == RefundStatus.Pending
    requires r in db.refunds ==> db.refunds[r].payment == p && db.refunds[r].status == RefundStatus.Failed
    requires event.status == EventStatus.Pending
    requires if EventKey(Refund, p) in db.outbox then event.payload == db.outbox[EventKey(Refund, p)].payload
             else RefundFits(p, db.payments[p], event.payload) && event.payload.refund == r
    requires next == db.(refunds := db.refunds[r := row], refundByKey := next.refundByKey,
                         payments := db.payments[p := db.payments[p].(status := RefundPending)],
                         outbox := db.outbox[EventKey(Refund, p) := event])
    ensures ViewOk(p, ViewOf(next, p))
  {
    var v := ViewOf(db, p);
    RefundAsked(p, v, r, row, event);
    assert RefundsOf(next.refunds, p) == v.refunds[r := row];
  }

  lemma RefundRequestTouches(db: Db, next: Db, p: PaymentId, r: RefundId, row: RefundRow, event: Event)
    requires p in db.payments && row.payment == p && (r in db.refunds ==> db.refunds[r].payment == p)
    requires next == db.(refunds := db.refunds[r := row], refundByKey := next.refundByKey,
                         payments := db.payments[p := db.payments[p].(status := RefundPending)],
                         outbox := db.outbox[EventKey(Refund, p) := event])
    ensures Touches(db, next, p, r) && TouchesEvent(db, next, EventKey(Refund, p))
  {
  }

  /** QueueRefund after the refund row r of payment p has been inserted or reopened. */
  lemma RefundRequestKeepsCore(db: Db, next: Db, p: PaymentId, r: RefundId, row: RefundRow, event: Event)
    requires Core(db) && p in db.payments && db.payments[p].status == Held
    requires row.payment == p && row.amount == db.payments[p].amount && row.status == RefundStatus.Pending
    requires r in db.refunds ==> db.refunds[r].payment == p && db.refunds[r].status == RefundStatus.Failed
    requires next == db.(refunds := db.refunds[r := row], refundByKey := next.refundByKey,
                         payments := db.payments[p := db.payments[p].(status := RefundPending)],
                         outbox := db.outbox[EventKey(Refund, p) := event])
    requires RefundIndexOk(next.refunds, next.refundByKey)
    requires event.status == EventStatus.Pending && event.token.None?
    requires if EventKey(Refund, p) in db.outbox then event.payload == db.outbox[EventKey(Refund, p)].payload
             else RefundFits(p, db.payments[p], event.payload) && event.payload.refund == r
    ensures Core(next)
  {
    ViewAt(db, p);
    RefundRequestView(db, next, p, r, row, event);
    UpdateKeepsIndexes(db, p, next.payments[p]);
    RefundRequestTouches(db, next, p, r, row, event);
    TouchedFrame(db, next, p, r, EventKey(Refund, p));
    TouchedOwned(db, next, p, r, EventKey(Refund, p));
    Assemble(db, next, p);
  }

  lemma RefundIndexInsert(refunds: map<RefundId, RefundRow>, byKey: map<(PaymentId, Key), RefundId>, r: RefundId,
      row: RefundRow)
    requires RefundIndexOk(refunds, byKey)
    requires r in refunds ==> refunds[r].payment == row.payment && refunds[r].key == row.key
    requires r !in refunds && row.key != NoKey ==> (row.payment, row.key) !in byKey
    ensures RefundIndexOk(refunds[r := row], if r in refunds || row.key == NoKey then byKey
                                             else byKey[(row.payment, row.key) := r])
  {
  }

  /** An accepted request writes one refund row, the payment and its refund event. */
  lemma RequestShape(db: Db, j: JobId, p: PaymentId, owner: UserId, id: RefundId, key: Key, now: int)
    requires Refundable(db, j, p, id, key)
    ensures var next := RequestRefundOf(db, j, p, owner, id, key, now);
            var r := RequestedRow(db, p, id, key);
            var k := EventKey(Refund, p);
            && r in next.refunds && k in next.outbox && p in next.payments
            && next == db.(refunds := db.refunds[r := next.refunds[r]], refundByKey := next.refundByKey,
                           payments := db.payments[p := db.payments[p].(status := RefundPending)],
                           outbox := db.outbox[k := next.outbox[k]])
  {
  }

  /** The row is a new one, or a failed one of the same payment and key. */
  lemma RequestedRowFits(db: Db, p: PaymentId, id: RefundId, key: Key, now: int)
    requires Core(db) && p in db.payments
             && (RequestedRow(db, p, id, key) in db.refunds ==>
                  PriorRefund(db, p, key) == Some(RequestedRow(db, p, id, key)))
    ensures var r := RequestedRow(db, p, id, key);
            var next := WriteRow(db, p, r, key, now);
            && r in next.refunds && next.refunds == db.refunds[r := next.refunds[r]]
            && next.refunds[r].payment == p && next.refunds[r].key == key
            && next.refunds[r].amount == db.payments[p].amount
            && next.refunds[r].status == RefundStatus.Pending
            && (r in db.refunds ==> db.refunds[r].payment == p && db.refunds[r].key == key)
            && RefundIndexOk(next.refunds, next.refundByKey)
  {
    var r := RequestedRow(db, p, id, key);
    var next := WriteRow(db, p, r, key, now);
    assert ViewOk(p, ViewOf(db, p)) by { ViewAt(db, p); }
    if r in db.refunds {
      assert db.refunds[r].payment == p && db.refunds[r].key == key;
      assert r in ViewOf(db, p).refunds;
    }
    RefundIndexInsert(db.refunds, db.refundByKey, r, next.refunds[r]);
  }

  /** A payment with a refund row has a refund event. */
  lemma RowMeansEvent(db: Db, p: PaymentId, r: RefundId)
    requires Core(db) && p in db.payments && r in db.refunds && db.refunds[r].payment == p
    ensures EventKey(Refund, p) in db.outbox
  {
    ViewAt(db, p);
    assert r in ViewOf(db, p).refunds;
    assert ViewOf(db, p).refund == Get(db.outbox, EventKey(Refund, p));
  }

  /** Before the first request there is no row to reopen. */
  lemma FirstRequestIsNew(db: Db, j: JobId, p: PaymentId, id: RefundId, key: Key)
    requires Core(db) && Refundable(db, j, p, id, key) && EventKey(Refund, p) !in db.outbox
    ensures RequestedRow(db, p, id, key) == id
  {
    var prior := PriorRefund(db, p, key);
    if prior.Some? && prior.value in db.refunds {
      RowMeansEvent(db, p, prior.value);
    }
  }

  lemma HeldRefundIsDead(db: Db, p: PaymentId)
    requires Core(db) && p in db.payments && db.payments[p].status == Held && EventKey(Refund, p) in db.outbox
    ensures Dead(Some(db.outbox[EventKey(Refund, p)]))
  {
    ViewAt(db, p);
    assert ViewOf(db, p).refund == Some(db.outbox[EventKey(Refund, p)]);
  }

  lemma RequestedEventFits(db: Db, j: JobId, p: PaymentId, owner: UserId, id: RefundId, key: Key, now: int)
    requires Core(db) && Refundable(db, j, p, id, key)
    ensures var k := EventKey(Refund, p);
            var r := RequestedRow(db, p, id, key);
            var event := QueueRefund(WriteRow(db, p, r, key, now), j, p, db.payments[p], owner, id, key, now).outbox[k];
            && event.status == EventStatus.Pending && event.token.None?
            && if k in db.outbox then event.payload == db.outbox[k].payload
               else RefundFits(p, db.payments[p], event.payload) && event.payload.refund == r
  {
    var k := EventKey(Refund, p);
    if k in db.outbox {
      HeldRefundIsDead(db, p);
    } else {
      FirstRequestIsNew(db, j, p, id, key);
    }
  }

  lemma RequestKeepsCore(db: Db, j: JobId, p: PaymentId, owner: UserId, id: RefundId, key: Key, now: int)
    requires Core(db) && Refundable(db, j, p, id, key)
    ensures Core(RequestRefundOf(db, j, p, owner, id, key, now))
  {
    var r := RequestedRow(db, p, id, key);
    var next := RequestRefundOf(db, j, p, owner, id, key, now);
    RequestShape(db, j, p, owner, id, key, now);
    RequestedRowFits(db, p, id, key, now);
    RequestedEventFits(db, j, p, owner, id, key, now);
    RefundRequestKeepsCore(db, next, p, r, next.refunds[r], next.outbox[EventKey(Refund, p)]);
  }

  lemma QueueReleaseView(db: Db, j: JobId, owner: UserId, p: PaymentId, now: int)
    requires p in db.payments && ViewOk(p, ViewOf(db, p)) && db.payments[p].job == j
             && db.payments[p].status in {ReleasePending, ReleaseFailed}
    ensures var next := QueueRelease(db, j, owner, p, now); ViewOk(p, ViewOf(next, p))
  {
    ReleaseQueued(p, ViewOf(db, p), QueueRelease(db, j, owner, p, now).outbox[EventKey(Release, p)]);
  }

  lemma QueueReleaseKeepsCore(db: Db, j: JobId, owner: UserId, p: PaymentId, now: int)
    requires Core(db) && p in db.payments && db.payments[p].job == j
             && db.payments[p].status in {ReleasePending, ReleaseFailed}
    ensures Core(QueueRelease(db, j, owner, p, now))
  {
    var next := QueueRelease(db, j, owner, p, now);
    var k := EventKey(Release, p);
    ViewAt(db, p);
    QueueReleaseView(db, j, owner, p, now);
    LightStep(db, next, p, next.payments[p], k, next.outbox[k]);
  }

  // ---------- workers ----------

  lemma ClaimKeepsCore(db: Db, k: EventKey, now: int)
    requires Core(db) && k in db.outbox && db.outbox[k].status in {EventStatus.Pending, EventStatus.Processing}
    ensures Core(Claim(db, k, now))
  {
    var next := Claim(db, k, now);
    var p := k.payment;
    ViewAt(db, p);
    EventInView(db, k);
    EventMoved(p, ViewOf(db, p), k.kind, next.outbox[k]);
    EventStep(db, next, k, next.outbox[k]);
  }

  lemma ConfirmKeepsCore(db: Db, p: PaymentId, ref: Ref)
    requires Core(db) && p in db.payments && db.payments[p].status == HoldPending
             && EventKey(CreateHold, p) in db.outbox
    ensures Core(Confirm(DoneEvent(db, EventKey(CreateHold, p)), p, ref))
  {
    var k := EventKey(CreateHold, p);
    var next := Confirm(DoneEvent(db, k), p, ref);
    ViewAt(db, p);
    HoldConfirmed(p, ViewOf(db, p), ref, next.outbox[k]);
    LightStep(db, next, p, next.payments[p], k, next.outbox[k]);
  }

  /** The event of a payment that has already moved on is only marked done. */
  lemma MarkDoneKeepsCore(db: Db, k: EventKey)
    requires Core(db) && k in db.outbox && k.payment in db.payments
    requires match k.kind
             case CreateHold => db.payments[k.payment].status == Held
             case Release => db.payments[k.payment].status == Released
             case Refund => db.payments[k.payment].status == PaymentStatus.Refunded
    ensures Core(DoneEvent(db, k))
  {
    ViewAt(db, k.payment);
    EventInView(db, k);
    EventDone(k.payment, ViewOf(db, k.payment), k.kind, MarkDone(db.outbox[k]));
    EventStep(db, DoneEvent(db, k), k, MarkDone(db.outbox[k]));
  }

  lemma CompleteHoldKeepsCore(db: Db, next: Db, p: PaymentId, ref: Ref)
    requires Core(db) && HoldCommit(db, next, EventKey(CreateHold, p), p, ref)
    ensures Core(next)
  {
    if OnlyDone(db, next, EventKey(CreateHold, p), p, Held) {
      MarkDoneKeepsCore(db, EventKey(CreateHold, p));
    } else {
      ConfirmKeepsCore(db, p, ref);
    }
  }

  /** db1 is db with the event k of payment k.payment possibly marked, before a Finish step. */
  predicate Marked(db: Db, db1: Db, k: EventKey) {
    && db1 == db.(outbox := db1.outbox, webhooks := db1.webhooks)
    && (k !in db.outbox ==> db1.outbox == db.outbox)
    && (k in db.outbox ==> k in db1.outbox && db1.outbox == db.outbox[k := db1.outbox[k]]
                           && db1.outbox[k].payload == db.outbox[k].payload
                           && db1.outbox[k].token == db.outbox[k].token)
  }

  lemma FinishReleaseRows(db: Db, db1: Db, p: PaymentId, ref: Ref, release: Reference, payout: Reference, k: EventKey)
    requires Core(db) && p in db.payments && db.payments[p].status in {ReleasePending, ReleaseFailed}
             && Marked(db, db1, k)
    ensures var next := FinishRelease(db1, p, ref, release, payout);
            RowsFollowStatus(p, db.payments[p].(status := Released), EntriesOf(next.ledger, p))
  {
    var next := FinishRelease(db1, p, ref, release, payout);
    ViewAt(db, p);
    ReleasePosted(db1.(payments := next.payments, jobs := next.jobs, settlements := next.settlements), release, payout,
                  p,
                  db.payments[p], next.payments[p]);
  }

  lemma FinishReleaseShape(db: Db, db1: Db, p: PaymentId, ref: Ref, release: Reference, payout: Reference, k: EventKey)
    requires p in db.payments && k == EventKey(Release, p) && Marked(db, db1, k)
    ensures var next := FinishRelease(db1, p, ref, release, payout);
            && p in next.payments && p in next.settlements
            && ViewOf(next, p) == ViewOf(db, p).(pay := db.payments[p].(status := Released),
                                                 release := Get(db1.outbox, k),
                                                 settlement := Some(next.settlements[p]),
                                                 rows := EntriesOf(next.ledger, p))
  {
  }

  lemma FinishReleaseView(db: Db, db1: Db, p: PaymentId, ref: Ref, release: Reference, payout: Reference, k: EventKey)
    requires Core(db) && p in db.payments && db.payments[p].status in {ReleasePending, ReleaseFailed}
    requires k == EventKey(Release, p) && Marked(db, db1, k)
    ensures var next := FinishRelease(db1, p, ref, release, payout); p in next.payments && ViewOk(p, ViewOf(next, p))
  {
    var next := FinishRelease(db1, p, ref, release, payout);
    FinishReleaseRows(db, db1, p, ref, release, payout, k);
    FinishReleaseShape(db, db1, p, ref, release, payout, k);
    ViewAt(db, p);
    ReleaseFinished(p, ViewOf(db, p), Get(db1.outbox, k), next.settlements[p], EntriesOf(next.ledger, p));
  }

  lemma FinishReleaseTouches(db: Db, db1: Db, p: PaymentId, ref: Ref, release: Reference, payout: Reference,
      k: EventKey, r: RefundId)
    requires p in db.payments && Marked(db, db1, k) && (r in db.refunds ==> db.refunds[r].payment == p)
    ensures var next := FinishRelease(db1, p, ref, release, payout);
            Touches(db, next, p, r) && TouchesEvent(db, next, k)
  {
    var next := FinishRelease(db1, p, ref, release, payout);
    if r in db.refunds {
      assert db.refunds[r := db.refunds[r]] == db.refunds;
    }
  }

  lemma FinishReleaseBalance(db: Db, p: PaymentId, ref: Ref, release: Reference, payout: Reference)
    requires p in db.payments && JournalsBalanced(db.ledger) && FeesOk(db.payments[p].fees)
    ensures JournalsBalanced(FinishRelease(db, p, ref, release, payout).ledger)
  {
    var next := FinishRelease(db, p, ref, release, payout);
    var pay := db.payments[p];
    var mid := db.(payments := next.payments, jobs := next.jobs, settlements := next.settlements);
    JournalsBalance(pay.fees);
    PostKeepsBalance(mid, release, p, ReleaseLines(pay.fees));
    PostKeepsBalance(Post(mid, release, p, ReleaseLines(pay.fees)), payout, p, PayoutLines(pay.fees));
  }

  lemma FreshRefundId(refunds: map<RefundId, RefundRow>) returns (r: RefundId)
    ensures r !in refunds
  {
    var ids := refunds.Keys;
    r := 0;
    while ids != {}
      invariant forall x :: x in refunds && x !in ids ==> x < r
      decreases ids
    {
      var x :| x in ids;
      ids := ids - {x};
      r := if x < r then r else x + 1;
    }
  }

  lemma FinishReleaseKeepsCore(db: Db, db1: Db, p: PaymentId, ref: Ref, release: Reference, payout: Reference,
      k: EventKey)
    requires Core(db) && p in db.payments && db.payments[p].status in {ReleasePending, ReleaseFailed}
    requires k == EventKey(Release, p) && Marked(db, db1, k)
    ensures Core(FinishRelease(db1, p, ref, release, payout))
  {
    var next := FinishRelease(db1, p, ref, release, payout);
    var r := FreshRefundId(db.refunds);
    ViewAt(db, p);
    FinishReleaseView(db, db1, p, ref, release, payout, k);
    FinishReleaseBalance(db1, p, ref, release, payout);
    FinishReleaseTouches(db, db1, p, ref, release, payout, k, r);
    UpdateKeepsIndexes(db, p, next.payments[p]);
    TouchedFrame(db, next, p, r, k);
    TouchedOwned(db, next, p, r, k);
    Assemble(db, next, p);
  }

  lemma CompleteReleaseKeepsCore(db: Db, next: Db, p: PaymentId)
    requires Core(db) && ReleaseCommit(db, next, EventKey(Release, p), p)
    ensures Core(next)
  {
    var k := EventKey(Release, p);
    if OnlyDone(db, next, k, p, Released) {
      MarkDoneKeepsCore(db, k);
    } else {
      FinishReleaseKeepsCore(db, DoneEvent(db, k), p, db.payments[p].ref, PaymentRelease, PaymentPayout, k);
    }
  }

  lemma FinishRefundRows(db: Db, db1: Db, p: PaymentId, r: RefundId, ref: Option<Ref>, reference: Reference,
      k: EventKey)
    requires Core(db) && p in db.payments && db.payments[p].status == RefundPending && r in db.refunds
             && Marked(db, db1, k)
    ensures var next := FinishRefund(db1, p, r, ref, reference);
            RowsFollowStatus(p, db.payments[p].(status := PaymentStatus.Refunded), EntriesOf(next.ledger, p))
  {
    var next := FinishRefund(db1, p, r, ref, reference);
    ViewAt(db, p);
    RefundPosted(db1.(payments := next.payments, jobs := next.jobs, refunds := next.refunds), reference, p,
                 db.payments[p], next.payments[p]);
  }

  lemma FinishRefundShape(db: Db, db1: Db, p: PaymentId, r: RefundId, ref: Option<Ref>, reference: Reference,
      k: EventKey)
    requires p in db.payments && r in db.refunds && db.refunds[r].payment == p && k == EventKey(Refund, p)
             && Marked(db, db1, k) && k in db.outbox
    ensures var next := FinishRefund(db1, p, r, ref, reference);
            && p in next.payments && r in next.refunds
            && ViewOf(next, p) == ViewOf(db, p).(pay := db.payments[p].(status := PaymentStatus.Refunded),
                                                 refund := Some(db1.outbox[k]),
                                                 refunds := RefundsOf(db.refunds, p)[r := next.refunds[r]],
                                                 rows := EntriesOf(next.ledger, p))
  {
    var next := FinishRefund(db1, p, r, ref, reference);
    assert RefundsOf(next.refunds, p) == RefundsOf(db.refunds, p)[r := next.refunds[r]];
  }

  lemma FinishRefundView(db: Db, db1: Db, p: PaymentId, r: RefundId, ref: Option<Ref>, reference: Reference,
      k: EventKey)
    requires Core(db) && p in db.payments && db.payments[p].status == RefundPending
    requires r in db.refunds && db.refunds[r].payment == p
    requires k == EventKey(Refund, p) && Marked(db, db1, k)
    ensures var next := FinishRefund(db1, p, r, ref, reference); p in next.payments && ViewOk(p, ViewOf(next, p))
  {
    var next := FinishRefund(db1, p, r, ref, reference);
    FinishRefundRows(db, db1, p, r, ref, reference, k);
    ViewAt(db, p);
    FinishRefundShape(db, db1, p, r, ref, reference, k);
    RefundFinished(p, ViewOf(db, p), r, next.refunds[r], db1.outbox[k], EntriesOf(next.ledger, p));
  }

  lemma FinishRefundTouches(db: Db, db1: Db, p: PaymentId, r: RefundId, ref: Option<Ref>, reference: Reference,
      k: EventKey)
    requires p in db.payments && r in db.refunds && db.refunds[r].payment == p && Marked(db, db1, k)
    ensures var next := FinishRefund(db1, p, r, ref, reference); Touches(db, next, p, r) && TouchesEvent(db, next, k)
  {
  }

  lemma FinishRefundIndex(db: Db, p: PaymentId, r: RefundId, ref: Option<Ref>, reference: Reference)
    requires p in db.payments && r in db.refunds && RefundIndexOk(db.refunds, db.refundByKey)
    ensures var next := FinishRefund(db, p, r, ref, reference); RefundIndexOk(next.refunds, next.refundByKey)
  {
  }

  lemma FinishRefundKeepsCore(db: Db, db1: Db, p: PaymentId, r: RefundId, ref: Option<Ref>, reference: Reference,
      k: EventKey)
    requires Core(db) && p in db.payments && db.payments[p].status == RefundPending
    requires r in db.refunds && db.refunds[r].payment == p
    requires k == EventKey(Refund, p) && Marked(db, db1, k)
    ensures Core(FinishRefund(db1, p, r, ref, reference))
  {
    var next := FinishRefund(db1, p, r, ref, reference);
    ViewAt(db, p);
    FinishRefundView(db, db1, p, r, ref, reference, k);
    FinishRefundTouches(db, db1, p, r, ref, reference, k);
    FinishRefundIndex(db1, p, r, ref, reference);
    JournalsBalance(db.payments[p].fees);
    PostKeepsBalance(db1.(payments := next.payments, jobs := next.jobs, refunds := next.refunds), reference, p,
                     RefundLines(db.payments[p].fees));
    UpdateKeepsIndexes(db, p, next.payments[p]);
    TouchedFrame(db, next, p, r, k);
    TouchedOwned(db, next, p, r, k);
    Assemble(db, next, p);
  }

  lemma CompleteRefundKeepsCore(db: Db, next: Db, p: PaymentId, r: RefundId, ref: Ref)
    requires Core(db) && RefundCommit(db, next, EventKey(Refund, p), p, r, ref)
    ensures Core(next)
  {
    var k := EventKey(Refund, p);
    if OnlyDone(db, next, k, p, PaymentStatus.Refunded) {
      MarkDoneKeepsCore(db, k);
    } else {
      FinishRefundKeepsCore(db, DoneEvent(db, k), p, r, Some(ref), PaymentRefund, k);
    }
  }

  /** The refund rows of a payment after a compensation, as EventDied states them. */
  lemma CompensateRefunds(db: Db, k: EventKey)
    requires k in db.outbox && k.payment in db.payments && ViewOk(k.payment, ViewOf(db, k.payment))
    ensures k.kind != Refund ==> Compensate(db, k).refunds == db.refunds
    ensures k.kind == Refund ==>
      && db.outbox[k].payload.RefundPayload? && db.outbox[k].payload.refund in RefundsOf(db.refunds, k.payment)
      && RefundsOf(Compensate(db, k).refunds, k.payment)
         == GiveUpRow(RefundsOf(db.refunds, k.payment), db.outbox[k].payload.refund)
  {
    EventInView(db, k);
    if k.kind == Refund {
      NamedRowGivenUp(db, k);
    }
  }

  lemma NamedRowGivenUp(db: Db, k: EventKey)
    requires k in db.outbox && k.kind == Refund && db.outbox[k].payload.RefundPayload?
    requires db.outbox[k].payload.refund in RefundsOf(db.refunds, k.payment)
    ensures RefundsOf(Compensate(db, k).refunds, k.payment)
            == GiveUpRow(RefundsOf(db.refunds, k.payment), db.outbox[k].payload.refund)
  {
    var r := db.outbox[k].payload.refund;
    assert r in RefundsOf(db.refunds, k.payment);
  }

  lemma CompensateView(db: Db, db1: Db, k: EventKey, event: Event)
    requires k in db.outbox && k.payment in db.payments && ViewOk(k.payment, ViewOf(db, k.payment))
             && !Dead(Some(db.outbox[k]))
    requires event == db.outbox[k].(status := EventStatus.Failed, token := None, availableAt := event.availableAt,
                                    lockedAt := event.lockedAt)
    requires db1 == db.(outbox := db.outbox[k := event])
    ensures var next := Compensate(db1, k);
            k.payment in next.payments && ViewOk(k.payment, ViewOf(next, k.payment))
  {
    var p := k.payment;
    var v := ViewOf(db, p);
    var next := Compensate(db1, k);
    EventInView(db, k);
    CompensateRefunds(db, k);
    assert next.refunds == Compensate(db, k).refunds;
    assert k.kind != Refund ==> RefundsOf(next.refunds, p) == v.refunds;
    EventDied(p, v, k.kind, event, RefundsOf(next.refunds, p));
    EventView(db, db1, k, event);
    assert ViewOf(next, p) == ViewOf(db1, p).(pay := next.payments[p], refunds := RefundsOf(next.refunds, p));
  }

  lemma CompensateTouches(db: Db, k: EventKey, event: Event)
    requires k in db.outbox && k.payment in db.payments && ViewOk(k.payment, ViewOf(db, k.payment))
             && event.payload == db.outbox[k].payload
    ensures var next := Compensate(db.(outbox := db.outbox[k := event]), k);
            OthersKept(db, next, k.payment) && RefundsStay(db, next, k.payment)
  {
    CompensateRefunds(db, k);
    var r := if k.kind == Refund then db.outbox[k].payload.refund else 0;
    if k.kind == Refund {
      assert r in RefundsOf(db.refunds, k.payment);
    }
    CompensateShape(db, k, event, r);
  }

  lemma CompensateShape(db: Db, k: EventKey, event: Event, r: RefundId)
    requires k in db.outbox && k.payment in db.payments && event.payload == db.outbox[k].payload
    requires k.kind == Refund ==>
               event.payload.RefundPayload? && r == event.payload.refund && r in db.refunds
               && db.refunds[r].payment == k.payment
    ensures var next := Compensate(db.(outbox := db.outbox[k := event]), k);
            OthersKept(db, next, k.payment) && RefundsStay(db, next, k.payment)
  {
  }

  lemma CompensateIndexes(db: Db, k: EventKey)
    requires k in db.outbox && RefundIndexOk(db.refunds, db.refundByKey)
    requires JobIndexOk(db.jobs, db.payments, db.paymentByJob) && KeyIndexOk(db.payments, db.paymentByKey)
    ensures var next := Compensate(db, k);
            && RefundIndexOk(next.refunds, next.refundByKey)
            && JobIndexOk(next.jobs, next.payments, next.paymentByJob) && KeyIndexOk(next.payments, next.paymentByKey)
  {
    if k.payment in db.payments {
      var after := Compensated(db.payments[k.payment], k.kind);
      UpdateKeepsIndexes(db, k.payment, after);
      assert db.payments[k.payment := db.payments[k.payment]] == db.payments;
    }
  }

  lemma CompensateOwned(db: Db, k: EventKey, event: Event)
    requires Owned(db) && k in db.outbox && event.token.None? && event.payload == db.outbox[k].payload
    ensures Owned(Compensate(db.(outbox := db.outbox[k := event]), k))
  {
  }

  lemma CompensateKeepsCore(db: Db, k: EventKey, event: Event)
    requires Core(db) && k in db.outbox && !Dead(Some(db.outbox[k]))
    requires event == db.outbox[k].(status := EventStatus.Failed, token := None, availableAt := event.availableAt,
                                    lockedAt := event.lockedAt)
    ensures Core(Compensate(db.(outbox := db.outbox[k := event]), k))
  {
    var next := Compensate(db.(outbox := db.outbox[k := event]), k);
    ViewAt(db, k.payment);
    CompensateView(db, db.(outbox := db.outbox[k := event]), k, event);
    CompensateTouches(db, k, event);
    CompensateIndexes(db.(outbox := db.outbox[k := event]), k);
    CompensateOwned(db, k, event);
    Assemble(db, next, k.payment);
  }

  /** A worker reports a failure under its own lease. */
  lemma FailWithKeepsCore(db: Db, k: EventKey, failed: Event)
    requires Core(db) && k in db.outbox && db.outbox[k].token.Some?
    requires failed == db.outbox[k].(status := failed.status, token := None, availableAt := failed.availableAt,
                                     lockedAt := None)
    requires failed.status in {EventStatus.Failed, EventStatus.Pending}
    ensures Core(FailWith(db, k, failed))
  {
    if failed.status == EventStatus.Failed {
      CompensateKeepsCore(db, k, failed);
    } else {
      RetryKeepsEvent(db, k, failed);
    }
  }

  lemma RetryKeepsEvent(db: Db, k: EventKey, failed: Event)
    requires Core(db) && k in db.outbox && db.outbox[k].token.Some?
    requires failed == db.outbox[k].(status := EventStatus.Pending, token := None, availableAt := failed.availableAt,
                                     lockedAt := None)
    ensures Core(db.(outbox := db.outbox[k := failed]))
  {
    var p := k.payment;
    ViewAt(db, p);
    EventInView(db, k);
    EventMoved(p, ViewOf(db, p), k.kind, failed);
    EventStep(db, db.(outbox := db.outbox[k := failed]), k, failed);
  }

  // ---------- webhooks ----------

  lemma HeldWebhookKeepsCore(db: Db, id: WebhookId, p: PaymentId, ref: Ref)
    requires Core(db) && p in db.payments && db.payments[p].status == HoldPending
    ensures Core(Confirm(Logged(db, id), p, ref))
  {
    var next := Confirm(Logged(db, id), p, ref);
    ViewAt(db, p);
    HoldConfirmed(p, ViewOf(db, p), ref, db.outbox[EventKey(CreateHold, p)]);
    PaymentStep(db, next, p, next.payments[p]);
  }

  lemma LoggedKeepsCore(db: Db, id: WebhookId)
    requires Core(db)
    ensures Core(Logged(db, id))
  {
    BystanderStep(db, Logged(db, id));
  }

  lemma ReleasedWebhookKeepsCore(db: Db, id: WebhookId, p: PaymentId, ref: Ref)
    requires Core(db) && p in db.payments && db.payments[p].status in {ReleasePending, ReleaseFailed}
    ensures Core(FinishRelease(Logged(db, id), p, ref, PaymentWebhook, PaymentWebhook))
  {
    MarkedByWebhook(db, id, EventKey(Release, p));
    FinishReleaseKeepsCore(db, Logged(db, id), p, ref, PaymentWebhook, PaymentWebhook, EventKey(Release, p));
  }

  lemma RefundedWebhookKeepsCore(db: Db, id: WebhookId, p: PaymentId, r: RefundId, ref: Option<Ref>)
    requires Core(db) && p in db.payments && db.payments[p].status == RefundPending
    requires r in db.refunds && db.refunds[r].payment == p
    ensures Core(FinishRefund(Logged(db, id), p, r, ref, PaymentWebhook))
  {
    MarkedByWebhook(db, id, EventKey(Refund, p));
    FinishRefundKeepsCore(db, Logged(db, id), p, r, ref, PaymentWebhook, EventKey(Refund, p));
  }

  lemma EndingWebhookKeepsCore(db: Db, next: Db, id: WebhookId, p: PaymentId, ref: Ref, row: RefundId)
    requires Core(db) && (ReleasedByHook(db, next, id, p, ref) || RefundedByHook(db, next, id, p, ref, row))
    ensures Core(next)
  {
    if ReleasedByHook(db, next, id, p, ref) {
      ReleasedWebhookKeepsCore(db, id, p, SettledRef(db.payments[p], ref));
    } else {
      RefundedWebhookKeepsCore(db, id, p, row, RefundedRef(db, row, ref));
    }
  }

  lemma WebhookKeepsCore(db: Db, next: Db, id: WebhookId, p: PaymentId, ref: Ref, row: RefundId)
    requires Core(db) && WebhookCommit(db, next, id, p, ref, row)
    ensures Core(next)
  {
    if OnlyLogged(db, next, id) {
      LoggedKeepsCore(db, id);
    } else if HeldByHook(db, next, id, p, ref) {
      HeldWebhookKeepsCore(db, id, p, ref);
    } else {
      EndingWebhookKeepsCore(db, next, id, p, ref, row);
    }
  }

  lemma MarkedByWebhook(db: Db, id: WebhookId, k: EventKey)
    ensures Marked(db, Logged(db, id), k)
  {
    if k in db.outbox {
      assert db.outbox[k := db.outbox[k]] == db.outbox;
    }
  }
}
