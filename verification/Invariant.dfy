/** The joint invariant over all tables. What concerns one payment is stated on its View: the payment row and every row
    of another table that belongs to it. */
module Invariant {
  import opened Options
  import opened Money
  import opened Schema
  import opened Ledger

  datatype View = View(pay: Payment, hold: Option<Event>, release: Option<Event>, refund: Option<Event>,
                       refunds: map<RefundId, RefundRow>,
                       settlement: Option<Settlement>, rows: seq<Entry>)

  function RefundsOf(refunds: map<RefundId, RefundRow>, p: PaymentId): map<RefundId, RefundRow> {
    map r | r in refunds && refunds[r].payment == p :: refunds[r]
  }

  function ViewOf(db: Db, p: PaymentId): View
    requires p in db.payments
  {
    View(db.payments[p], Get(db.outbox, EventKey(CreateHold, p)), Get(db.outbox, EventKey(Release, p)),
         Get(db.outbox, EventKey(Refund, p)),
         RefundsOf(db.refunds, p), Get(db.settlements, p), EntriesOf(db.ledger, p))
  }

  // ---------- one payment ----------

  predicate FeesOk(f: Fees) { f.charge == f.payout + f.platformFee && f.payout > 0 && f.platformFee > 0 }

  predicate Active(e: Option<Event>) { e.Some? && e.value.status in {EventStatus.Pending, EventStatus.Processing} }

  predicate Dead(e: Option<Event>) { e.Some? && e.value.status == EventStatus.Failed && e.value.token.None? }

  predicate Quiet(e: Option<Event>) { e.None? || Dead(e) }

  predicate EventsFollowStatus(v: View) {
    match v.pay.status
    case HoldPending => Active(v.hold) && v.release.None? && v.refund.None?
    case HoldFailed => Dead(v.hold) && v.release.None? && v.refund.None?
    case Held => v.release.None? && Quiet(v.refund)
    case RefundPending => v.release.None? && Active(v.refund)
    case Refunded => v.release.None? && v.refund.Some?
    case ReleasePending => (v.release.None? || Active(v.release)) && Quiet(v.refund)
    case ReleaseFailed => Dead(v.release) && Quiet(v.refund)
    case Released => Quiet(v.refund)
  }

  predicate HoldFits(p: PaymentId, pay: Payment, x: Payload) {
    && x.HoldPayload? && x.key != NoKey && x.key in {pay.key, PaymentKey(p)}
    && x == HoldPayload(pay.job, pay.payer, p, pay.fees.charge, pay.fees.base, pay.currency, x.key)
  }

  predicate ReleaseFits(p: PaymentId, pay: Payment, x: Payload) {
    && x.ReleasePayload? && x.key != NoKey && x.key in {pay.key, ReleaseKey(p)}
    && x == ReleasePayload(pay.job, x.owner, p, pay.ref, x.key)
  }

  predicate RefundFits(p: PaymentId, pay: Payment, x: Payload) {
    x.RefundPayload? && x.key != NoKey && x == RefundPayload(pay.job, x.owner, p, x.refund, pay.ref, x.key)
  }

  /** Every payload says what the payment row says, and is sent under the key of the payment or the default key of its
      kind. */
  predicate PayloadsFit(p: PaymentId, v: View) {
    && v.hold.Some? && HoldFits(p, v.pay, v.hold.value.payload)
    && (v.release.Some? ==> ReleaseFits(p, v.pay, v.release.value.payload))
    && (v.refund.Some? ==> RefundFits(p, v.pay, v.refund.value.payload) && v.refund.value.payload.refund in v.refunds)
  }

  predicate RefundRowsFit(p: PaymentId, v: View) {
    && (forall r :: r in v.refunds ==> v.refunds[r].payment == p && v.refunds[r].amount == v.pay.amount)
    && (v.refund.None? ==> v.refunds == map[])
    && (v.pay.status == RefundPending ==> exists r :: r in v.refunds && v.refunds[r].status == RefundStatus.Pending)
    && (v.pay.status == PaymentStatus.Refunded <==> exists r ::
         r in v.refunds && v.refunds[r].status == RefundStatus.Refunded)
    && (forall r, s ::
         r in v.refunds && s in v.refunds && v.refunds[r].status == RefundStatus.Refunded == v.refunds[s].status ==>
             r == s)
  }

  /** Outside a refund, the row the refund event names is one that failed. */
  predicate NamedRowFailed(v: View) {
    v.refund.Some? && v.pay.status !in {RefundPending, PaymentStatus.Refunded}
    && v.refund.value.payload.RefundPayload? ==>
      var r := v.refund.value.payload.refund; r in v.refunds && v.refunds[r].status == RefundStatus.Failed
  }

  predicate FundingRows(p: PaymentId, f: Fees, rows: seq<Entry>) {
    |rows| == 3 && rows == Rows(rows[0].journal, PaymentFund, p, FundingLines(f))
  }

  predicate ReleaseRows(p: PaymentId, f: Fees, rows: seq<Entry>) {
    && |rows| == 4 && rows[0].journal < rows[2].journal
    && rows[..2] == Rows(rows[0].journal, rows[0].reference, p, ReleaseLines(f))
    && rows[2..] == Rows(rows[2].journal, rows[2].reference, p, PayoutLines(f))
  }

  predicate RefundRows(p: PaymentId, f: Fees, rows: seq<Entry>) {
    |rows| == 3 && rows == Rows(rows[0].journal, rows[0].reference, p, RefundLines(f))
  }

  /** The complete ledger of a payment: one funding journal, then nothing, one release with its payout, or one
      refund. */
  predicate RowsFollowStatus(p: PaymentId, pay: Payment, rows: seq<Entry>) {
    && |rows| >= 3
    && FundingRows(p, pay.fees, rows[..3])
    && match pay.status
       case Released => ReleaseRows(p, pay.fees, rows[3..]) && rows[0].journal < rows[3].journal
       case Refunded => RefundRows(p, pay.fees, rows[3..]) && rows[0].journal < rows[3].journal
       case _ => |rows| == 3
  }

  predicate SettlementFollowsStatus(v: View) {
    && (v.settlement.Some? <==> v.pay.status == Released)
    && (v.settlement.Some? ==>
         v.settlement.value.amount == v.pay.fees.payout && v.settlement.value.currency == v.pay.currency)
  }

  predicate ViewOk(p: PaymentId, v: View) {
    && FeesOk(v.pay.fees) && v.pay.amount == v.pay.fees.base
    && (v.pay.status in {HoldPending, HoldFailed} ==> v.pay.ref == Placeholder(p))
    && EventsFollowStatus(v)
    && PayloadsFit(p, v)
    && RefundRowsFit(p, v)
    && RowsFollowStatus(p, v.pay, v.rows)
    && SettlementFollowsStatus(v)
    && NamedRowFailed(v)
  }

  // ---------- all tables ----------

  predicate JobIndexOk(jobs: map<JobId, Job>, payments: map<PaymentId, Payment>, byJob: map<JobId, PaymentId>) {
    && (forall p :: p in payments ==>
         payments[p].job in jobs && payments[p].job in byJob && byJob[payments[p].job] == p)
    && (forall j :: j in byJob ==> byJob[j] in payments && payments[byJob[j]].job == j)
  }

  predicate KeyIndexOk(payments: map<PaymentId, Payment>, byKey: map<(UserId, Key), PaymentId>) {
    && (forall p :: p in payments && payments[p].key != NoKey ==>
         Get(byKey, (payments[p].payer, payments[p].key)) == Some(p))
    && (forall e :: e in byKey ==>
         byKey[e] in payments && payments[byKey[e]].payer == e.0 && payments[byKey[e]].key == e.1 && e.1 != NoKey)
  }

  predicate RefundIndexOk(refunds: map<RefundId, RefundRow>, byKey: map<(PaymentId, Key), RefundId>) {
    && (forall r :: r in refunds && refunds[r].key != NoKey ==>
         Get(byKey, (refunds[r].payment, refunds[r].key)) == Some(r))
    && (forall e :: e in byKey ==>
         byKey[e] in refunds && refunds[byKey[e]].payment == e.0 && refunds[byKey[e]].key == e.1)
  }

  /** Foreign keys towards payments, and ids that are really old. */
  predicate Owned(db: Db) {
    && (forall r :: r in db.refunds ==> db.refunds[r].payment in db.payments)
    && (forall p :: p in db.settlements ==> p in db.payments)
    && (forall k :: k in db.outbox ==> k.payment in db.payments)
    && (forall k :: k in db.outbox && db.outbox[k].token.Some? ==> db.outbox[k].token.value < db.nextId)
    && (forall i :: 0 <= i < |db.ledger| ==> db.ledger[i].payment in db.payments && db.ledger[i].journal < db.nextId)
  }

  predicate ViewsOk(db: Db) { forall p {:trigger ViewOf(db, p)} :: p in db.payments ==> ViewOk(p, ViewOf(db, p)) }

  ghost predicate Core(db: Db) {
    && JobIndexOk(db.jobs, db.payments, db.paymentByJob)
    && KeyIndexOk(db.payments, db.paymentByKey)
    && RefundIndexOk(db.refunds, db.refundByKey)
    && Owned(db)
    && JournalsBalanced(db.ledger)
    && ViewsOk(db)
  }

  // ---------- framing ----------

  ghost predicate OthersKept(db: Db, next: Db, q: PaymentId) {
    && (forall p :: p in db.payments && p != q ==> Get(next.payments, p) == Some(db.payments[p]))
    && (forall p :: p in next.payments && p != q ==> p in db.payments)
    && (forall k: EventKey :: k.payment != q ==> Get(next.outbox, k) == Get(db.outbox, k))
    && (forall r :: r in db.refunds && db.refunds[r].payment != q ==> Get(next.refunds, r) == Some(db.refunds[r]))
    && (forall r :: r in next.refunds && next.refunds[r].payment != q ==> r in db.refunds)
    && (forall p: PaymentId :: p != q ==> Get(next.settlements, p) == Get(db.settlements, p))
    && |db.ledger| <= |next.ledger| && next.ledger[..|db.ledger|] == db.ledger
    && (forall i :: |db.ledger| <= i < |next.ledger| ==> next.ledger[i].payment == q)
  }

  lemma SameView(db: Db, next: Db, q: PaymentId, p: PaymentId)
    requires OthersKept(db, next, q)
    requires (forall r :: r in db.refunds && db.refunds[r].payment == q ==>
               Get(next.refunds, r).Some? && next.refunds[r].payment == q)
    requires p in db.payments && p != q
    ensures p in next.payments && ViewOf(next, p) == ViewOf(db, p)
  {
    assert Get(next.payments, p) == Some(db.payments[p]);
    forall r | r in next.refunds && next.refunds[r].payment == p
      ensures r in db.refunds && db.refunds[r] == next.refunds[r] {
      assert r in db.refunds;
      assert Get(next.refunds, r).Some?;
    }
    forall r | r in db.refunds && db.refunds[r].payment == p
      ensures r in next.refunds && db.refunds[r] == next.refunds[r] {
      assert Get(next.refunds, r) == Some(db.refunds[r]);
    }
    assert RefundsOf(next.refunds, p) == RefundsOf(db.refunds, p);
    var tail := next.ledger[|db.ledger|..];
    assert next.ledger == db.ledger + tail;
    EntriesOfAppend(db.ledger, tail, p);
    EntriesOfOther(tail, p);
  }

  /** A step that touches one payment has to re-establish the view of that payment only. */
  lemma FrameViews(db: Db, next: Db, q: PaymentId)
    requires ViewsOk(db)
    requires OthersKept(db, next, q)
    requires (forall r :: r in db.refunds && db.refunds[r].payment == q ==>
               Get(next.refunds, r).Some? && next.refunds[r].payment == q)
    requires q in next.payments && ViewOk(q, ViewOf(next, q))
    ensures ViewsOk(next)
  {
    forall p | p in next.payments ensures ViewOk(p, ViewOf(next, p)) {
      if p != q {
        SameView(db, next, q, p);
      }
    }
  }
}
