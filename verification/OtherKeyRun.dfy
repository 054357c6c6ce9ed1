/** A run in which a refund retried under another key cannot be finished by the worker. */
module OtherKeyRun {
  import opened Options
  import opened Money
  import opened Schema
  import opened Transactions
  import opened Protocol
  import opened RefundTracking

  /** A funded mission whose hold a webhook confirms. */
  const FUND: Step := Pay(Fund(1, 1, 2, None, 1000, 7, NoKey, 0, 0))
  const CONFIRM: Step := Pay(Webhook(1, PaymentHeld, 7, Placeholder(7), 0))
  const PUBLISHED_RUN: seq<Step> := [Board(CreateJobStep(1, 1, Mission)), Board(Publish(1))]
  const FUNDED_RUN: seq<Step> := PUBLISHED_RUN + [FUND]
  const HELD_RUN: seq<Step> := FUNDED_RUN + [CONFIRM]

  /** A refund that fails for good, and a second request under another key. */
  const REQUEST: Step := Pay(RequestRefund(1, 7, 1, 0, 20, ClientKey(1), 0))
  const CLAIM: Step := Work(ClaimStep(EventKey(Refund, 7), 0, 60))
  const GIVE_UP: Step := Work(Fail(Ticket(EventKey(Refund, 7), 1, NAMED), 1, 0, 0))
  const REQUEST_AGAIN: Step := Pay(RequestRefund(1, 7, 1, 0, 21, ClientKey(2), 0))
  const REQUESTED_RUN: seq<Step> := HELD_RUN + [REQUEST]
  const CLAIMED_RUN: seq<Step> := REQUESTED_RUN + [CLAIM]
  const GIVEN_UP_RUN: seq<Step> := CLAIMED_RUN + [GIVE_UP]
  const OTHER_KEY_RUN: seq<Step> := GIVEN_UP_RUN + [REQUEST_AGAIN]

  lemma RunStep(w: World, steps: seq<Step>, s: Step)
    ensures Run(w, steps + [s]) == Next(Run(w, steps), s)
  {
    assert (steps + [s])[..|steps|] == steps;
  }

  predicate Funded7(db: Db, status: PaymentStatus) {
    && db.jobs == map[1 := Job(1, Some(2), Mission, Funded)]
    && db.payments.Keys == {7} && db.payments[7].job == 1 && db.payments[7].status == status
    && db.payments[7].ref == Placeholder(7)
  }

  predicate Row20(db: Db, status: RefundStatus) {
    && 20 in db.refunds && db.refunds[20].payment == 7 && db.refunds[20].status == status
    && db.refunds[20].key == ClientKey(1)
    && Get(db.refundByKey, (7, ClientKey(1))) == Some(20)
  }

  const NAMED: Payload := RefundPayload(1, 1, 7, 20, Placeholder(7), ClientKey(1))

  predicate Event7(db: Db, status: EventStatus, attempts: nat, token: Option<nat>) {
    var k := EventKey(Refund, 7);
    k in db.outbox && db.outbox[k] == Event(status, attempts, 0, db.outbox[k].lockedAt, token, 0, NAMED)
  }

  lemma PublishedRun()
    ensures Run(INITIAL, PUBLISHED_RUN) == World(PUBLISHED, {}, [], {})
  {
    var create, publish := Board(CreateJobStep(1, 1, Mission)), Board(Publish(1));
    assert Run(INITIAL, []) == INITIAL;
    RunStep(INITIAL, [], create);
    RunStep(INITIAL, [create], publish);
    assert [] + [create] == [create] && [create] + [publish] == PUBLISHED_RUN;
  }

  const PUBLISHED: Db := EMPTY.(jobs := map[1 := Job(1, None, Mission, Published)])

  lemma FirstFunding()
    ensures var (next, reply) := FundJob(PUBLISHED, 1, 1, 2, None, 1000, 7, NoKey, 0, 0);
            && reply == Created && Funded7(next, HoldPending)
            && next.refunds == map[] && next.refundByKey == map[] && next.webhooks == {}
            && EventKey(Refund, 7) !in next.outbox && next.nextId == 1
  {
    PostableIffLargeEnough(Mission, 1000);
    assert FundReply(PUBLISHED, 1, 1, 2, None, 1000, 7, NoKey) == Created;
    var next := InsertPayment(PUBLISHED, NewPayment(PUBLISHED.jobs[1], 1, 1, 2, 1000, 7, NoKey, 0), 7, None, 0);
    assert next.payments.Keys == {7};
  }

  lemma FundedRun()
    ensures var w := Run(INITIAL, FUNDED_RUN);
            && Funded7(w.db, HoldPending) && w.db.refunds == map[] && w.db.refundByKey == map[] && w.db.webhooks == {}
            && EventKey(Refund, 7) !in w.db.outbox && w.db.nextId == 1 && w.tickets == {}
  {
    PublishedRun();
    FirstFunding();
    RunStep(INITIAL, PUBLISHED_RUN, FUND);
  }

  lemma HeldByWebhook(db: Db)
    requires Funded7(db, HoldPending) && db.webhooks == {}
    ensures ApplyWebhook(db, 1, PaymentHeld, 7, Placeholder(7), 0).0
            == db.(webhooks := {1}, payments := db.payments[7 := db.payments[7].(status := Held)])
  {
    assert !RefTaken(db.payments, Placeholder(7), 7);
    assert db.payments[7].(status := Held, ref := Placeholder(7)) == db.payments[7].(status := Held);
  }

  lemma HeldStep(w: World)
    requires Funded7(w.db, HoldPending) && w.db.refunds == map[] && w.db.webhooks == {}
    ensures Next(w,
                 CONFIRM) == w.(db := w.db.(webhooks := {1},
                                            payments := w.db.payments[7 := w.db.payments[7].(status := Held)]))
  {
    HeldByWebhook(w.db);
  }

  lemma HeldRun()
    ensures var w := Run(INITIAL, HELD_RUN);
            && Funded7(w.db, Held) && w.db.refunds == map[] && w.db.refundByKey == map[]
            && EventKey(Refund, 7) !in w.db.outbox && w.db.nextId == 1 && w.tickets == {} && w.db.webhooks == {1}
  {
    FundedRun();
    HeldStep(Run(INITIAL, FUNDED_RUN));
    RunStep(INITIAL, FUNDED_RUN, CONFIRM);
  }

  lemma FirstRequest(db: Db)
    requires Funded7(db, Held) && db.refunds == map[] && db.refundByKey == map[] && EventKey(Refund, 7) !in db.outbox
             && db.nextId == 1
    ensures var next := RequestRefundOf(db, 1, 7, 1, 20, ClientKey(1), 0);
            && Funded7(next, RefundPending) && Row20(next, RefundStatus.Pending)
            && Event7(next, EventStatus.Pending, 0, None)
            && next.refunds.Keys == {20} && next.refundByKey.Keys == {(7, ClientKey(1))} && next.nextId == 1
  {
    assert RequestedRow(db, 7, 20, ClientKey(1)) == 20;
  }

  lemma RequestStep(w: World)
    requires Funded7(w.db, Held) && w.db.refunds == map[] && w.db.refundByKey == map[]
             && EventKey(Refund, 7) !in w.db.outbox && w.db.nextId == 1
    ensures var next := Next(w, REQUEST);
            && Funded7(next.db, RefundPending) && Row20(next.db, RefundStatus.Pending)
            && Event7(next.db, EventStatus.Pending, 0, None)
            && next.db.refunds.Keys == {20} && next.db.refundByKey.Keys == {(7, ClientKey(1))} && next.db.nextId == 1
            && next.tickets == w.tickets
  {
    assert RefundReply(w.db, 1, 7, 1, 0, 20, ClientKey(1)) == Queued;
    FirstRequest(w.db);
  }

  lemma RequestedRun()
    ensures var w := Run(INITIAL, REQUESTED_RUN);
            && Funded7(w.db, RefundPending) && Row20(w.db, RefundStatus.Pending)
            && Event7(w.db, EventStatus.Pending, 0, None)
            && w.db.refunds.Keys == {20} && w.db.refundByKey.Keys == {(7, ClientKey(1))} && w.db.nextId == 1
            && w.tickets == {}
  {
    HeldRun();
    RequestStep(Run(INITIAL, HELD_RUN));
    RunStep(INITIAL, HELD_RUN, REQUEST);
  }

  lemma ClaimedRun()
    ensures var w := Run(INITIAL, CLAIMED_RUN);
            && Funded7(w.db, RefundPending) && Row20(w.db, RefundStatus.Pending)
            && Event7(w.db, EventStatus.Processing, 1, Some(1)) && w.db.nextId == 2
            && w.db.refunds.Keys == {20} && w.db.refundByKey.Keys == {(7, ClientKey(1))}
            && Ticket(EventKey(Refund, 7), 1, NAMED) in w.tickets
  {
    RequestedRun();
    RunStep(INITIAL, REQUESTED_RUN, CLAIM);
  }

  lemma GivingUp(w: World)
    requires Funded7(w.db, RefundPending) && Row20(w.db, RefundStatus.Pending)
             && Event7(w.db, EventStatus.Processing, 1, Some(1)) && w.db.nextId == 2
    requires w.db.refunds.Keys == {20} && w.db.refundByKey.Keys == {(7, ClientKey(1))}
             && Ticket(EventKey(Refund, 7), 1, NAMED) in w.tickets
    ensures var next := Next(w, GIVE_UP);
            && Funded7(next.db, Held) && Row20(next.db, RefundStatus.Failed)
            && Event7(next.db, EventStatus.Failed, 1, None)
            && next.db.refunds.Keys == {20} && next.db.refundByKey.Keys == {(7, ClientKey(1))} && next.db.nextId == 2
  {
    GivesUp(w, 1, 1);
  }

  /** The last attempt failed: the event is dead, the payment is held, and the row the event names fails if it was
      pending. */
  lemma GivesUp(w: World, token: nat, attempts: nat)
    requires Funded7(w.db, RefundPending) && Event7(w.db, EventStatus.Processing, attempts, Some(token))
             && attempts >= 1
    requires 20 in w.db.refunds && Ticket(EventKey(Refund, 7), token, NAMED) in w.tickets
    ensures var k := EventKey(Refund, 7);
            Next(w, Work(Fail(Ticket(k, token, NAMED), 1, 0, 0))).db
            == w.db.(outbox := w.db.outbox[k := AfterFailure(w.db.outbox[k], 1, 0, 0)],
                     payments := w.db.payments[7 := w.db.payments[7].(status := Held)],
                     refunds := if w.db.refunds[20].status == RefundStatus.Pending
                                then w.db.refunds[20 := w.db.refunds[20].(status := RefundStatus.Failed)]
                                else w.db.refunds)
  {
    assert FailReply(w.db, EventKey(Refund, 7), Some(token), 1) == Terminal;
  }

  lemma GivenUpRun()
    ensures var w := Run(INITIAL, GIVEN_UP_RUN);
            && Funded7(w.db, Held) && Row20(w.db, RefundStatus.Failed) && Event7(w.db, EventStatus.Failed, 1, None)
            && w.db.refunds.Keys == {20} && w.db.refundByKey.Keys == {(7, ClientKey(1))} && w.db.nextId == 2
  {
    ClaimedRun();
    GivingUp(Run(INITIAL, CLAIMED_RUN));
    RunStep(INITIAL, CLAIMED_RUN, GIVE_UP);
  }

  /** The second row waits under the second key; the first one failed. */
  predicate TwoRows(db: Db) {
    && 20 in db.refunds && db.refunds[20].payment == 7 && db.refunds[20].status == RefundStatus.Failed
    && 21 in db.refunds && db.refunds[21].payment == 7 && db.refunds[21].status == RefundStatus.Pending
    && Get(db.refundByKey, (7, ClientKey(2))) == Some(21)
  }

  lemma SecondRequest(w: World)
    requires Funded7(w.db, Held) && Row20(w.db, RefundStatus.Failed) && Event7(w.db, EventStatus.Failed, 1, None)
    requires w.db.refunds.Keys == {20} && w.db.refundByKey.Keys == {(7, ClientKey(1))} && w.db.nextId == 2
    ensures var next := Next(w, REQUEST_AGAIN).db;
            && Funded7(next, RefundPending) && TwoRows(next) && Event7(next, EventStatus.Pending, 1, None)
            && next.nextId == 2
  {
    assert RefundReply(w.db, 1, 7, 1, 0, 21, ClientKey(2)) == Queued;
    assert RequestedRow(w.db, 7, 21, ClientKey(2)) == 21;
  }

  lemma StrandedRun()
    ensures var w := Run(INITIAL, OTHER_KEY_RUN);
            Funded7(w.db, RefundPending) && TwoRows(w.db) && Event7(w.db, EventStatus.Pending, 1, None)
            && w.db.nextId == 2
  {
    GivenUpRun();
    SecondRequest(Run(INITIAL, GIVEN_UP_RUN));
    RunStep(INITIAL, GIVEN_UP_RUN, REQUEST_AGAIN);
  }

  /** The payment waits for a refund that no worker can finish. */
  lemma OtherKeyCannotFinish(ref: Ref)
    ensures var db := Run(INITIAL, OTHER_KEY_RUN).db;
            && 7 in db.payments && db.payments[7].status == RefundPending && EventKey(Refund, 7) in db.outbox
            && db.outbox[EventKey(Refund, 7)].payload.RefundPayload?
            && FinishNamedRefund(db, 7, ref) == (db, Refused(WrongRefundState))
  {
    StrandedRun();
  }

  /** The worker claims the event once more, is refused, and gives it up. */
  const GIVE_UP_AGAIN: Step := Work(Fail(Ticket(EventKey(Refund, 7), 2, NAMED), 1, 0, 0))
  const CLAIMED_AGAIN_RUN: seq<Step> := OTHER_KEY_RUN + [CLAIM]
  const AFTERMATH: seq<Step> := CLAIMED_AGAIN_RUN + [GIVE_UP_AGAIN]

  lemma ClaimedAgain(w: World)
    requires Funded7(w.db, RefundPending) && TwoRows(w.db) && Event7(w.db, EventStatus.Pending, 1, None)
             && w.db.nextId == 2
    ensures var next := Next(w, CLAIM);
            && Funded7(next.db, RefundPending) && TwoRows(next.db)
            && Event7(next.db, EventStatus.Processing, 2, Some(2))
            && Ticket(EventKey(Refund, 7), 2, NAMED) in next.tickets
  {
  }

  lemma GivenUpAgain(w: World)
    requires Funded7(w.db, RefundPending) && TwoRows(w.db) && Event7(w.db, EventStatus.Processing, 2, Some(2))
    requires Ticket(EventKey(Refund, 7), 2, NAMED) in w.tickets
    ensures Funded7(Next(w, GIVE_UP_AGAIN).db, Held) && TwoRows(Next(w, GIVE_UP_AGAIN).db)
  {
    GivesUp(w, 2, 2);
  }

  /** The payment is held again, the second row stays pending, and a further request under the second key is answered as
      a replay and queues nothing. */
  lemma OtherKeyIsIgnored(id: RefundId, now: int)
    ensures var db := Run(INITIAL, AFTERMATH).db;
            && 7 in db.payments && db.payments[7].status == Held
            && 21 in db.refunds && db.refunds[21].payment == 7 && db.refunds[21].status == RefundStatus.Pending
            && CreateRefund(db, 1, 7, 1, 0, id, ClientKey(2), now) == (db, Replayed)
  {
    StrandedRun();
    RunStep(INITIAL, OTHER_KEY_RUN, CLAIM);
    RunStep(INITIAL, CLAIMED_AGAIN_RUN, GIVE_UP_AGAIN);
    ClaimedAgain(Run(INITIAL, OTHER_KEY_RUN));
    GivenUpAgain(Run(INITIAL, CLAIMED_AGAIN_RUN));
    Ignored(Run(INITIAL, AFTERMATH).db, id, now);
  }

  lemma Ignored(db: Db, id: RefundId, now: int)
    requires Funded7(db, Held) && TwoRows(db)
    ensures CreateRefund(db, 1, 7, 1, 0, id, ClientKey(2), now) == (db, Replayed)
  {
    assert PriorRefund(db, 7, ClientKey(2)) == Some(21);
  }
}
