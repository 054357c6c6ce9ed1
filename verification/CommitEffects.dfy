/** What workers do in every reachable state, in terms of the rows alone: what a commit under the current lease writes
    and what it is refused for, what a failure report leaves behind, and what one attempt of a worker comes to. */
module CommitEffects {
  import opened Options
  import opened Money
  import opened Schema
  import opened Transactions
  import opened Protocol
  import opened Invariant
  import opened Preservation
  import opened Reachability
  import opened References
  import opened Backoff
  import Worker

  /** The ticket still carries the lease of its event. */
  predicate HasLease(db: Db, t: Ticket) {
    t.event in db.outbox && db.outbox[t.event].token == Some(t.token) && t.payload == db.outbox[t.event].payload
  }

  /** Only the event changes: it is done. */
  predicate OnlyDone(db: Db, next: Db, k: EventKey)
    requires k in db.outbox
  {
    next == db.(outbox := db.outbox[k := db.outbox[k].(status := EventStatus.Done, lockedAt := None)])
  }

  lemma TicketPayload(db: Db, t: Ticket)
    requires Core(db) && HasLease(db, t)
    ensures t.event.payment in db.payments
    ensures var p := t.event.payment;
            match t.event.kind
            case CreateHold => t.payload.HoldPayload? && t.payload.payment == p && t.payload.job == db.payments[p].job
            case Release => t.payload.ReleasePayload? && t.payload.payment == p && t.payload.job == db.payments[p].job
            case Refund => t.payload.RefundPayload? && t.payload.payment == p && t.payload.job == db.payments[p].job
                           && t.payload.refund in db.refunds && db.refunds[t.payload.refund].payment == p
  {
    ViewAt(db, t.event.payment);
    EventInView(db, t.event);
  }

  // ---------- holds ----------

  predicate OtherPaymentHas(db: Db, p: PaymentId, ref: Ref) {
    exists q :: q in db.payments && q != p && db.payments[q].ref == ref
  }

  /** The payment is held under the provider's reference, and the event is done. */
  predicate HoldCommitted(db: Db, next: Db, p: PaymentId, ref: Ref)
    requires p in db.payments && EventKey(CreateHold, p) in db.outbox
  {
    var k := EventKey(CreateHold, p);
    next == db.(payments := db.payments[p := db.payments[p].(status := Held, ref := ref)],
                outbox := db.outbox[k := db.outbox[k].(status := EventStatus.Done, lockedAt := None)])
  }

  lemma HoldReplies(db: Db, t: Ticket, ref: Ref)
    requires Core(db) && HasLease(db, t) && t.event.kind == CreateHold
    ensures var p := t.event.payment;
            && p in db.payments
            && HoldCommitReply(db, t.event, db.payments[p].job, p, ref, Some(t.token))
               == match db.payments[p].status
                  case Held => if db.payments[p].ref == ref then AlreadyDone else Throw(ProviderRefMismatch)
                  case HoldPending => if OtherPaymentHas(db, p, ref) then Throw(UniqueViolation) else Committed
                  case _ => Refused(WrongPaymentState)
  {
    TicketPayload(db, t);
    assert RefTaken(db.payments, ref, t.event.payment) <==> OtherPaymentHas(db, t.event.payment, ref);
  }

  /** What the commit of a confirmed hold answers and writes, by the status of the payment. */
  predicate HoldAnswered(db: Db, next: Db, reply: Reply, p: PaymentId, ref: Ref)
    requires p in db.payments && EventKey(CreateHold, p) in db.outbox
  {
    match db.payments[p].status
    case HoldPending =>
      if OtherPaymentHas(db, p, ref) then next == db && reply == Throw(UniqueViolation)
      else HoldCommitted(db, next, p, ref) && reply == Committed
    case Held =>
      if db.payments[p].ref != ref then next == db && reply == Throw(ProviderRefMismatch)
      else OnlyDone(db, next, EventKey(CreateHold, p)) && reply == AlreadyDone
    case _ => next == db && reply == Refused(WrongPaymentState)
  }

  lemma HoldOutcome(db: Db, t: Ticket, ref: Ref)
    requires Core(db) && HasLease(db, t) && t.event.kind == CreateHold
    ensures var (next, reply) := CompleteTicket(db, t, ref);
            t.event.payment in db.payments && HoldAnswered(db, next, reply, t.event.payment, ref)
  {
    TicketPayload(db, t);
    HoldReplies(db, t, ref);
  }

  // ---------- releases ----------

  /** Payment, job and settlement are finished, one release and one payout journal are posted, and the event is done. */
  predicate ReleaseCommitted(db: Db, next: Db, p: PaymentId)
    requires p in db.payments && db.payments[p].job in db.jobs && EventKey(Release, p) in db.outbox
  {
    var pay := db.payments[p];
    var k := EventKey(Release, p);
    && next.payments == db.payments[p := pay.(status := Released)]
    && next.jobs == db.jobs[pay.job := db.jobs[pay.job].(status := Settled)]
    && next.settlements == db.settlements[p := Settlement(pay.ref, pay.fees.payout, pay.currency)]
    && next.ledger == db.ledger
                      + [Entry(db.nextId, PaymentRelease, p, Line(EscrowLiability, pay.fees.payout, 0)),
                         Entry(db.nextId, PaymentRelease, p, Line(UserPayable, 0, pay.fees.payout)),
                         Entry(db.nextId + 1, PaymentPayout, p, Line(UserPayable, pay.fees.payout, 0)),
                         Entry(db.nextId + 1, PaymentPayout, p, Line(PlatformCash, 0, pay.fees.payout))]
    && next.outbox == db.outbox[k := db.outbox[k].(status := EventStatus.Done, lockedAt := None)]
    && next == db.(payments := next.payments, jobs := next.jobs, settlements := next.settlements, ledger := next.ledger,
                   outbox := next.outbox, nextId := db.nextId + 2)
  }

  lemma ReleaseWrites(db: Db, p: PaymentId)
    requires p in db.payments && db.payments[p].job in db.jobs && p !in db.settlements
    requires EventKey(Release, p) in db.outbox
    ensures ReleaseCommitted(db, FinishRelease(DoneEvent(db, EventKey(Release, p)), p, db.payments[p].ref,
                                               PaymentRelease, PaymentPayout), p)
  {
    var done := DoneEvent(db, EventKey(Release, p));
    var next := FinishRelease(done, p, db.payments[p].ref, PaymentRelease, PaymentPayout);
    var f := db.payments[p].fees;
    assert next.ledger == db.ledger + (Rows(db.nextId, PaymentRelease, p, ReleaseLines(f))
                                       + Rows(db.nextId + 1, PaymentPayout, p, PayoutLines(f)));
  }

  lemma ReleaseReplies(db: Db, t: Ticket)
    requires Core(db) && RefsOk(db) && HasLease(db, t) && t.event.kind == Release
    ensures var p := t.event.payment;
            && p in db.payments
            && ReleaseCommitReply(db, t.event, db.payments[p].job, p, Some(t.token))
               == match db.payments[p].status
                  case Released => AlreadyDone
                  case ReleasePending => Committed
                  case _ => Refused(WrongPaymentState)
  {
    var p := t.event.payment;
    TicketPayload(db, t);
    assert FeesOk(db.payments[p].fees) by { ViewAt(db, p); }
    FeesPostable(db.payments[p].fees);
    SettlementRefFree(db, p);
  }

  /** What the commit of a confirmed release answers and writes. */
  predicate ReleaseAnswered(db: Db, next: Db, reply: Reply, p: PaymentId)
    requires p in db.payments && db.payments[p].job in db.jobs && EventKey(Release, p) in db.outbox
  {
    match db.payments[p].status
    case ReleasePending => ReleaseCommitted(db, next, p) && reply == Committed
    case Released => OnlyDone(db, next, EventKey(Release, p)) && reply == AlreadyDone
    case _ => next == db && reply == Refused(WrongPaymentState)
  }

  lemma ReleaseOutcome(db: Db, t: Ticket, ref: Ref)
    requires Core(db) && RefsOk(db) && HasLease(db, t) && t.event.kind == Release
    ensures var p := t.event.payment;
            var (next, reply) := CompleteTicket(db, t, ref);
            p in db.payments && db.payments[p].job in db.jobs && ReleaseAnswered(db, next, reply, p)
  {
    var p := t.event.payment;
    TicketPayload(db, t);
    ReleaseReplies(db, t);
    if db.payments[p].status == ReleasePending {
      UnsettledUntilReleased(db, p);
      ReleaseWrites(db, p);
    }
  }

  // ---------- refunds ----------

  /** Row, payment and job are refunded, one refund journal is posted, and the event is done. */
  predicate RefundCommitted(db: Db, next: Db, p: PaymentId, r: RefundId, ref: Ref)
    requires p in db.payments && db.payments[p].job in db.jobs && EventKey(Refund, p) in db.outbox && r in db.refunds
  {
    var pay := db.payments[p];
    var job := db.jobs[pay.job];
    var k := EventKey(Refund, p);
    && next.refunds == db.refunds[r := db.refunds[r].(status := RefundStatus.Refunded, ref := Some(ref))]
    && next.payments == db.payments[p := pay.(status := PaymentStatus.Refunded)]
    && next.jobs == db.jobs[pay.job := job.(status := if job.provider == None then Published else Assigned)]
    && next.ledger == db.ledger
                      + [Entry(db.nextId, PaymentRefund, p, Line(EscrowLiability, pay.fees.payout, 0)),
                         Entry(db.nextId, PaymentRefund, p, Line(PlatformFeeRevenue, pay.fees.platformFee, 0)),
                         Entry(db.nextId, PaymentRefund, p, Line(PlatformCash, 0, pay.fees.charge))]
    && next.outbox == db.outbox[k := db.outbox[k].(status := EventStatus.Done, lockedAt := None)]
    && next == db.(refunds := next.refunds, payments := next.payments, jobs := next.jobs, ledger := next.ledger,
                   outbox := next.outbox, nextId := db.nextId + 1)
  }

  lemma RefundWrites(db: Db, p: PaymentId, r: RefundId, ref: Ref)
    requires p in db.payments && db.payments[p].job in db.jobs && EventKey(Refund, p) in db.outbox && r in db.refunds
    ensures RefundCommitted(db, FinishRefund(DoneEvent(db, EventKey(Refund, p)), p, r, Some(ref), PaymentRefund), p, r,
                            ref)
  {
  }

  lemma RefundReplies(db: Db, t: Ticket, r: RefundId, ref: Ref)
    requires Core(db) && HasLease(db, t) && t.event.kind == Refund && t.payload.RefundPayload? && r == t.payload.refund
    ensures var p := t.event.payment;
            && p in db.payments && r in db.refunds
            && RefundCommitReply(db, t.event, db.payments[p].job, p, r, ref, Some(t.token))
               == if db.payments[p].status == PaymentStatus.Refunded && db.refunds[r].status == RefundStatus.Refunded
                  then AlreadyDone
                  else if db.payments[p].status != RefundPending || db.refunds[r].status != RefundStatus.Pending
                  then Refused(WrongRefundState)
                  else if OtherRefundHas(db, r, ref) then Throw(UniqueViolation)
                  else Committed
  {
    var p := t.event.payment;
    TicketPayload(db, t);
    assert FeesOk(db.payments[p].fees) by { ViewAt(db, p); }
    FeesPostable(db.payments[p].fees);
    assert RefundRefTaken(db.refunds, ref, r) <==> OtherRefundHas(db, r, ref);
  }

  /** What the commit of a confirmed refund answers and writes, by the status of the payment and of the row the event
      names. */
  predicate RefundAnswered(db: Db, next: Db, reply: Reply, p: PaymentId, r: RefundId, ref: Ref)
    requires p in db.payments && db.payments[p].job in db.jobs && EventKey(Refund, p) in db.outbox && r in db.refunds
  {
    if db.payments[p].status == RefundPending && db.refunds[r].status == RefundStatus.Pending
    then if OtherRefundHas(db, r, ref) then next == db && reply == Throw(UniqueViolation)
         else RefundCommitted(db, next, p, r, ref) && reply == Committed
    else if db.payments[p].status == PaymentStatus.Refunded && db.refunds[r].status == RefundStatus.Refunded
    then OnlyDone(db, next, EventKey(Refund, p)) && reply == AlreadyDone
    else next == db && reply == Refused(WrongRefundState)
  }

  lemma RefundOutcome(db: Db, t: Ticket, ref: Ref)
    requires Core(db) && HasLease(db, t) && t.event.kind == Refund
    ensures var p := t.event.payment;
            var (next, reply) := CompleteTicket(db, t, ref);
            && t.payload.RefundPayload? && t.payload.refund in db.refunds
            && p in db.payments && db.payments[p].job in db.jobs
            && RefundAnswered(db, next, reply, p, t.payload.refund, ref)
  {
    TicketPayload(db, t);
    RefundReplies(db, t, t.payload.refund, ref);
    RefundWrites(db, t.event.payment, t.payload.refund, ref);
  }

  // ---------- commits in every reachable state ----------

  lemma ReachableTicket(steps: seq<Step>, t: Ticket)
    requires t in Run(INITIAL, steps).tickets
    ensures var db := Run(INITIAL, steps).db;
            && Core(db) && RefsOk(db) && t.event in db.outbox
            && (db.outbox[t.event].token == Some(t.token) ==> HasLease(db, t))
  {
    ReachableWorldOk(steps);
    ReachableRefsOk(steps);
  }

  lemma CompleteStep(w: World, t: Ticket, ref: Ref)
    requires t in w.tickets && ref != NoRef
    ensures Next(w, Work(Complete(t, ref))).db == CompleteTicket(w.db, t, ref).0
  {
  }

  /** The commit of a confirmed hold, by a worker that still has the lease: a payment that waits is held under the
      provider's reference, unless another payment has that reference; one that is held already under the same reference
      is left as it is and the event is done; under another reference, or in any other state, nothing is written. */
  lemma HoldCommit(steps: seq<Step>, t: Ticket, ref: Ref)
    requires var w := Run(INITIAL, steps);
             t in w.tickets && t.event.kind == CreateHold && ref != NoRef && t.event in w.db.outbox
             && w.db.outbox[t.event].token == Some(t.token)
    ensures var db := Run(INITIAL, steps).db;
            var next := Next(Run(INITIAL, steps), Work(Complete(t, ref))).db;
            var (p, reply) := (t.event.payment, CompleteTicket(db, t, ref).1);
            p in db.payments && HoldAnswered(db, next, reply, p, ref)
  {
    ReachableTicket(steps, t);
    CompleteStep(Run(INITIAL, steps), t, ref);
    HoldOutcome(Run(INITIAL, steps).db, t, ref);
  }

  /** The commit of a confirmed release: a payment that waits for it is released under its stored reference, whatever
      the provider answered; one that is released already is left as it is; in any other state nothing is written. */
  lemma ReleaseCommit(steps: seq<Step>, t: Ticket, ref: Ref)
    requires var w := Run(INITIAL, steps);
             t in w.tickets && t.event.kind == Release && ref != NoRef && t.event in w.db.outbox
             && w.db.outbox[t.event].token == Some(t.token)
    ensures var db := Run(INITIAL, steps).db;
            var next := Next(Run(INITIAL, steps), Work(Complete(t, ref))).db;
            var (p, reply) := (t.event.payment, CompleteTicket(db, t, ref).1);
            p in db.payments && db.payments[p].job in db.jobs && ReleaseAnswered(db, next, reply, p)
  {
    ReachableTicket(steps, t);
    CompleteStep(Run(INITIAL, steps), t, ref);
    ReleaseOutcome(Run(INITIAL, steps).db, t, ref);
  }

  /** The commit of a confirmed refund: a payment that waits for it, with a pending row named by the event, is refunded
      under the provider's reference, unless another refund has that reference; when both are refunded already they are
      left as they are; in any other state nothing is written. */
  lemma RefundCommit(steps: seq<Step>, t: Ticket, ref: Ref)
    requires var w := Run(INITIAL, steps);
             t in w.tickets && t.event.kind == Refund && ref != NoRef && t.event in w.db.outbox
             && w.db.outbox[t.event].token == Some(t.token)
    ensures var db := Run(INITIAL, steps).db;
            var next := Next(Run(INITIAL, steps), Work(Complete(t, ref))).db;
            var (p, reply) := (t.event.payment, CompleteTicket(db, t, ref).1);
            && p in db.payments && db.payments[p].job in db.jobs
            && t.payload.RefundPayload? && t.payload.refund in db.refunds
            && RefundAnswered(db, next, reply, p, t.payload.refund, ref)
  {
    ReachableTicket(steps, t);
    CompleteStep(Run(INITIAL, steps), t, ref);
    RefundOutcome(Run(INITIAL, steps).db, t, ref);
  }

  // ---------- failures ----------

  /** The payment as a given-up event leaves it: one that waited for this event has failed, or is held again when it
      waited for a refund. */
  function GivenUp(pay: Payment, kind: EventKind): Payment {
    if kind == CreateHold && pay.status == HoldPending then pay.(status := HoldFailed)
    else if kind == Release && pay.status == ReleasePending then pay.(status := ReleaseFailed)
    else if kind == Refund && pay.status == RefundPending then pay.(status := Held)
    else pay
  }

  /** The pending row that a given-up refund event names has failed. */
  predicate RowGivenUp(db: Db, next: Db, t: Ticket) {
    if t.payload.RefundPayload? && t.payload.refund in db.refunds
       && db.refunds[t.payload.refund].status == RefundStatus.Pending
    then next.refunds == db.refunds[t.payload.refund :=
                                    db.refunds[t.payload.refund].(status := RefundStatus.Failed)]
    else next.refunds == db.refunds
  }

  /** The event is free for another attempt, not before its shortest delay and not after its longest. */
  predicate RetriedLater(db: Db, next: Db, k: EventKey, now: int)
    requires k in db.outbox
  {
    && k in next.outbox
    && now + Shortest(db.outbox[k].attempts) <= next.outbox[k].availableAt <= now + Longest(db.outbox[k].attempts)
    && next == db.(outbox := db.outbox[k := db.outbox[k].(status := EventStatus.Pending, lockedAt := None,
                                                          token := None, availableAt := next.outbox[k].availableAt)])
  }

  predicate Abandoned(db: Db, next: Db, t: Ticket, now: int)
    requires t.event in db.outbox && t.event.payment in db.payments
  {
    var (k, p) := (t.event, t.event.payment);
    && RowGivenUp(db, next, t)
    && next == db.(outbox := db.outbox[k := db.outbox[k].(status := EventStatus.Failed, lockedAt := None, token := None,
                                                          availableAt := now)],
                   payments := db.payments[p := GivenUp(db.payments[p], k.kind)],
                   refunds := next.refunds)
  }

  lemma AbandonWrites(db: Db, t: Ticket, failed: Event, now: int)
    requires HasLease(db, t) && t.event.payment in db.payments
    requires t.payload.RefundPayload? <==> t.event.kind == Refund
    requires failed == db.outbox[t.event].(status := EventStatus.Failed, lockedAt := None, token := None,
                                           availableAt := now)
    ensures Abandoned(db, FailWith(db, t.event, failed), t, now)
  {
    var next := FailWith(db, t.event, failed);
    assert next.payments == db.payments[t.event.payment := GivenUp(db.payments[t.event.payment], t.event.kind)];
  }

  lemma FailStep(w: World, t: Ticket, maxAttempts: nat, now: int, jitter: nat)
    requires t in w.tickets
    ensures Next(w, Work(Fail(t, maxAttempts, now, jitter))).db
            == FailEvent(w.db, t.event, Some(t.token), maxAttempts, now, jitter).0
  {
  }

  lemma FailureWrites(db: Db, t: Ticket, maxAttempts: nat, now: int, jitter: nat)
    requires Core(db) && HasLease(db, t) && jitter <= 0xffff
    ensures var (next, reply) := FailEvent(db, t.event, Some(t.token), maxAttempts, now, jitter);
            && t.event.payment in db.payments
            && if db.outbox[t.event].attempts < maxAttempts
               then RetriedLater(db, next, t.event, now) && reply == RetryLater
               else Abandoned(db, next, t, now) && reply == Terminal
  {
    TicketPayload(db, t);
    DelayRange(db.outbox[t.event].attempts, jitter);
    if db.outbox[t.event].attempts >= maxAttempts {
      AbandonWrites(db, t, AfterFailure(db.outbox[t.event], maxAttempts, now, jitter), now);
    }
  }

  /** A failure report under the current lease: while attempts are left the event is only put back, for a delay in the
      exact range of its attempts; after the last one it is given up, with what waited for it and nothing else. */
  lemma FailureOutcome(steps: seq<Step>, t: Ticket, maxAttempts: nat, now: int, jitter: nat)
    requires var w := Run(INITIAL, steps);
             t in w.tickets && t.event in w.db.outbox && w.db.outbox[t.event].token == Some(t.token)
    requires jitter <= 0xffff
    ensures var db := Run(INITIAL, steps).db;
            var next := Next(Run(INITIAL, steps), Work(Fail(t, maxAttempts, now, jitter))).db;
            var reply := FailEvent(db, t.event, Some(t.token), maxAttempts, now, jitter).1;
            && t.event.payment in db.payments
            && if db.outbox[t.event].attempts < maxAttempts
               then RetriedLater(db, next, t.event, now) && reply == RetryLater
               else Abandoned(db, next, t, now) && reply == Terminal
  {
    var w := Run(INITIAL, steps);
    ReachableTicket(steps, t);
    FailStep(w, t, maxAttempts, now, jitter);
    FailureWrites(w.db, t, maxAttempts, now, jitter);
  }

  /** A ticket whose lease was replaced, or whose event was never there, gets a reason and writes nothing. */
  lemma StaleAnswers(steps: seq<Step>, t: Ticket, ref: Ref, maxAttempts: nat, now: int, jitter: nat)
    requires var w := Run(INITIAL, steps);
             t in w.tickets && t.event in w.db.outbox && w.db.outbox[t.event].token != Some(t.token)
    ensures var db := Run(INITIAL, steps).db;
            && CompleteTicket(db, t, ref) == (db, Refused(StaleLease))
            && FailEvent(db, t.event, Some(t.token), maxAttempts, now, jitter) == (db, Stale)
  {
  }

  // ---------- calls ----------

  /** The call asks the provider for what the claimed row says, under the row's key, which is never empty. */
  predicate Asks(call: Call, payload: Payload) {
    match payload
    case HoldPayload(_, _, p, amount, _, currency, key) => call == HoldCall(p, amount, currency, key) && key != NoKey
    case ReleasePayload(_, _, p, ref, key) => call == ReleaseCall(p, ref, key) && key != NoKey
    case RefundPayload(_, _, p, _, ref, key) => call == RefundCall(p, ref, key) && key != NoKey
  }

  /** In every reachable state a worker's call is the one its ticket's payload spells out. */
  lemma CallOutcome(steps: seq<Step>, t: Ticket)
    requires t in Run(INITIAL, steps).tickets
    ensures var (w, next) := (Run(INITIAL, steps), Next(Run(INITIAL, steps), Work(CallProvider(t))));
            && next.db == w.db && |next.calls| == |w.calls| + 1 && next.calls[..|w.calls|] == w.calls
            && Asks(next.calls[|w.calls|], t.payload)
  {
    var db := Run(INITIAL, steps).db;
    ReachableWorldOk(steps);
    ViewAt(db, t.event.payment);
    EventInView(db, t.event);
  }

  // ---------- claims and attempts ----------

  /** The event is pending, or its worker's lease is over, and its delay is over. */
  predicate Free(event: Event, now: int, lease: nat) {
    && (event.status == EventStatus.Pending
        || (event.status == EventStatus.Processing && event.lockedAt.Some? && event.lockedAt.value + lease < now))
    && event.availableAt <= now
  }

  /** One more attempt is under way, under a lease nobody had before. */
  predicate ClaimedNow(db: Db, next: Db, k: EventKey, now: int)
    requires k in db.outbox
  {
    next == db.(outbox := db.outbox[k := db.outbox[k].(status := EventStatus.Processing,
                                                       attempts := db.outbox[k].attempts + 1, lockedAt := Some(now),
                                                       token := Some(db.nextId))],
                nextId := db.nextId + 1)
  }

  /** An event can be claimed exactly when it is free, and whoever claims it gets the ticket of the new lease. */
  lemma ClaimOutcome(w: World, k: EventKey, now: int, lease: nat)
    requires k in w.db.outbox
    ensures var next := Next(w, Work(ClaimStep(k, now, lease)));
            if Free(w.db.outbox[k], now, lease)
            then ClaimedNow(w.db, next.db, k, now)
                 && next.tickets == w.tickets + {Ticket(k, w.db.nextId, w.db.outbox[k].payload)}
            else next == w
  {
  }

  predicate Failed(db: Db, next: Db, t: Ticket, maxAttempts: nat, now: int)
    requires t.event in db.outbox && t.event.payment in db.payments
  {
    if db.outbox[t.event].attempts < maxAttempts then RetriedLater(db, next, t.event, now)
    else Abandoned(db, next, t, now)
  }

  lemma ClaimKeepsAll(db: Db, k: EventKey, now: int)
    requires Core(db) && RefsOk(db) && k in db.outbox
             && db.outbox[k].status in {EventStatus.Pending, EventStatus.Processing}
    ensures Core(Claim(db, k, now)) && RefsOk(Claim(db, k, now))
    ensures HasLease(Claim(db, k, now), Ticket(k, db.nextId, db.outbox[k].payload))
  {
    ClaimKeepsCore(db, k, now);
    SameRefsKeep(db, Claim(db, k, now));
  }

  /** The provider confirmed, with a reference where one is needed, and the commit goes through. */
  predicate Goes(db: Db, t: Ticket, answer: Option<Ref>) {
    answer.Some? && (t.payload.ReleasePayload? || answer.value != NoRef)
    && CompleteTicket(db, t, answer.value).1 in {Committed, AlreadyDone}
  }

  lemma AttemptGoes(db: Db, t: Ticket, answer: Option<Ref>, maxAttempts: nat, now: int, jitter: nat)
    requires Goes(db, t, answer)
    ensures Worker.Processed(db, t, answer, maxAttempts, now, jitter) == CompleteTicket(db, t, answer.value).0
  {
  }

  lemma AttemptFails(db: Db, t: Ticket, answer: Option<Ref>, maxAttempts: nat, now: int, jitter: nat)
    requires Core(db) && HasLease(db, t) && jitter <= 0xffff && !Goes(db, t, answer)
    ensures t.event.payment in db.payments
    ensures Failed(db, Worker.Processed(db, t, answer, maxAttempts, now, jitter), t, maxAttempts, now)
  {
    FailureWrites(db, t, maxAttempts, now, jitter);
  }

  /** One attempt at a hold: with an answer that names a reference no other payment has, a payment that waits is held
      under it; an answer that names the reference the payment is held under finishes the event; anything else counts as
      a failure. */
  predicate HoldTried(db: Db, next: Db, t: Ticket, answer: Option<Ref>, maxAttempts: nat, now: int)
    requires t.event in db.outbox && t.event.kind == CreateHold && t.event.payment in db.payments
  {
    var (p, pay) := (t.event.payment, db.payments[t.event.payment]);
    var named := answer.Some? && answer.value != NoRef;
    if named && pay.status == HoldPending && !OtherPaymentHas(db, p, answer.value)
    then HoldCommitted(db, next, p, answer.value)
    else if named && pay.status == Held && pay.ref == answer.value then OnlyDone(db, next, t.event)
    else Failed(db, next, t, maxAttempts, now)
  }

  /** One attempt at a release: with any confirmation, with or without a reference, a payment that waits is released. */
  predicate ReleaseTried(db: Db, next: Db, t: Ticket, answer: Option<Ref>, maxAttempts: nat, now: int)
    requires t.event in db.outbox && t.event.kind == Release && t.event.payment in db.payments
             && db.payments[t.event.payment].job in db.jobs
  {
    var (p, pay) := (t.event.payment, db.payments[t.event.payment]);
    if answer.Some? && pay.status == ReleasePending then ReleaseCommitted(db, next, p)
    else if answer.Some? && pay.status == Released then OnlyDone(db, next, t.event)
    else Failed(db, next, t, maxAttempts, now)
  }

  /** One attempt at a refund: with an answer that names a reference no other refund has, a payment that waits is
      refunded, when the row the event names is pending. */
  predicate RefundTried(db: Db, next: Db, t: Ticket, answer: Option<Ref>, maxAttempts: nat, now: int)
    requires t.event in db.outbox && t.event.kind == Refund && t.event.payment in db.payments
             && db.payments[t.event.payment].job in db.jobs
             && t.payload.RefundPayload? && t.payload.refund in db.refunds
  {
    var (p, pay, r) := (t.event.payment, db.payments[t.event.payment], t.payload.refund);
    var named := answer.Some? && answer.value != NoRef;
    if named && pay.status == RefundPending && db.refunds[r].status == RefundStatus.Pending
       && !OtherRefundHas(db, r, answer.value)
    then RefundCommitted(db, next, p, r, answer.value)
    else if named && pay.status == PaymentStatus.Refunded && db.refunds[r].status == RefundStatus.Refunded
    then OnlyDone(db, next, t.event)
    else Failed(db, next, t, maxAttempts, now)
  }

  lemma HoldAttempt(db: Db, t: Ticket, answer: Option<Ref>, maxAttempts: nat, now: int, jitter: nat)
    requires Core(db) && HasLease(db, t) && t.event.kind == CreateHold && jitter <= 0xffff
    ensures t.event.payment in db.payments
    ensures HoldTried(db, Worker.Processed(db, t, answer, maxAttempts, now, jitter), t, answer, maxAttempts, now)
  {
    TicketPayload(db, t);
    if answer.Some? {
      HoldOutcome(db, t, answer.value);
    }
    if Goes(db, t, answer) {
      AttemptGoes(db, t, answer, maxAttempts, now, jitter);
    } else {
      AttemptFails(db, t, answer, maxAttempts, now, jitter);
    }
  }

  lemma ReleaseAttempt(db: Db, t: Ticket, answer: Option<Ref>, maxAttempts: nat, now: int, jitter: nat)
    requires Core(db) && RefsOk(db) && HasLease(db, t) && t.event.kind == Release && jitter <= 0xffff
    ensures t.event.payment in db.payments && db.payments[t.event.payment].job in db.jobs
    ensures ReleaseTried(db, Worker.Processed(db, t, answer, maxAttempts, now, jitter), t, answer, maxAttempts, now)
  {
    TicketPayload(db, t);
    if answer.Some? {
      ReleaseOutcome(db, t, answer.value);
    }
    if Goes(db, t, answer) {
      AttemptGoes(db, t, answer, maxAttempts, now, jitter);
    } else {
      AttemptFails(db, t, answer, maxAttempts, now, jitter);
    }
  }

  lemma RefundAttempt(db: Db, t: Ticket, answer: Option<Ref>, maxAttempts: nat, now: int, jitter: nat)
    requires Core(db) && HasLease(db, t) && t.event.kind == Refund && jitter <= 0xffff
    ensures t.event.payment in db.payments && db.payments[t.event.payment].job in db.jobs
            && t.payload.RefundPayload? && t.payload.refund in db.refunds
    ensures RefundTried(db, Worker.Processed(db, t, answer, maxAttempts, now, jitter), t, answer, maxAttempts, now)
  {
    TicketPayload(db, t);
    if answer.Some? {
      RefundOutcome(db, t, answer.value);
    }
    if Goes(db, t, answer) {
      AttemptGoes(db, t, answer, maxAttempts, now, jitter);
    } else {
      AttemptFails(db, t, answer, maxAttempts, now, jitter);
    }
  }

  lemma AttemptStarts(db: Db, mid: Db, k: EventKey, answer: Option<Ref>, maxAttempts: nat, now: int, lease: nat,
      jitter: nat)
    requires Core(db) && RefsOk(db) && k in db.outbox && Free(db.outbox[k], now, lease) && ClaimedNow(db, mid, k, now)
    ensures var t := Ticket(k, db.nextId, db.outbox[k].payload);
            && Core(mid) && RefsOk(mid) && HasLease(mid, t)
            && Worker.Attempt(db, k, answer, maxAttempts, now, jitter)
               == Worker.Processed(mid, t, answer, maxAttempts, now, jitter)
  {
    assert mid == Claim(db, k, now);
    ClaimKeepsAll(db, k, now);
  }

  /** What one attempt of a worker at a free event comes to, in every reachable state and whatever the provider answers;
      mid are the tables after the claim. */
  lemma AttemptOutcome(steps: seq<Step>, mid: Db, k: EventKey, answer: Option<Ref>, maxAttempts: nat, now: int,
      lease: nat, jitter: nat)
    requires var db := Run(INITIAL, steps).db;
             k in db.outbox && Free(db.outbox[k], now, lease) && ClaimedNow(db, mid, k, now)
    requires jitter <= 0xffff
    ensures var db := Run(INITIAL, steps).db;
            var t := Ticket(k, db.nextId, db.outbox[k].payload);
            var next := Worker.Attempt(db, k, answer, maxAttempts, now, jitter);
            && k.payment in mid.payments && mid.payments[k.payment].job in mid.jobs
            && match k.kind
               case CreateHold => HoldTried(mid, next, t, answer, maxAttempts, now)
               case Release => ReleaseTried(mid, next, t, answer, maxAttempts, now)
               case Refund =>
                 t.payload.RefundPayload? && t.payload.refund in mid.refunds
                 && RefundTried(mid, next, t, answer, maxAttempts, now)
  {
    var db := Run(INITIAL, steps).db;
    var t := Ticket(k, db.nextId, db.outbox[k].payload);
    ReachableRefsOk(steps);
    AttemptStarts(db, mid, k, answer, maxAttempts, now, lease, jitter);
    TicketPayload(mid, t);
    match k.kind {
      case CreateHold => HoldAttempt(mid, t, answer, maxAttempts, now, jitter);
      case Release => ReleaseAttempt(mid, t, answer, maxAttempts, now, jitter);
      case Refund => RefundAttempt(mid, t, answer, maxAttempts, now, jitter);
    }
  }
}
