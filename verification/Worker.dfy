/** The outbox worker (backend/src/outbox_worker.js, backend/src/outbox_handlers.js): claim an event, call the provider,
    commit, and report a failure when anything went wrong; then the same again until the event is done or given up. */
module Worker {
  import opened Options
  import opened Schema
  import opened Transactions
  import opened Protocol
  import opened Outcomes
  import opened Invariant
  import opened Preservation
  import opened Leases
  import opened Repository

  /** What the provider answered: a confirmation under a reference, or an error, a timeout, an answer without the
      reference. */
  type Answer = Option<Ref>

  /** A release needs no reference; a hold and a refund do. */
  predicate Confirms(payload: Payload, answer: Answer) {
    answer.Some? && (payload.ReleasePayload? || answer.value != NoRef)
  }

  /** What one call of processOutboxEvent does to the tables. */
  function Processed(db: Db, t: Ticket, answer: Answer, maxAttempts: nat, now: int, jitter: nat): Db {
    if Confirms(t.payload, answer)
       && CompleteTicket(db, t, answer.value).1 in {Committed, AlreadyDone} then CompleteTicket(db, t, answer.value).0
    else FailEvent(db, t.event, Some(t.token), maxAttempts, now, jitter).0
  }

  /** The commit that belongs to the kind of the payload. */
  method CommitTicket(repo: Repository, t: Ticket, ref: Ref) returns (reply: Reply)
    modifies repo
    ensures (repo.Tables(), reply) == CompleteTicket(old(repo.Tables()), t, ref)
  {
    match t.payload {
      case HoldPayload(j, _, p, _, _, _, _) =>
        reply := repo.CompletePaymentCreateHoldOutbox(t.event, j, p, ref, Some(t.token));
      case ReleasePayload(j, _, p, _, _) => reply := repo.CompletePaymentReleaseOutbox(t.event, j, p, Some(t.token));
      case RefundPayload(j, _, p, r, _, _) =>
        reply := repo.CompletePaymentRefundOutbox(t.event, j, p, r, ref, Some(t.token));
    }
  }

  /** processOutboxEvent: effects in sequence, and one catch around them. */
  method ProcessOutboxEvent(repo: Repository, t: Ticket, answer: Answer, maxAttempts: nat, now: int, jitter: nat)
      returns (processed: bool)
    modifies repo
    ensures repo.Tables() == Processed(old(repo.Tables()), t, answer, maxAttempts, now, jitter)
    ensures processed <==>
              Confirms(t.payload, answer)
              && CompleteTicket(old(repo.Tables()), t, answer.value).1 in {Committed, AlreadyDone}
  {
    if Confirms(t.payload, answer) {
      var reply := CommitTicket(repo, t, answer.value);
      if reply in {Committed, AlreadyDone} {
        return true;
      }
      // completed is false or the commit threw: nothing was written, and the catch reports the failure
      assert repo.Tables() == old(repo.Tables());
    }
    var _ := repo.FailOutboxEvent(t.event, Some(t.token), maxAttempts, now, jitter);
    return false;
  }

  /** claimOutboxEvent, then processOutboxEvent; false when there was nothing to claim. */
  method ProcessOne(repo: Repository, answer: Answer, maxAttempts: nat, lease: nat, now: int, jitter: nat)
      returns (claimed: Option<EventKey>)
    modifies repo
    ensures claimed.Some? ==>
      && claimed.value in old(repo.outbox) && Claimable(old(repo.outbox)[claimed.value], now, lease)
      && repo.Tables() == Attempt(old(repo.Tables()), claimed.value, answer, maxAttempts, now, jitter)
    ensures claimed.None? ==> repo.Tables() == old(repo.Tables()) && forall k :: k in repo.outbox ==>
              !Claimable(repo.outbox[k], now, lease)
  {
    var outbox, token := repo.outbox, repo.nextId;
    claimed := repo.ClaimOutboxEvent(now, lease);
    if claimed.Some? {
      var _ := ProcessOutboxEvent(repo, Ticket(claimed.value, token, outbox[claimed.value].payload), answer,
                                  maxAttempts, now, jitter);
    }
  }

  /** The steps of the protocol that one call of processOutboxEvent amounts to: the provider call, then a commit or a
      failure report. */
  function WorkerSteps(db: Db, t: Ticket, answer: Answer, maxAttempts: nat, now: int, jitter: nat): (steps: seq<Step>)
    ensures |steps| == 2
  {
    [Work(CallProvider(t)),
     if Confirms(t.payload, answer) && CompleteTicket(db, t, answer.value).1 in {Committed, AlreadyDone} then
       Work(Complete(t, if t.payload.ReleasePayload? then External(0) else answer.value))
     else Work(Fail(t, maxAttempts, now, jitter))]
  }

  /** The worker refines the protocol: whatever it does to the tables, a run of steps does. */
  lemma WorkerTakesProtocolSteps(w: World, t: Ticket, answer: Answer, maxAttempts: nat, now: int, jitter: nat)
    requires t in w.tickets
    ensures var steps := WorkerSteps(w.db, t, answer, maxAttempts, now, jitter);
            && Run(w, steps).db == Processed(w.db, t, answer, maxAttempts, now, jitter)
            && Run(w, steps).calls == w.calls + [CallOf(t.payload)]
  {
    var steps := WorkerSteps(w.db, t, answer, maxAttempts, now, jitter);
    assert steps[..1] == [steps[0]] && [steps[0]][..0] == [];
    assert Run(w, [steps[0]]) == Next(Run(w, []), steps[0]);
    assert Run(w, steps) == Next(Run(w, [steps[0]]), steps[1]);
  }

  /** A payment that is funded, retried, refunded or released has an event that a worker can claim at once. */
  ghost predicate Ready(db: Db, k: EventKey, now: int) {
    k in db.outbox && forall lease :: Claimable(db.outbox[k], now, lease)
  }

  lemma FundingIsReady(db: Db, s: PayStep)
    requires s.Fund?
    ensures var (next, reply) :=
              FundJob(db, s.job, s.payer, s.payee, s.chosen, s.amount, s.payment, s.key, s.currency, s.now);
            && (reply == Created ==> Ready(next, EventKey(CreateHold, s.payment), s.now))
            && (reply == Retried ==>
                 s.job in db.paymentByJob && Ready(next, EventKey(CreateHold, db.paymentByJob[s.job]), s.now))
  {
  }

  /** The upserts leave a finished event alone; in the states in which a refund or a release can be asked for there is
      none. */
  lemma RequestIsReady(db: Db, s: PayStep)
    requires Core(db) && (s.RequestRefund? || s.RequestRelease?) && NextPay(db, s) != db
    ensures Ready(NextPay(db, s), EventKey(if s.RequestRefund? then Refund else Release, s.payment), s.now)
  {
    match s {
      case RequestRefund(j, p, owner, amount, r, key, now) =>
        RequestedEventFits(db, j, p, owner, r, key, now);
        RefundRowReady(db, j, p, owner, r, key, now);
      case RequestRelease(j, owner, p, now) =>
        ReleaseNotDone(db, p);
        ReleaseRowReady(db, j, owner, p, now);
    }
  }

  lemma ReleaseNotDone(db: Db, p: PaymentId)
    requires Core(db) && p in db.payments && db.payments[p].status in {ReleasePending, ReleaseFailed}
    ensures EventKey(Release, p) in db.outbox ==> db.outbox[EventKey(Release, p)].status != EventStatus.Done
  {
    ViewAt(db, p);
    EventInView(db, EventKey(Release, p));
  }

  lemma RefundRowReady(db: Db, j: JobId, p: PaymentId, owner: UserId, r: RefundId, key: Key, now: int)
    requires p in db.payments
             && (EventKey(Refund, p) in db.outbox ==> db.outbox[EventKey(Refund, p)].status != EventStatus.Done)
    ensures Ready(RequestRefundOf(db, j, p, owner, r, key, now), EventKey(Refund, p), now)
  {
  }

  lemma ReleaseRowReady(db: Db, j: JobId, owner: UserId, p: PaymentId, now: int)
    requires p in db.payments
             && (EventKey(Release, p) in db.outbox ==> db.outbox[EventKey(Release, p)].status != EventStatus.Done)
    ensures var next := QueueRelease(db, j, owner, p, now);
            Ready(next, EventKey(Release, p), now) && next.outbox[EventKey(Release, p)].attempts == 0
  {
  }

  // ---------- retries end ----------

  /** One attempt: claim, then process what was claimed. */
  function Attempt(db: Db, k: EventKey, answer: Answer, maxAttempts: nat, now: int, jitter: nat): Db
    requires k in db.outbox
  {
    Processed(Claim(db, k, now), Ticket(k, db.nextId, db.outbox[k].payload), answer, maxAttempts, now, jitter)
  }

  predicate Ended(db: Db, k: EventKey) {
    k in db.outbox && db.outbox[k].status in {EventStatus.Done, EventStatus.Failed}
  }

  /** Processing leaves the event done, or as AfterFailure says. */
  lemma ProcessedEvent(db: Db, t: Ticket, answer: Answer, maxAttempts: nat, now: int, jitter: nat)
    requires t.event in db.outbox && db.outbox[t.event].token == Some(t.token)
    ensures var next := Processed(db, t, answer, maxAttempts, now, jitter).outbox;
            t.event in next
            && (next[t.event] == MarkDone(db.outbox[t.event])
                || next[t.event] == AfterFailure(db.outbox[t.event], maxAttempts, now, jitter))
  {
    if Confirms(t.payload, answer) && CompleteTicket(db, t, answer.value).1 in {Committed, AlreadyDone} {
      CommitMarksDone(db, t, answer.value);
    } else {
      FailureIsRecorded(db, t.event, AfterFailure(db.outbox[t.event], maxAttempts, now, jitter));
      assert FailReply(db, t.event, Some(t.token), maxAttempts) in {RetryLater, Terminal};
    }
  }

  /** After an attempt the event is done, or it has used up one attempt more and is given up exactly when that was the
      last one. */
  lemma AttemptProgress(db: Db, k: EventKey, answer: Answer, maxAttempts: nat, now: int, jitter: nat)
    requires k in db.outbox
    ensures var next := Attempt(db, k, answer, maxAttempts, now, jitter);
            && k in next.outbox && next.outbox[k].attempts == db.outbox[k].attempts + 1
            && (next.outbox[k].status == EventStatus.Done
                || next.outbox[k].status == if db.outbox[k].attempts + 1 >= maxAttempts then EventStatus.Failed
                                            else EventStatus.Pending)
  {
    ProcessedEvent(Claim(db, k, now), Ticket(k, db.nextId, db.outbox[k].payload), answer, maxAttempts, now, jitter);
  }

  lemma CommitMarksDone(db: Db, t: Ticket, ref: Ref)
    requires t.event in db.outbox && CompleteTicket(db, t, ref).1 in {Committed, AlreadyDone}
    ensures CompleteTicket(db, t, ref).0.outbox == DoneEvent(db, t.event).outbox
  {
    match t.payload {
      case HoldPayload(j, _, p, _, _, _, _) => HoldMarksDone(db, t.event, j, p, ref, Some(t.token));
      case ReleasePayload(j, _, p, _, _) => ReleaseMarksDone(db, t.event, j, p, Some(t.token));
      case RefundPayload(j, _, p, r, _, _) => RefundMarksDone(db, t.event, j, p, r, ref, Some(t.token));
    }
  }

  lemma HoldMarksDone(db: Db, k: EventKey, j: JobId, p: PaymentId, ref: Ref, token: Option<nat>)
    requires k in db.outbox && CompleteHold(db, k, j, p, ref, token).1 in {Committed, AlreadyDone}
    ensures CompleteHold(db, k, j, p, ref, token).0.outbox == DoneEvent(db, k).outbox
  {
  }

  lemma ReleaseMarksDone(db: Db, k: EventKey, j: JobId, p: PaymentId, token: Option<nat>)
    requires k in db.outbox && CompleteRelease(db, k, j, p, token).1 in {Committed, AlreadyDone}
    ensures CompleteRelease(db, k, j, p, token).0.outbox == DoneEvent(db, k).outbox
  {
  }

  lemma RefundMarksDone(db: Db, k: EventKey, j: JobId, p: PaymentId, r: RefundId, ref: Ref, token: Option<nat>)
    requires k in db.outbox && CompleteRefund(db, k, j, p, r, ref, token).1 in {Committed, AlreadyDone}
    ensures CompleteRefund(db, k, j, p, r, ref, token).0.outbox == DoneEvent(db, k).outbox
  {
  }

  lemma FailureIsRecorded(db: Db, k: EventKey, failed: Event)
    requires k in db.outbox
    ensures k in FailWith(db, k, failed).outbox && FailWith(db, k, failed).outbox[k] == failed
  {
    if failed.status == EventStatus.Failed {
      CompensateKeepsOutbox(db.(outbox := db.outbox[k := failed]), k);
    }
  }

  /** When a worker that has waited long enough can claim the row: it is available, and nobody's lease runs. */
  function ClaimTime(event: Event, now: int, lease: nat): (at: int)
    requires event.status == EventStatus.Pending || (event.status == EventStatus.Processing && event.lockedAt.Some?)
    ensures now <= at && Claimable(event, at, lease)
  {
    var free :=
      if event.status == EventStatus.Processing
         && event.lockedAt.value + lease >= now then event.lockedAt.value + lease + 1 else now;
    if free < event.availableAt then event.availableAt else free
  }

  /** A single worker, whatever the provider answers and whatever the jitter: every event it works on ends, done or
      given up, after at most maxAttempts - attempts calls (one call at least). Each claim is made when the row can be
      claimed; a row that another worker left in processing has to wait for the end of that lease. */
  method DriveToEnd(repo: Repository, k: EventKey,
      answers: nat -> Answer, jitters: nat -> nat, maxAttempts: nat, start: int, lease: nat) returns (calls: nat)
    requires k in repo.outbox && Locked(repo.outbox)
    modifies repo
    ensures Ended(repo.Tables(), k)
    ensures calls <= (if old(repo.outbox)[k].attempts < maxAttempts then maxAttempts - old(repo.outbox)[k].attempts
                      else 1)
    ensures repo.outbox[k].attempts == old(repo.outbox)[k].attempts + calls
  {
    calls := 0;
    var now := start;
    while repo.outbox[k].status !in {EventStatus.Done, EventStatus.Failed}
      invariant k in repo.outbox
      invariant calls == 0 ==> repo.Tables() == old(repo.Tables())
      invariant calls > 0 ==> repo.outbox[k].status != EventStatus.Processing
      invariant repo.outbox[k].attempts == old(repo.outbox)[k].attempts + calls
      invariant calls > 0 ==> Ended(repo.Tables(), k) || repo.outbox[k].attempts < maxAttempts
      invariant calls <= (if old(repo.outbox)[k].attempts < maxAttempts then maxAttempts - old(repo.outbox)[k].attempts
                          else 1)
      decreases if Ended(repo.Tables(), k) then 0 else if calls == 0 then maxAttempts + 1
                else maxAttempts - repo.outbox[k].attempts
    {
      var before := repo.Tables();
      now := ClaimTime(repo.outbox[k], now, lease);
      var t := Ticket(k, repo.nextId, repo.outbox[k].payload);
      repo.ClaimRow(k, now, lease);
      var _ := ProcessOutboxEvent(repo, t, answers(calls), maxAttempts, now, jitters(calls));
      AttemptProgress(before, k, answers(calls), maxAttempts, now, jitters(calls));
      calls := calls + 1;
    }
  }
}
