/** Jobs against their payments: what fits together in every run, up to the moderation of a settled job. */
module JobInvariant {
  import opened Options
  import opened Money
  import opened Schema
  import opened Transactions
  import opened Protocol
  import opened Invariant
  import opened Preservation
  import opened Evolution
  import opened Reachability
  import opened Outcomes

  /** The job states a payment status allows. */
  predicate JobFits(s: PaymentStatus, job: Job) {
    && job.provider.Some?
    && match s
       case HoldPending => job.status == Funded
       case HoldFailed => job.status == Funded
       case Held => job.status in {Funded, InProgress, Delivered}
       case RefundPending => job.status in {Funded, InProgress, Delivered}
       case Refunded => job.status == Assigned
       case ReleasePending => job.status == Completed
       case ReleaseFailed => job.status == Completed
       case Released => job.status == Settled
  }

  predicate JobOk(db: Db, j: JobId)
    requires j in db.jobs
  {
    if j in db.paymentByJob
       && db.paymentByJob[j] in db.payments then JobFits(db.payments[db.paymentByJob[j]].status, db.jobs[j])
    else db.jobs[j].status in {Draft, Published, Assigned, Cancelled}
  }

  predicate JobsOk(db: Db) { forall j :: j in db.jobs ==> JobOk(db, j) }

  /** A start request that has read a HELD payment: the payment can no longer be in a HOLD state when it writes. */
  predicate ReadsOk(w: World) {
    forall j :: j in w.startReads ==> ReadJob(w.db, j)
  }

  /** The step that breaks the invariant: the moderation of a settled job, to a status that moderation may set. */
  predicate ModeratesSettled(db: Db, s: Step) {
    && s.Board? && s.board.ModerateStep? && s.board.status in {Draft, Published, Cancelled}
    && s.board.job in db.jobs && db.jobs[s.board.job].status == Settled
  }

  /** No step of the run does that. */
  predicate LegalRun(steps: seq<Step>) {
    forall i {:trigger steps[i]} :: 0 <= i < |steps| ==> !ModeratesSettled(Run(INITIAL, steps[..i]).db, steps[i])
  }

  // ---------- framing ----------

  predicate OnlyJob(db: Db, next: Db, j: JobId) {
    forall i :: i in next.jobs && i != j ==>
      && i in db.jobs && next.jobs[i] == db.jobs[i] && Get(next.paymentByJob, i) == Get(db.paymentByJob, i)
      && (i in db.paymentByJob && db.paymentByJob[i] in db.payments ==>
            db.paymentByJob[i] in next.payments
            && next.payments[db.paymentByJob[i]].status == db.payments[db.paymentByJob[i]].status)
      && (i in db.paymentByJob && db.paymentByJob[i] in next.payments ==> db.paymentByJob[i] in db.payments)
  }

  lemma OnlyJobFrame(db: Db, next: Db, j: JobId)
    requires JobsOk(db) && OnlyJob(db, next, j) && (j in next.jobs ==> JobOk(next, j))
    ensures JobsOk(next)
  {
    forall i | i in next.jobs ensures JobOk(next, i) {
      if i != j {
        assert JobOk(db, i);
      }
    }
  }

  /** A payment row changes, and at most its own job. */
  lemma PaymentMoves(db: Db, next: Db, p: PaymentId)
    requires JobsOk(db) && JobIndexOk(db.jobs, db.payments, db.paymentByJob)
    requires p in db.payments && p in next.payments && next.payments == db.payments[p := next.payments[p]]
    requires next.paymentByJob == db.paymentByJob
    requires var j := db.payments[p].job;
             j in next.jobs && next.jobs == db.jobs[j := next.jobs[j]] && JobFits(next.payments[p].status, next.jobs[j])
    ensures JobsOk(next)
  {
    OnlyJobFrame(db, next, db.payments[p].job);
  }

  lemma PaymentJob(db: Db, p: PaymentId)
    requires JobsOk(db) && JobIndexOk(db.jobs, db.payments, db.paymentByJob) && p in db.payments
    ensures db.payments[p].job in db.jobs && JobFits(db.payments[p].status, db.jobs[db.payments[p].job])
    ensures db.jobs[db.payments[p].job := db.jobs[db.payments[p].job]] == db.jobs
  {
    assert JobOk(db, db.payments[p].job);
  }

  // ---------- payments ----------

  lemma RetryKeepsJobs(db: Db, j: JobId, payer: UserId, key: Key, currency: Currency, now: int)
    requires JobsOk(db) && JobIndexOk(db.jobs, db.payments, db.paymentByJob) && Retryable(db, j, key)
    ensures JobsOk(RetryHold(db, j, payer, key, currency, now))
  {
    PaymentJob(db, db.paymentByJob[j]);
    PaymentMoves(db, RetryHold(db, j, payer, key, currency, now), db.paymentByJob[j]);
  }

  lemma FundKeepsJobs(db: Db, next: Db, j: JobId, payer: UserId, payee: UserId, offer: Option<OfferId>, amount: nat,
      id: PaymentId, key: Key, currency: Currency, now: int)
    requires JobsOk(db) && JobIndexOk(db.jobs, db.payments, db.paymentByJob)
    requires FundCommit(db, next, j, payer, payee, offer, amount, id, key, currency, now)
    ensures JobsOk(next)
  {
    if Reopened(db, next, j, payer, key, currency, now) {
      RetryKeepsJobs(db, j, payer, key, currency, now);
    } else {
      InsertKeepsJobs(db, NewPayment(db.jobs[j], j, payer, payee, amount, id, key, currency), id, offer, now);
    }
  }

  lemma InsertKeepsJobs(db: Db, pay: Payment, id: PaymentId, offer: Option<OfferId>, now: int)
    requires JobsOk(db) && JobIndexOk(db.jobs, db.payments, db.paymentByJob)
    requires pay.job in db.jobs && pay.job !in db.paymentByJob && id !in db.payments && pay.status == HoldPending
    ensures JobsOk(InsertPayment(db, pay, id, offer, now))
  {
    OnlyJobFrame(db, InsertPayment(db, pay, id, offer, now), pay.job);
  }

  lemma CompleteJobKeepsJobs(db: Db, j: JobId, p: PaymentId)
    requires JobsOk(db) && JobIndexOk(db.jobs, db.payments, db.paymentByJob) && p in db.payments
             && db.payments[p].job == j
    ensures JobsOk(CompleteJob(db, j, p))
  {
    PaymentJob(db, p);
    PaymentMoves(db, CompleteJob(db, j, p), p);
  }

  lemma RequestKeepsJobs(db: Db, j: JobId, p: PaymentId, owner: UserId, id: RefundId, key: Key, now: int)
    requires JobsOk(db) && JobIndexOk(db.jobs, db.payments, db.paymentByJob) && Refundable(db, j, p, id, key)
    ensures JobsOk(RequestRefundOf(db, j, p, owner, id, key, now))
  {
    PaymentJob(db, p);
    PaymentMoves(db, RequestRefundOf(db, j, p, owner, id, key, now), p);
  }

  lemma QueueReleaseKeepsJobs(db: Db, j: JobId, owner: UserId, p: PaymentId, now: int)
    requires JobsOk(db) && JobIndexOk(db.jobs, db.payments, db.paymentByJob)
    requires p in db.payments && db.payments[p].job == j && db.payments[p].status in {ReleasePending, ReleaseFailed}
    ensures JobsOk(QueueRelease(db, j, owner, p, now))
  {
    PaymentJob(db, p);
    PaymentMoves(db, QueueRelease(db, j, owner, p, now), p);
  }

  lemma FinishReleaseKeepsJobs(db: Db, db1: Db, p: PaymentId, ref: Ref, release: Reference, payout: Reference)
    requires JobsOk(db) && JobIndexOk(db.jobs, db.payments, db.paymentByJob) && p in db.payments
    requires db1 == db.(outbox := db1.outbox, webhooks := db1.webhooks)
    ensures JobsOk(FinishRelease(db1, p, ref, release, payout))
  {
    PaymentJob(db, p);
    PaymentMoves(db, FinishRelease(db1, p, ref, release, payout), p);
  }

  lemma FinishRefundKeepsJobs(db: Db, db1: Db, p: PaymentId, r: RefundId, ref: Option<Ref>, reference: Reference)
    requires JobsOk(db) && JobIndexOk(db.jobs, db.payments, db.paymentByJob) && p in db.payments && r in db.refunds
    requires db1 == db.(outbox := db1.outbox, webhooks := db1.webhooks)
    ensures JobsOk(FinishRefund(db1, p, r, ref, reference))
  {
    PaymentJob(db, p);
    PaymentMoves(db, FinishRefund(db1, p, r, ref, reference), p);
  }

  lemma SameJobsOk(db: Db, next: Db)
    requires JobsOk(db) && next.jobs == db.jobs && next.payments == db.payments && next.paymentByJob == db.paymentByJob
    ensures JobsOk(next)
  {
    forall j | j in next.jobs ensures JobOk(next, j) {
      assert JobOk(db, j);
    }
  }

  lemma ConfirmKeepsJobs(db: Db, db1: Db, p: PaymentId, ref: Ref)
    requires JobsOk(db) && JobIndexOk(db.jobs, db.payments, db.paymentByJob) && p in db.payments
             && db.payments[p].status == HoldPending
    requires db1 == db.(outbox := db1.outbox, webhooks := db1.webhooks)
    ensures JobsOk(Confirm(db1, p, ref))
  {
    PaymentJob(db, p);
    PaymentMoves(db, Confirm(db1, p, ref), p);
  }

  lemma DoneKeepsJobs(db: Db, k: EventKey)
    requires JobsOk(db) && k in db.outbox
    ensures JobsOk(DoneEvent(db, k))
  {
    SameJobsOk(db, DoneEvent(db, k));
  }

  lemma HoldKeepsJobs(db: Db, next: Db, k: EventKey, p: PaymentId, ref: Ref)
    requires JobsOk(db) && JobIndexOk(db.jobs, db.payments, db.paymentByJob) && HoldCommit(db, next, k, p, ref)
    ensures JobsOk(next)
  {
    if OnlyDone(db, next, k, p, Held) { DoneKeepsJobs(db, k); } else { ConfirmKeepsJobs(db, DoneEvent(db, k), p, ref); }
  }

  lemma ReleaseKeepsJobs(db: Db, next: Db, k: EventKey, p: PaymentId)
    requires JobsOk(db) && JobIndexOk(db.jobs, db.payments, db.paymentByJob) && ReleaseCommit(db, next, k, p)
    ensures JobsOk(next)
  {
    if OnlyDone(db, next, k, p, Released) { DoneKeepsJobs(db, k); }
    else { FinishReleaseKeepsJobs(db, DoneEvent(db, k), p, db.payments[p].ref, PaymentRelease, PaymentPayout); }
  }

  lemma RefundKeepsJobs(db: Db, next: Db, k: EventKey, p: PaymentId, r: RefundId, ref: Ref)
    requires JobsOk(db) && JobIndexOk(db.jobs, db.payments, db.paymentByJob) && RefundCommit(db, next, k, p, r, ref)
    ensures JobsOk(next)
  {
    if OnlyDone(db, next, k, p, PaymentStatus.Refunded) { DoneKeepsJobs(db, k); }
    else { FinishRefundKeepsJobs(db, DoneEvent(db, k), p, r, Some(ref), PaymentRefund); }
  }

  lemma TicketKeepsJobs(db: Db, next: Db, t: Ticket, ref: Ref)
    requires JobsOk(db) && JobIndexOk(db.jobs, db.payments, db.paymentByJob) && TicketCommit(db, next, t, ref)
    ensures JobsOk(next)
  {
    match t.payload {
      case HoldPayload(_, _, p, _, _, _, _) => HoldKeepsJobs(db, next, t.event, p, ref);
      case ReleasePayload(_, _, p, _, _) => ReleaseKeepsJobs(db, next, t.event, p);
      case RefundPayload(_, _, p, r, _, _) => RefundKeepsJobs(db, next, t.event, p, r, ref);
    }
  }

  lemma FailWithKeepsJobs(db: Db, k: EventKey, failed: Event)
    requires JobsOk(db) && JobIndexOk(db.jobs, db.payments, db.paymentByJob) && k in db.outbox
    ensures JobsOk(FailWith(db, k, failed))
  {
    var p := k.payment;
    if failed.status == EventStatus.Failed && p in db.payments {
      PaymentJob(db, p);
      CompensatedRow(db, k, failed);
      PaymentMoves(db, FailWith(db, k, failed), p);
    } else {
      SameJobsOk(db, FailWith(db, k, failed));
    }
  }

  lemma CompensatedRow(db: Db, k: EventKey, failed: Event)
    requires k in db.outbox && k.payment in db.payments && failed.status == EventStatus.Failed
    ensures FailWith(db, k, failed).payments == db.payments[k.payment := Compensated(db.payments[k.payment], k.kind)]
  {
  }

  lemma LoggedKeepsJobs(db: Db, id: WebhookId)
    requires JobsOk(db)
    ensures JobsOk(Logged(db, id))
  {
    SameJobsOk(db, Logged(db, id));
  }

  lemma EndingWebhookKeepsJobs(db: Db, next: Db, id: WebhookId, p: PaymentId, ref: Ref, row: RefundId)
    requires JobsOk(db) && JobIndexOk(db.jobs, db.payments, db.paymentByJob)
    requires ReleasedByHook(db, next, id, p, ref) || RefundedByHook(db, next, id, p, ref, row)
    ensures JobsOk(next)
  {
    if ReleasedByHook(db, next, id, p, ref) {
      FinishReleaseKeepsJobs(db, Logged(db, id), p, SettledRef(db.payments[p], ref), PaymentWebhook, PaymentWebhook);
    } else {
      FinishRefundKeepsJobs(db, Logged(db, id), p, row, RefundedRef(db, row, ref), PaymentWebhook);
    }
  }

  lemma WebhookKeepsJobs(db: Db, next: Db, id: WebhookId, p: PaymentId, ref: Ref, row: RefundId)
    requires JobsOk(db) && JobIndexOk(db.jobs, db.payments, db.paymentByJob) && WebhookCommit(db, next, id, p, ref, row)
    ensures JobsOk(next)
  {
    if OnlyLogged(db, next, id) {
      LoggedKeepsJobs(db, id);
    } else if HeldByHook(db, next, id, p, ref) {
      ConfirmKeepsJobs(db, Logged(db, id), p, ref);
    } else {
      EndingWebhookKeepsJobs(db, next, id, p, ref, row);
    }
  }

  lemma FundStepKeepsJobs(db: Db, s: PayStep)
    requires JobsOk(db) && JobIndexOk(db.jobs, db.payments, db.paymentByJob) && s.Fund?
    ensures JobsOk(NextPay(db, s))
  {
    FundCommits(db, s.job, s.payer, s.payee, s.chosen, s.amount, s.payment, s.key, s.currency, s.now);
    if NextPay(db, s) != db {
      FundKeepsJobs(db, NextPay(db, s), s.job, s.payer, s.payee, s.chosen, s.amount, s.payment, s.key, s.currency,
                    s.now);
    }
  }

  lemma WebhookStepKeepsJobs(db: Db, s: PayStep)
    requires JobsOk(db) && JobIndexOk(db.jobs, db.payments, db.paymentByJob) && s.Webhook?
    ensures JobsOk(NextPay(db, s))
  {
    if !Impossible(db, s) {
      WebhookCommits(db, s.id, s.kind, s.payment, s.ref, s.row);
      if NextPay(db, s) != db {
        WebhookKeepsJobs(db, NextPay(db, s), s.id, s.payment, s.ref, s.row);
      }
    }
  }

  lemma RequestStepKeepsJobs(db: Db, s: PayStep)
    requires JobsOk(db) && JobIndexOk(db.jobs, db.payments, db.paymentByJob)
             && (s.Accept? || s.RequestRefund? || s.RequestRelease?)
    ensures JobsOk(NextPay(db, s))
  {
    if NextPay(db, s) != db {
      match s {
        case Accept(j) => CompleteJobKeepsJobs(db, j, db.paymentByJob[j]);
        case RequestRefund(j, p, owner, amount, r, key, now) => RequestKeepsJobs(db, j, p, owner, r, key, now);
        case RequestRelease(j, owner, p, now) => QueueReleaseKeepsJobs(db, j, owner, p, now);
      }
    }
  }

  lemma PayKeepsJobs(db: Db, s: PayStep)
    requires JobsOk(db) && JobIndexOk(db.jobs, db.payments, db.paymentByJob)
    ensures JobsOk(NextPay(db, s))
  {
    match s {
      case Fund(_, _, _, _, _, _, _, _, _) => FundStepKeepsJobs(db, s);
      case Webhook(_, _, _, _, _) => WebhookStepKeepsJobs(db, s);
      case _ => RequestStepKeepsJobs(db, s);
    }
  }

  lemma CompleteKeepsJobs(db: Db, t: Ticket, ref: Ref)
    requires JobsOk(db) && JobIndexOk(db.jobs, db.payments, db.paymentByJob)
    ensures JobsOk(CompleteTicket(db, t, ref).0)
  {
    TicketCommits(db, t, ref);
    if CompleteTicket(db, t, ref).0 != db {
      TicketKeepsJobs(db, CompleteTicket(db, t, ref).0, t, ref);
    }
  }

  lemma FailKeepsJobs(db: Db, k: EventKey, token: nat, maxAttempts: nat, now: int, jitter: nat)
    requires JobsOk(db) && JobIndexOk(db.jobs, db.payments, db.paymentByJob)
    ensures JobsOk(FailEvent(db, k, Some(token), maxAttempts, now, jitter).0)
  {
    if FailReply(db, k, Some(token), maxAttempts) in {RetryLater, Terminal} {
      FailWithKeepsJobs(db, k, AfterFailure(db.outbox[k], maxAttempts, now, jitter));
    }
  }

  lemma WorkKeepsJobs(db: Db, s: WorkStep)
    requires JobsOk(db) && JobIndexOk(db.jobs, db.payments, db.paymentByJob)
    ensures JobsOk(NextWork(db, s))
  {
    match s {
      case Complete(t, ref) => CompleteKeepsJobs(db, t, ref);
      case Fail(t, maxAttempts, now, jitter) => FailKeepsJobs(db, t.event, t.token, maxAttempts, now, jitter);
      case _ => SameJobsOk(db, NextWork(db, s));
    }
  }

  // ---------- board and recruitment ----------

  lemma JobMoves(db: Db, next: Db, j: JobId)
    requires JobsOk(db) && next.payments == db.payments && next.paymentByJob == db.paymentByJob
    requires next.jobs.Keys <= db.jobs.Keys + {j} && forall i :: i in next.jobs && i != j ==> next.jobs[i] == db.jobs[i]
    requires j in next.jobs ==> JobOk(next, j)
    ensures JobsOk(next)
  {
    OnlyJobFrame(db, next, j);
  }

  /** The start and deliver updates, and the publication of a draft. */
  predicate JobEdge(db: Db, j: JobId, from: JobStatus, to: JobStatus) {
    match from
    case Draft => to == Published
    case InProgress => to == Delivered
    case Funded => to == InProgress && ReadJob(db, j)
    case _ => false
  }

  lemma UpdateKeepsJobs(db: Db, j: JobId, from: JobStatus, to: JobStatus)
    requires JobsOk(db) && JobEdge(db, j, from, to)
    ensures JobsOk(UpdateJob(db, j, {from}, to).0)
  {
    if j in db.jobs && db.jobs[j].status == from {
      assert JobOk(db, j);
      JobMoves(db, db.(jobs := SetJobStatus(db.jobs, j, to)), j);
    }
  }

  lemma AcceptOfferKeepsJobs(db: Db, o: OfferId, owner: UserId)
    requires JobsOk(db)
    ensures JobsOk(AcceptOffer(db, o, owner).0)
  {
    if AcceptOfferReply(db, o, owner) == Updated {
      assert JobOk(db, db.offers[o].job);
      JobMoves(db, AssignJob(db, o, db.offers[o].job), db.offers[o].job);
    }
  }

  /** moderateJob keeps the invariant if and only if the job is not settled: with its payment Released, a settled job
      may not move. */
  lemma ModerationIff(db: Db, j: JobId, status: JobStatus)
    requires JobsOk(db) && j in db.jobs && status in {Draft, Published, Cancelled}
    ensures JobsOk(Moderate(db, j, status).0) <==> db.jobs[j].status != Settled
  {
    var next := Moderate(db, j, status).0;
    assert JobOk(db, j);
    if db.jobs[j].status != Settled {
      JobMoves(db, next, j);
    } else {
      assert !JobOk(next, j);
    }
  }

  lemma ForgetKeepsJobs(db: Db, u: UserId)
    requires JobsOk(db)
    ensures JobsOk(ForgetProvider(db, u))
  {
    var next := ForgetProvider(db, u);
    forall j | j in next.jobs ensures JobOk(next, j) {
      assert JobOk(db, j);
    }
  }

  lemma CreateKeepsJobs(db: Db, j: JobId, owner: UserId, kind: Kind)
    requires JobsOk(db) && JobIndexOk(db.jobs, db.payments, db.paymentByJob)
    ensures JobsOk(CreateJob(db, j, owner, kind).0)
  {
    var next := CreateJob(db, j, owner, kind).0;
    forall i | i in next.jobs ensures JobOk(next, i) {
      assert i in db.jobs ==> JobOk(db, i);
    }
  }

  lemma DeleteKeepsJobs(db: Db, j: JobId)
    requires JobsOk(db)
    ensures JobsOk(DeleteJob(db, j).0)
  {
    var next := DeleteJob(db, j).0;
    forall i | i in next.jobs ensures JobOk(next, i) {
      assert JobOk(db, i);
    }
  }

  lemma BoardKeepsJobsOk(w: World, s: BoardStep)
    requires Core(w.db) && JobsOk(w.db) && ReadsOk(w) && Enabled(w, Board(s)) && !ModeratesSettled(w.db, Board(s))
    ensures JobsOk(NextBoard(w.db, s))
  {
    match s {
      case Publish(j) => UpdateKeepsJobs(w.db, j, Draft, Published);
      case StartWrite(j) => UpdateKeepsJobs(w.db, j, Funded, InProgress);
      case Deliver(j) => UpdateKeepsJobs(w.db, j, InProgress, Delivered);
      case AcceptOfferStep(o, owner) => AcceptOfferKeepsJobs(w.db, o, owner);
      case ModerateStep(j, status) =>
        if j in w.db.jobs && status in {Draft, Published, Cancelled} { ModerationIff(w.db, j, status); }
      case ForgetProviderStep(u) => ForgetKeepsJobs(w.db, u);
      case CreateJobStep(j, owner, kind) => CreateKeepsJobs(w.db, j, owner, kind);
      case DeleteJobStep(j) => DeleteKeepsJobs(w.db, j);
      case _ => SameJobsOk(w.db, NextBoard(w.db, s));
    }
  }

  lemma EmployerKeepsJobs(db: Db, a: ApplicationId, owner: UserId, from: set<ApplicationStatus>, to: ApplicationStatus,
      j: JobId)
    requires JobsOk(db)
    ensures JobsOk(TransitionEmployerApplication(db, a, owner, from, to, j).0)
  {
    if EmployerReply(db, a, owner, from, to, j) == Updated {
      assert JobOk(db, j);
      JobMoves(db, MoveApplication(db, a, j, to), j);
    }
  }

  lemma CandidateKeepsJobs(db: Db, s: RecruitStep)
    requires JobsOk(db) && !s.Invite? && !s.MakeOffer? && !s.Hire?
    ensures JobsOk(NextRecruit(db, s))
  {
    SameJobsOk(db, NextRecruit(db, s));
  }

  lemma RecruitKeepsJobsOk(db: Db, s: RecruitStep)
    requires JobsOk(db)
    ensures JobsOk(NextRecruit(db, s))
  {
    match s {
      case Invite(a, owner, j) => EmployerKeepsJobs(db, a, owner, {Forwarded}, Interview, j);
      case MakeOffer(a, owner, j) => EmployerKeepsJobs(db, a, owner, {Interview}, Offered, j);
      case Hire(a, owner, j) => EmployerKeepsJobs(db, a, owner, {Offered}, ApplicationStatus.Accepted, j);
      case _ => CandidateKeepsJobs(db, s);
    }
  }

  // ---------- runs ----------

  lemma IndexIsStable(db: Db, next: Db, j: JobId)
    requires Core(db) && Core(next) && Grows(db, next) && j in db.paymentByJob
    ensures Get(next.paymentByJob, j) == Some(db.paymentByJob[j])
  {
    assert next.payments[db.paymentByJob[j]].job == j;
  }

  predicate ReadJob(db: Db, j: JobId) {
    j in db.paymentByJob && db.paymentByJob[j] in db.payments
    && db.payments[db.paymentByJob[j]].status !in {HoldPending, HoldFailed}
  }

  lemma ReadJobIsStable(db: Db, next: Db, j: JobId)
    requires Core(db) && Core(next) && Grows(db, next) && ReadJob(db, j)
    ensures ReadJob(next, j)
  {
    IndexIsStable(db, next, j);
    PaymentPastHold(db, next, db.paymentByJob[j]);
  }

  /** No step takes a payment back to a hold. */
  lemma PaymentPastHold(db: Db, next: Db, p: PaymentId)
    requires Grows(db, next) && p in db.payments && db.payments[p].status !in {HoldPending, HoldFailed}
    ensures p in next.payments && next.payments[p].status !in {HoldPending, HoldFailed}
  {
  }

  lemma NextKeepsReads(w: World, s: Step)
    requires WorldOk(w) && ReadsOk(w)
    ensures ReadsOk(Next(w, s))
  {
    if Enabled(w, s) {
      assert Grows(w.db, NextDb(w.db, s)) by { NextGrows(w.db, s); }
      assert Core(NextDb(w.db, s)) by { NextKeepsCore(w, s); }
      forall j | j in NextReads(w, s) ensures ReadJob(NextDb(w.db, s), j) {
        assert ReadJob(w.db, j);
        ReadJobIsStable(w.db, NextDb(w.db, s), j);
      }
    }
  }

  lemma NextKeepsJobsOk(w: World, s: Step)
    requires WorldOk(w) && JobsOk(w.db) && ReadsOk(w) && !ModeratesSettled(w.db, s)
    ensures JobsOk(Next(w, s).db)
  {
    if Enabled(w, s) {
      match s {
        case Board(b) => BoardKeepsJobsOk(w, b);
        case Recruit(r) => RecruitKeepsJobsOk(w.db, r);
        case Pay(m) => PayKeepsJobs(w.db, m);
        case Work(k) => WorkKeepsJobs(w.db, k);
      }
    }
  }

  lemma NextJobsIff(w: World, s: Step)
    requires WorldOk(w) && JobsOk(w.db) && ReadsOk(w)
    ensures JobsOk(Next(w, s).db) <==> !ModeratesSettled(w.db, s)
  {
    if ModeratesSettled(w.db, s) {
      ModerationIff(w.db, s.board.job, s.board.status);
    } else {
      NextKeepsJobsOk(w, s);
    }
  }

  lemma {:induction false} RunKeepsReads(steps: seq<Step>)
    ensures ReadsOk(Run(INITIAL, steps))
  {
    if steps != [] {
      var front := steps[..|steps|-1];
      RunKeepsReads(front);
      ReachableWorldOk(front);
      NextKeepsReads(Run(INITIAL, front), steps[|steps|-1]);
    }
  }

  ghost predicate AlwaysJobsOk(steps: seq<Step>) {
    forall i {:trigger steps[..i]} :: 0 <= i <= |steps| ==> JobsOk(Run(INITIAL, steps[..i]).db)
  }

  /** Jobs and payments fit together all along a run if and only if no step of it moderates a settled job. */
  lemma JobsFollowPaymentsIff(steps: seq<Step>)
    ensures AlwaysJobsOk(steps) <==> LegalRun(steps)
  {
    var holds := (i: nat) => i <= |steps| && JobsOk(Run(INITIAL, steps[..i]).db);
    var good := (i: nat) => i < |steps| && !ModeratesSettled(Run(INITIAL, steps[..i]).db, steps[i]);
    assert holds(0) by {
      assert steps[..0] == [];
    }
    forall i: nat | i < |steps| && holds(i) ensures holds(i + 1) <==> good(i) {
      RunPrefix(steps, i);
      ReachableWorldOk(steps[..i]);
      RunKeepsReads(steps[..i]);
      NextJobsIff(Run(INITIAL, steps[..i]), steps[i]);
    }
    AllAlongIff(holds, good, |steps|);
    assert forall i: nat :: i <= |steps| ==> (holds(i) <==> JobsOk(Run(INITIAL, steps[..i]).db));
    assert forall i: nat :: i < |steps| ==> (good(i) <==> !ModeratesSettled(Run(INITIAL, steps[..i]).db, steps[i]));
  }

  /** The joint invariant of jobs and payments, for every job of every such run. */
  lemma JobsFollowPayments(steps: seq<Step>, j: JobId)
    requires LegalRun(steps) && j in Run(INITIAL, steps).db.jobs
    ensures JobOk(Run(INITIAL, steps).db, j)
  {
    JobsFollowPaymentsIff(steps);
    assert steps[..|steps|] == steps;
  }
}
