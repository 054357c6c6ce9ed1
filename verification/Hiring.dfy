/** Hired candidates against their jobs: what each step keeps. */
module Hiring {
  import opened Options
  import opened Money
  import opened Schema
  import opened Transactions
  import opened Protocol
  import opened Outcomes
  import opened JobInvariant

  predicate IsHired(db: Db, a: ApplicationId) {
    a in db.applications && db.applications[a].status == ApplicationStatus.Accepted
  }

  /** Two applications of one job that are both accepted. */
  predicate BothHired(db: Db, a: ApplicationId, b: ApplicationId) {
    IsHired(db, a) && IsHired(db, b) && db.applications[a].job == db.applications[b].job
  }

  ghost predicate Single(db: Db) { forall a, b {:trigger BothHired(db, a, b)} :: BothHired(db, a, b) ==> a == b }

  predicate Past(job: Job) { job.provider.Some? && job.status !in {Draft, Published, Cancelled} }

  predicate HireFits(db: Db, a: ApplicationId)
    requires a in db.applications
  {
    var j := db.applications[a].job;
    j in db.jobs && db.jobs[j].provider == Some(db.applications[a].candidate) && Past(db.jobs[j])
  }

  /** A hired candidate is the provider of the job, which is past publication, and nobody else is hired for it. */
  ghost predicate HiredOk(db: Db) {
    && (forall a {:trigger db.applications[a]} :: IsHired(db, a) ==> HireFits(db, a))
    && Single(db)
  }

  // ---------- steps that hire nobody ----------

  /** Jobs past publication keep their provider and stay past publication, a job is settled only when it has a payment,
      and applications are untouched. */
  predicate JobsAdvance(db: Db, next: Db) {
    && next.applications == db.applications
    && (forall j :: j in db.jobs && Past(db.jobs[j]) ==>
          j in next.jobs && Past(next.jobs[j]) && next.jobs[j].provider == db.jobs[j].provider)
    && (forall j :: j in next.jobs && next.jobs[j].status == Settled ==> WasSettledOrPaid(db, j))
  }

  predicate WasSettledOrPaid(db: Db, j: JobId) {
    (j in db.jobs && db.jobs[j].status == Settled) || HasPaymentFor(db.payments, j)
  }

  predicate HasPaymentFor(payments: map<PaymentId, Payment>, j: JobId) {
    exists p :: p in payments && payments[p].job == j
  }

  lemma AdvanceKeepsHired(db: Db, next: Db)
    requires HiredOk(db) && JobsAdvance(db, next)
    ensures HiredOk(next)
  {
    forall a | IsHired(next, a) ensures HireFits(next, a) {
      assert HireFits(db, a);
    }
    SameApplicationsKeepSingle(db, next);
  }

  lemma SameApplicationsKeepSingle(db: Db, next: Db)
    requires next.applications == db.applications && Single(db)
    ensures Single(next)
  {
    FewerKeepSingle(db, next);
  }

  /** Applications may disappear. */
  lemma FewerKeepSingle(db: Db, next: Db)
    requires Single(db) && forall a :: a in next.applications ==>
               a in db.applications && next.applications[a] == db.applications[a]
    ensures Single(next)
  {
    forall a, b | BothHired(next, a, b) ensures a == b {
      assert BothHired(db, a, b);
    }
  }

  /** One job changes, or none. */
  lemma OneJobAdvances(db: Db, next: Db, j: JobId)
    requires next.applications == db.applications
    requires next.jobs == db.jobs || (j in next.jobs && next.jobs == db.jobs[j := next.jobs[j]])
    requires j in db.jobs && j in next.jobs && Past(db.jobs[j]) ==>
      Past(next.jobs[j]) && next.jobs[j].provider == db.jobs[j].provider
    requires j in next.jobs && next.jobs[j].status == Settled ==> WasSettledOrPaid(db, j)
    ensures JobsAdvance(db, next)
  {
  }

  lemma InsertAdvances(db: Db, pay: Payment, id: PaymentId, offer: Option<OfferId>, now: int)
    requires pay.job in db.jobs
    ensures JobsAdvance(db, InsertPayment(db, pay, id, offer, now))
  {
    OneJobAdvances(db, InsertPayment(db, pay, id, offer, now), pay.job);
  }

  lemma FundAdvances(db: Db, next: Db, j: JobId, payer: UserId, payee: UserId, offer: Option<OfferId>, amount: nat,
      id: PaymentId, key: Key, currency: Currency, now: int)
    requires FundCommit(db, next, j, payer, payee, offer, amount, id, key, currency, now)
    ensures JobsAdvance(db, next)
  {
    if Reopened(db, next, j, payer, key, currency, now) {
      SameJobsAdvance(db, RetryHold(db, j, payer, key, currency, now));
    } else {
      InsertAdvances(db, NewPayment(db.jobs[j], j, payer, payee, amount, id, key, currency), id, offer, now);
    }
  }

  lemma FinishReleaseAdvances(db: Db, db1: Db, p: PaymentId, ref: Ref, release: Reference, payout: Reference)
    requires p in db.payments && db1 == db.(outbox := db1.outbox, webhooks := db1.webhooks)
    ensures JobsAdvance(db, FinishRelease(db1, p, ref, release, payout))
  {
    assert HasPaymentFor(db.payments, db.payments[p].job);
    OneJobAdvances(db, FinishRelease(db1, p, ref, release, payout), db.payments[p].job);
  }

  lemma FinishRefundAdvances(db: Db, db1: Db, p: PaymentId, r: RefundId, ref: Option<Ref>, reference: Reference)
    requires p in db.payments && r in db.refunds && db1 == db.(outbox := db1.outbox, webhooks := db1.webhooks)
    ensures JobsAdvance(db, FinishRefund(db1, p, r, ref, reference))
  {
    OneJobAdvances(db, FinishRefund(db1, p, r, ref, reference), db.payments[p].job);
  }

  /** Jobs and applications are as they were. */
  lemma SameJobsAdvance(db: Db, next: Db)
    requires next.jobs == db.jobs && next.applications == db.applications
    ensures JobsAdvance(db, next)
  {
  }

  lemma ConfirmAdvances(db: Db, db1: Db, p: PaymentId, ref: Ref)
    requires p in db.payments && db1 == db.(outbox := db1.outbox, webhooks := db1.webhooks)
    ensures JobsAdvance(db, Confirm(db1, p, ref))
  {
  }

  lemma LoggedAdvances(db: Db, id: WebhookId)
    ensures JobsAdvance(db, Logged(db, id))
  {
  }

  lemma EndingWebhookAdvances(db: Db, next: Db, id: WebhookId, p: PaymentId, ref: Ref, row: RefundId)
    requires ReleasedByHook(db, next, id, p, ref) || RefundedByHook(db, next, id, p, ref, row)
    ensures JobsAdvance(db, next)
  {
    if ReleasedByHook(db, next, id, p, ref) {
      FinishReleaseAdvances(db, Logged(db, id), p, SettledRef(db.payments[p], ref), PaymentWebhook, PaymentWebhook);
    } else {
      FinishRefundAdvances(db, Logged(db, id), p, row, RefundedRef(db, row, ref), PaymentWebhook);
    }
  }

  lemma WebhookAdvances(db: Db, next: Db, id: WebhookId, p: PaymentId, ref: Ref, row: RefundId)
    requires WebhookCommit(db, next, id, p, ref, row)
    ensures JobsAdvance(db, next)
  {
    if OnlyLogged(db, next, id) {
      LoggedAdvances(db, id);
    } else if HeldByHook(db, next, id, p, ref) {
      ConfirmAdvances(db, Logged(db, id), p, ref);
    } else {
      EndingWebhookAdvances(db, next, id, p, ref, row);
    }
  }

  lemma FundStepAdvances(db: Db, s: PayStep)
    requires s.Fund?
    ensures JobsAdvance(db, NextPay(db, s))
  {
    FundCommits(db, s.job, s.payer, s.payee, s.chosen, s.amount, s.payment, s.key, s.currency, s.now);
    if NextPay(db, s) != db {
      FundAdvances(db, NextPay(db, s), s.job, s.payer, s.payee, s.chosen, s.amount, s.payment, s.key, s.currency,
                   s.now);
    }
  }

  lemma WebhookStepAdvances(db: Db, s: PayStep)
    requires s.Webhook?
    ensures JobsAdvance(db, NextPay(db, s))
  {
    if !Impossible(db, s) {
      WebhookCommits(db, s.id, s.kind, s.payment, s.ref, s.row);
      if NextPay(db, s) != db {
        WebhookAdvances(db, NextPay(db, s), s.id, s.payment, s.ref, s.row);
      }
    }
  }

  lemma RequestStepAdvances(db: Db, s: PayStep)
    requires s.Accept? || s.RequestRefund? || s.RequestRelease?
    ensures JobsAdvance(db, NextPay(db, s))
  {
    if NextPay(db, s) != db {
      match s {
        case Accept(j) => OneJobAdvances(db, CompleteJob(db, j, db.paymentByJob[j]), j);
        case RequestRefund(j, p, owner, amount, r, key, now) =>
          SameJobsAdvance(db, RequestRefundOf(db, j, p, owner, r, key, now));
        case RequestRelease(j, owner, p, now) => SameJobsAdvance(db, QueueRelease(db, j, owner, p, now));
      }
    }
  }

  lemma PayAdvances(db: Db, s: PayStep)
    ensures JobsAdvance(db, NextPay(db, s))
  {
    match s {
      case Fund(_, _, _, _, _, _, _, _, _) => FundStepAdvances(db, s);
      case Webhook(_, _, _, _, _) => WebhookStepAdvances(db, s);
      case _ => RequestStepAdvances(db, s);
    }
  }

  lemma TicketAdvances(db: Db, next: Db, t: Ticket, ref: Ref)
    requires TicketCommit(db, next, t, ref)
    ensures JobsAdvance(db, next)
  {
    match t.payload {
      case HoldPayload(_, _, p, _, _, _, _) => HoldAdvances(db, next, t.event, p, ref);
      case ReleasePayload(_, _, p, _, _) => ReleaseAdvances(db, next, t.event, p);
      case RefundPayload(_, _, p, r, _, _) => RefundAdvances(db, next, t.event, p, r, ref);
    }
  }

  lemma HoldAdvances(db: Db, next: Db, k: EventKey, p: PaymentId, ref: Ref)
    requires HoldCommit(db, next, k, p, ref)
    ensures JobsAdvance(db, next)
  {
    if OnlyDone(db, next, k, p, Held) { SameJobsAdvance(db, DoneEvent(db, k)); }
    else { ConfirmAdvances(db, DoneEvent(db, k), p, ref); }
  }

  lemma ReleaseAdvances(db: Db, next: Db, k: EventKey, p: PaymentId)
    requires ReleaseCommit(db, next, k, p)
    ensures JobsAdvance(db, next)
  {
    if OnlyDone(db, next, k, p, Released) { SameJobsAdvance(db, DoneEvent(db, k)); }
    else { FinishReleaseAdvances(db, DoneEvent(db, k), p, db.payments[p].ref, PaymentRelease, PaymentPayout); }
  }

  lemma RefundAdvances(db: Db, next: Db, k: EventKey, p: PaymentId, r: RefundId, ref: Ref)
    requires RefundCommit(db, next, k, p, r, ref)
    ensures JobsAdvance(db, next)
  {
    if OnlyDone(db, next, k, p, PaymentStatus.Refunded) { SameJobsAdvance(db, DoneEvent(db, k)); }
    else { FinishRefundAdvances(db, DoneEvent(db, k), p, r, Some(ref), PaymentRefund); }
  }

  lemma CompleteAdvances(db: Db, t: Ticket, ref: Ref)
    ensures JobsAdvance(db, CompleteTicket(db, t, ref).0)
  {
    TicketCommits(db, t, ref);
    if CompleteTicket(db, t, ref).0 != db {
      TicketAdvances(db, CompleteTicket(db, t, ref).0, t, ref);
    }
  }

  lemma FailAdvances(db: Db, k: EventKey, token: nat, maxAttempts: nat, now: int, jitter: nat)
    ensures JobsAdvance(db, FailEvent(db, k, Some(token), maxAttempts, now, jitter).0)
  {
    SameJobsAdvance(db, FailEvent(db, k, Some(token), maxAttempts, now, jitter).0);
  }

  lemma WorkAdvances(db: Db, s: WorkStep)
    ensures JobsAdvance(db, NextWork(db, s))
  {
    match s {
      case Complete(t, ref) => CompleteAdvances(db, t, ref);
      case Fail(t, maxAttempts, now, jitter) => FailAdvances(db, t.event, t.token, maxAttempts, now, jitter);
      case _ => SameJobsAdvance(db, NextWork(db, s));
    }
  }

  lemma CreateAdvances(db: Db, j: JobId, owner: UserId, kind: Kind)
    ensures JobsAdvance(db, CreateJob(db, j, owner, kind).0)
  {
  }

  lemma UpdateAdvances(db: Db, j: JobId, from: JobStatus, to: JobStatus)
    requires to in {Published, InProgress, Delivered} && (to == Published ==> from == Draft)
    ensures JobsAdvance(db, UpdateJob(db, j, {from}, to).0)
  {
  }

  lemma ModerateAdvances(db: Db, j: JobId, status: JobStatus)
    requires !ModeratesSettled(db, Board(ModerateStep(j, status)))
    ensures JobsAdvance(db, Moderate(db, j, status).0)
  {
  }

  lemma AcceptOfferAdvances(db: Db, o: OfferId, owner: UserId)
    ensures JobsAdvance(db, AcceptOffer(db, o, owner).0)
  {
    if AcceptOfferReply(db, o, owner) == Updated {
      OneJobAdvances(db, AssignJob(db, o, db.offers[o].job), db.offers[o].job);
    }
  }

  lemma ForgetAdvances(db: Db, u: UserId)
    ensures JobsAdvance(db, ForgetProvider(db, u))
  {
  }

  lemma SubmitAdvances(db: Db, o: OfferId, j: JobId, provider: UserId, price: nat)
    ensures JobsAdvance(db, SubmitOffer(db, o, j, provider, price).0)
  {
  }

  lemma BoardAdvances(db: Db, s: BoardStep)
    requires !ModeratesSettled(db, Board(s)) && !s.DeleteJobStep?
    ensures JobsAdvance(db, NextBoard(db, s))
  {
    match s {
      case Publish(j) => UpdateAdvances(db, j, Draft, Published);
      case StartWrite(j) => UpdateAdvances(db, j, Funded, InProgress);
      case Deliver(j) => UpdateAdvances(db, j, InProgress, Delivered);
      case ModerateStep(j, status) => ModerateAdvances(db, j, status);
      case StartRead(_) =>
      case _ => PostingAdvances(db, s);
    }
  }

  lemma PostingAdvances(db: Db, s: BoardStep)
    requires s.CreateJobStep? || s.SubmitOfferStep? || s.AcceptOfferStep? || s.ForgetProviderStep?
    ensures JobsAdvance(db, NextBoard(db, s))
  {
    match s {
      case CreateJobStep(j, owner, kind) => CreateAdvances(db, j, owner, kind);
      case SubmitOfferStep(o, j, provider, price) => SubmitAdvances(db, o, j, provider, price);
      case AcceptOfferStep(o, owner) => AcceptOfferAdvances(db, o, owner);
      case ForgetProviderStep(u) => ForgetAdvances(db, u);
    }
  }

  lemma DeleteKeepsHired(db: Db, j: JobId)
    requires HiredOk(db)
    ensures HiredOk(DeleteJob(db, j).0)
  {
    var next := DeleteJob(db, j).0;
    forall a | IsHired(next, a) ensures HireFits(next, a) {
      DeleteKeepsHire(db, j, a);
    }
    FewerKeepSingle(db, next);
  }

  lemma DeleteKeepsHire(db: Db, j: JobId, a: ApplicationId)
    requires a in db.applications && HireFits(db, a)
    ensures a in DeleteJob(db, j).0.applications ==> HireFits(DeleteJob(db, j).0, a)
  {
  }

  // ---------- applications ----------

  /** Application a is not hired by the step, and nobody else's changes. */
  predicate Unhired(db: Db, next: Db, a: ApplicationId) {
    && next.jobs == db.jobs
    && (a in next.applications ==> next.applications == db.applications[a := next.applications[a]])
    && (a !in next.applications ==> next.applications == db.applications)
    && (IsHired(next, a) ==> next.applications == db.applications)
  }

  lemma UnhiredKeepsSingle(db: Db, next: Db, a: ApplicationId)
    requires Single(db) && Unhired(db, next, a)
    ensures Single(next)
  {
    forall x, y | BothHired(next, x, y) ensures x == y {
      assert BothHired(db, x, y);
    }
  }

  lemma UnhiredKeepsHired(db: Db, next: Db, a: ApplicationId)
    requires HiredOk(db) && Unhired(db, next, a)
    ensures HiredOk(next)
  {
    forall x | IsHired(next, x) ensures HireFits(next, x) {
      assert HireFits(db, x);
    }
    UnhiredKeepsSingle(db, next, a);
  }

  /** The guard of a hire: nobody else is hired for the job. */
  predicate Hires(db: Db, next: Db, a: ApplicationId) {
    && a in db.applications && db.applications[a].job in db.jobs && !OtherHired(db, a, db.applications[a].job)
    && next == MoveApplication(db, a, db.applications[a].job, ApplicationStatus.Accepted)
  }

  lemma HireKeepsSingle(db: Db, next: Db, a: ApplicationId)
    requires Single(db) && Hires(db, next, a)
    ensures Single(next)
  {
    forall x, y | BothHired(next, x, y) ensures x == y {
      assert x != a && y != a ==> BothHired(db, x, y);
    }
  }

  /** So moving the provider disturbs no earlier hire. */
  lemma HireKeepsHired(db: Db, next: Db, a: ApplicationId)
    requires HiredOk(db) && Hires(db, next, a)
    ensures HiredOk(next)
  {
    forall x | IsHired(next, x) ensures HireFits(next, x) {
      assert x != a ==> HireFits(db, x);
    }
    HireKeepsSingle(db, next, a);
  }

  /** A recruitment step hires nobody, or hires under the guard. */
  lemma RecruitHires(db: Db, s: RecruitStep)
    ensures Unhired(db, NextRecruit(db, s), s.application) || Hires(db, NextRecruit(db, s), s.application)
  {
    match s {
      case ApplyStep(a, j, candidate) => ApplyIsUnhired(db, a, j, candidate);
      case Invite(a, owner, j) => EmployerHires(db, a, owner, {Forwarded}, Interview, j);
      case MakeOffer(a, owner, j) => EmployerHires(db, a, owner, {Interview}, Offered, j);
      case Hire(a, owner, j) => EmployerHires(db, a, owner, {Offered}, ApplicationStatus.Accepted, j);
      case Withdraw(a, _) =>
        TransitionIsUnhired(db, a, {ApplicationStatus.Pending, Shortlisted, Forwarded, Interview}, Withdrawn);
      case Shortlist(a) => TransitionIsUnhired(db, a, {ApplicationStatus.Pending}, Shortlisted);
      case Forward(a) => TransitionIsUnhired(db, a, {ApplicationStatus.Pending, Shortlisted}, Forwarded);
      case Reject(a) =>
        TransitionIsUnhired(db, a, {ApplicationStatus.Pending, Shortlisted}, ApplicationStatus.Rejected);
    }
  }

  lemma ApplyIsUnhired(db: Db, a: ApplicationId, j: JobId, candidate: UserId)
    ensures Unhired(db, Apply(db, a, j, candidate).0, a)
  {
  }

  lemma TransitionIsUnhired(db: Db, a: ApplicationId, from: set<ApplicationStatus>, to: ApplicationStatus)
    requires to != ApplicationStatus.Accepted
    ensures Unhired(db, TransitionApplication(db, a, from, to).0, a)
  {
  }

  lemma EmployerHires(db: Db, a: ApplicationId, owner: UserId, from: set<ApplicationStatus>, to: ApplicationStatus,
      j: JobId)
    ensures var next := TransitionEmployerApplication(db, a, owner, from, to, j).0;
            Unhired(db, next, a) || Hires(db, next, a)
  {
    if EmployerReply(db, a, owner, from, to, j) == Updated && to != ApplicationStatus.Accepted {
      assert Unhired(db, MoveApplication(db, a, db.applications[a].job, to), a);
    }
  }

  lemma RecruitKeepsHired(db: Db, s: RecruitStep)
    requires HiredOk(db)
    ensures HiredOk(NextRecruit(db, s))
  {
    RecruitHires(db, s);
    if Hires(db, NextRecruit(db, s), s.application) {
      HireKeepsHired(db, NextRecruit(db, s), s.application);
    } else {
      UnhiredKeepsHired(db, NextRecruit(db, s), s.application);
    }
  }

  lemma RecruitKeepsSingle(db: Db, s: RecruitStep)
    requires Single(db)
    ensures Single(NextRecruit(db, s))
  {
    RecruitHires(db, s);
    if Hires(db, NextRecruit(db, s), s.application) {
      HireKeepsSingle(db, NextRecruit(db, s), s.application);
    } else {
      UnhiredKeepsSingle(db, NextRecruit(db, s), s.application);
    }
  }

  // ---------- the moderation of a settled job ----------

  predicate SomebodyHired(db: Db, j: JobId) {
    exists a :: a in db.applications && IsHired(db, a) && db.applications[a].job == j
  }

  /** Moderation keeps hires and jobs consistent if and only if the job is not settled, or nobody is hired for it. */
  lemma HireModerationIff(db: Db, j: JobId, status: JobStatus)
    requires HiredOk(db) && j in db.jobs && status in {Draft, Published, Cancelled}
    ensures HiredOk(Moderate(db, j, status).0) <==> !(db.jobs[j].status == Settled && SomebodyHired(db, j))
  {
    var next := Moderate(db, j, status).0;
    SameApplicationsKeepSingle(db, next);
    if db.jobs[j].status == Settled && SomebodyHired(db, j) {
      var a :| IsHired(db, a) && db.applications[a].job == j;
      assert IsHired(next, a) && !HireFits(next, a);
    } else {
      forall a | IsHired(next, a) ensures HireFits(next, a) {
        assert HireFits(db, a);
      }
    }
  }

  /** The step that does break the consistency. */
  predicate ModeratesHired(db: Db, s: Step) { ModeratesSettled(db, s) && SomebodyHired(db, s.board.job) }

  lemma BoardKeepsHired(db: Db, s: BoardStep)
    requires HiredOk(db) && !ModeratesHired(db, Board(s))
    ensures HiredOk(NextBoard(db, s))
  {
    if s.DeleteJobStep? {
      DeleteKeepsHired(db, s.job);
    } else if ModeratesSettled(db, Board(s)) {
      HireModerationIff(db, s.job, s.status);
    } else {
      BoardAdvances(db, s);
      AdvanceKeepsHired(db, NextBoard(db, s));
    }
  }

  lemma NextKeepsHired(w: World, s: Step)
    requires HiredOk(w.db) && !ModeratesHired(w.db, s)
    ensures HiredOk(Next(w, s).db)
  {
    if Enabled(w, s) {
      match s {
        case Board(b) => BoardKeepsHired(w.db, b);
        case Recruit(r) => RecruitKeepsHired(w.db, r);
        case Pay(m) => PayAdvances(w.db, m); AdvanceKeepsHired(w.db, NextPay(w.db, m));
        case Work(k) => WorkAdvances(w.db, k); AdvanceKeepsHired(w.db, NextWork(w.db, k));
      }
    }
  }

  lemma NextHiredIff(w: World, s: Step)
    requires HiredOk(w.db)
    ensures HiredOk(Next(w, s).db) <==> !ModeratesHired(w.db, s)
  {
    if ModeratesHired(w.db, s) {
      HireModerationIff(w.db, s.board.job, s.board.status);
    } else {
      NextKeepsHired(w, s);
    }
  }
}
