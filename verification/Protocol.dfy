/** The protocol as a transition system: the tables, the leases handed to workers, the provider calls made so far, and
    the payment reads of start requests that have not written yet. */
module Protocol {
  import opened Options
  import opened Money
  import opened Schema
  import opened Transactions

  /** What a worker got from a claim. A ticket stays usable for ever: a crashed worker never uses it again, a stalled
      one uses it late, and one that lost the acknowledgement of a commit uses it twice. */
  datatype Ticket = Ticket(event: EventKey, token: nat, payload: Payload)

  datatype Call =
    | HoldCall(payment: PaymentId, amount: nat, currency: Currency, key: Key)
    | ReleaseCall(payment: PaymentId, ref: Ref, key: Key)
    | RefundCall(payment: PaymentId, ref: Ref, key: Key)

  datatype World = World(db: Db, tickets: set<Ticket>, calls: seq<Call>, startReads: set<JobId>)

  const INITIAL: World := World(EMPTY, {}, [], {})

  /** Publication, offers and job progress. StartRead is the payment lookup of the start route, StartWrite the update it
      leads to. */
  datatype BoardStep =
    | CreateJobStep(job: JobId, owner: UserId, kind: Kind)
    | Publish(job: JobId)
    | SubmitOfferStep(offer: OfferId, job: JobId, provider: UserId, price: nat)
    | AcceptOfferStep(offer: OfferId, owner: UserId)
    | ModerateStep(job: JobId, status: JobStatus)
    | DeleteJobStep(job: JobId)
    | ForgetProviderStep(provider: UserId)
    | StartRead(job: JobId)
    | StartWrite(job: JobId)
    | Deliver(job: JobId)

  datatype RecruitStep =
    | ApplyStep(application: ApplicationId, job: JobId, candidate: UserId)
    | Shortlist(application: ApplicationId)
    | Forward(application: ApplicationId)
    | Reject(application: ApplicationId)
    | Withdraw(application: ApplicationId, candidate: UserId)
    | Invite(application: ApplicationId, owner: UserId, job: JobId)
    | MakeOffer(application: ApplicationId, owner: UserId, job: JobId)
    | Hire(application: ApplicationId, owner: UserId, job: JobId)

  /** What owners and the provider's webhooks do to payments. */
  datatype PayStep =
    | Fund(job: JobId, payer: UserId, payee: UserId, chosen: Option<OfferId>, amount: nat, payment: PaymentId, key: Key,
           currency: Currency, now: int)
    | Accept(job: JobId)
    | RequestRefund(job: JobId, payment: PaymentId, owner: UserId, amount: nat, refund: RefundId, key: Key, now: int)
    | RequestRelease(job: JobId, owner: UserId, payment: PaymentId, now: int)
    | Webhook(id: WebhookId, kind: WebhookType, payment: PaymentId, ref: Ref, row: RefundId)

  datatype WorkStep =
    | ClaimStep(event: EventKey, now: int, lease: nat)
    | CallProvider(ticket: Ticket)
    | Complete(ticket: Ticket, ref: Ref)
    | Fail(ticket: Ticket, maxAttempts: nat, now: int, jitter: nat)

  datatype Step = Board(board: BoardStep) | Recruit(recruit: RecruitStep) | Pay(pay: PayStep) | Work(work: WorkStep)

  function CallOf(payload: Payload): Call {
    match payload
    case HoldPayload(_, _, p, amount, _, currency, key) => HoldCall(p, amount, currency, key)
    case ReleasePayload(_, _, p, ref, key) => ReleaseCall(p, ref, if key != NoKey then key else ReleaseKey(p))
    case RefundPayload(_, _, p, r, ref, key) => RefundCall(p, ref, if key != NoKey then key else RefundKey(r))
  }

  /** The commit that follows a provider's success, with the arguments the handler takes from the claimed row. */
  function CompleteTicket(db: Db, t: Ticket, ref: Ref): (Db, Reply) {
    match t.payload
    case HoldPayload(j, _, p, _, _, _, _) => CompleteHold(db, t.event, j, p, ref, Some(t.token))
    case ReleasePayload(j, _, p, _, _) => CompleteRelease(db, t.event, j, p, Some(t.token))
    case RefundPayload(j, _, p, r, _, _) => CompleteRefund(db, t.event, j, p, r, ref, Some(t.token))
  }

  function NextBoard(db: Db, s: BoardStep): Db {
    match s
    case CreateJobStep(j, owner, kind) => CreateJob(db, j, owner, kind).0
    case Publish(j) => UpdateJob(db, j, {Draft}, Published).0
    case SubmitOfferStep(o, j, provider, price) => SubmitOffer(db, o, j, provider, price).0
    case AcceptOfferStep(o, owner) => AcceptOffer(db, o, owner).0
    case ModerateStep(j, status) => Moderate(db, j, status).0
    case DeleteJobStep(j) => DeleteJob(db, j).0
    case ForgetProviderStep(u) => ForgetProvider(db, u)
    case StartRead(_) => db
    case StartWrite(j) => UpdateJob(db, j, {Funded}, InProgress).0
    case Deliver(j) => UpdateJob(db, j, {InProgress}, Delivered).0
  }

  function NextRecruit(db: Db, s: RecruitStep): Db {
    match s
    case ApplyStep(a, j, candidate) => Apply(db, a, j, candidate).0
    case Shortlist(a) => TransitionApplication(db, a, {ApplicationStatus.Pending}, Shortlisted).0
    case Forward(a) => TransitionApplication(db, a, {ApplicationStatus.Pending, Shortlisted}, Forwarded).0
    case Reject(a) =>
      TransitionApplication(db, a, {ApplicationStatus.Pending, Shortlisted}, ApplicationStatus.Rejected).0
    case Withdraw(a, candidate) =>
      TransitionCandidateApplication(db, a, candidate, {ApplicationStatus.Pending, Shortlisted, Forwarded, Interview},
                                     Withdrawn).0
    case Invite(a, owner, j) => TransitionEmployerApplication(db, a, owner, {Forwarded}, Interview, j).0
    case MakeOffer(a, owner, j) => TransitionEmployerApplication(db, a, owner, {Interview}, Offered, j).0
    case Hire(a, owner, j) => TransitionEmployerApplication(db, a, owner, {Offered}, ApplicationStatus.Accepted, j).0
  }

  /** A refund webhook whose row is not the one the query returns cannot happen, and one of the other kinds without a
      reference is refused before any table is read (backend/src/application/payment_webhook.js:6,24). */
  predicate Impossible(db: Db, s: PayStep)
    requires s.Webhook?
  {
    if s.kind == PaymentRefunded then HasPendingRefund(db, s.payment) && !LatestPendingRefund(db, s.payment, s.row)
    else s.ref == NoRef
  }

  function NextPay(db: Db, s: PayStep): Db {
    match s
    case Fund(j, payer, payee, chosen, amount, p, key, currency, now) =>
      FundJob(db, j, payer, payee, chosen, amount, p, key, currency, now).0
    case Accept(j) => AcceptDelivery(db, j).0
    case RequestRefund(j, p, owner, amount, r, key, now) => CreateRefund(db, j, p, owner, amount, r, key, now).0
    case RequestRelease(j, owner, p, now) => EnqueueRelease(db, j, owner, p, now).0
    case Webhook(id, kind, p, ref, row) =>
      if Impossible(db, s) then db else ApplyWebhook(db, id, kind, p, ref, row).0
  }

  function NextWork(db: Db, s: WorkStep): Db {
    match s
    case ClaimStep(k, now, _) => if k in db.outbox then Claim(db, k, now) else db
    case CallProvider(_) => db
    case Complete(t, ref) => CompleteTicket(db, t, ref).0
    case Fail(t, maxAttempts, now, jitter) => FailEvent(db, t.event, Some(t.token), maxAttempts, now, jitter).0
  }

  function NextDb(db: Db, s: Step): Db {
    match s
    case Board(b) => NextBoard(db, b)
    case Recruit(r) => NextRecruit(db, r)
    case Pay(m) => NextPay(db, m)
    case Work(k) => NextWork(db, k)
  }

  /** Whether a step can happen at all; a step that cannot is a stutter. */
  predicate Enabled(w: World, s: Step) {
    match s
    case Work(ClaimStep(k, now, lease)) => k in w.db.outbox && Claimable(w.db.outbox[k], now, lease)
    case Work(CallProvider(t)) => t in w.tickets
    case Work(Complete(t, ref)) => t in w.tickets && ref != NoRef
    case Work(Fail(t, _, _, _)) => t in w.tickets
    case Board(StartRead(j)) =>
      j in w.db.paymentByJob && w.db.paymentByJob[j] in w.db.payments
      && w.db.payments[w.db.paymentByJob[j]].status == Held
    case Board(StartWrite(j)) => j in w.startReads
    case _ => true
  }

  function NextTickets(w: World, s: Step): set<Ticket> {
    match s
    case Work(ClaimStep(k, _, _)) =>
      if k in w.db.outbox then w.tickets + {Ticket(k, w.db.nextId, w.db.outbox[k].payload)} else w.tickets
    case _ => w.tickets
  }

  function NextCalls(w: World, s: Step): seq<Call> {
    match s
    case Work(CallProvider(t)) => w.calls + [CallOf(t.payload)]
    case _ => w.calls
  }

  function NextReads(w: World, s: Step): set<JobId> {
    match s
    case Board(StartRead(j)) => w.startReads + {j}
    case _ => w.startReads
  }

  function Next(w: World, s: Step): World {
    if !Enabled(w, s) then w else World(NextDb(w.db, s), NextTickets(w, s), NextCalls(w, s), NextReads(w, s))
  }

  function Run(w: World, steps: seq<Step>): World {
    if steps == [] then w else Next(Run(w, steps[..|steps|-1]), steps[|steps|-1])
  }

  lemma {:induction false} RunConcat(w: World, a: seq<Step>, b: seq<Step>)
    ensures Run(w, a + b) == Run(Run(w, a), b)
  {
    if b == [] {
      assert a + b == a;
    } else {
      RunConcat(w, a, b[..|b|-1]);
      assert (a + b)[..|a + b|-1] == a + b[..|b|-1];
    }
  }

  lemma RunPrefix(steps: seq<Step>, i: nat)
    requires i < |steps|
    ensures Run(INITIAL, steps[..i + 1]) == Next(Run(INITIAL, steps[..i]), steps[i])
  {
    assert steps[..i + 1][..i] == steps[..i];
  }

  /** A property of the states of a run that each step keeps exactly when it is good holds all along exactly when all
      steps are. */
  lemma {:induction false} AllAlongIff(holds: nat -> bool, good: nat -> bool, n: nat)
    requires holds(0) && forall i: nat :: i < n && holds(i) ==> (holds(i + 1) <==> good(i))
    ensures (forall i: nat :: i <= n ==> holds(i)) <==> (forall i: nat :: i < n ==> good(i))
  {
    if n > 0 {
      AllAlongIff(holds, good, n - 1);
      assert holds(n - 1) ==> (holds(n - 1 + 1) <==> good(n - 1));
      assert (forall i: nat :: i < n ==> good(i)) <==> (forall i: nat :: i < n - 1 ==> good(i)) && good(n - 1);
      assert (forall i: nat :: i <= n ==> holds(i)) <==> (forall i: nat :: i <= n - 1 ==> holds(i)) && holds(n);
    }
  }
}
