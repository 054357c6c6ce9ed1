/** What the steps on jobs, offers and applications do, in terms of the rows alone: exactly when they change something,
    what they change, and what they are refused for. */
module BoardEffects {
  import opened Options
  import opened Money
  import opened Schema
  import opened Transactions
  import opened Protocol
  import opened Invariant
  import opened Reachability

  // ---------- jobs ----------

  predicate InStatus(db: Db, j: JobId, status: JobStatus) { j in db.jobs && db.jobs[j].status == status }

  predicate JobMoved(db: Db, next: Db, j: JobId, status: JobStatus)
    requires j in db.jobs
  {
    next == db.(jobs := db.jobs[j := db.jobs[j].(status := status)])
  }

  /** What such a step answers and does, from any status to any other. */
  lemma JobAnswer(db: Db, j: JobId, from: JobStatus, to: JobStatus)
    ensures var (next, reply) := UpdateJob(db, j, {from}, to);
            && reply == (if j !in db.jobs then Null else if db.jobs[j].status == from then Updated
                         else Throw(InvalidState))
            && if InStatus(db, j, from) then JobMoved(db, next, j, to) else next == db
  {
  }

  lemma JobSteps(w: World, j: JobId)
    ensures Next(w, Board(Publish(j))).db == UpdateJob(w.db, j, {Draft}, Published).0
    ensures Next(w, Board(StartWrite(j))).db
            == if j in w.startReads then UpdateJob(w.db, j, {Funded}, InProgress).0 else w.db
    ensures Next(w, Board(Deliver(j))).db == UpdateJob(w.db, j, {InProgress}, Delivered).0
  {
  }

  /** Only a draft is published, only a funded job starts, once its payment has been read, and only a job in progress is
      delivered; everything else changes nothing. */
  lemma JobMoves(w: World, j: JobId)
    ensures var next := Next(w, Board(Publish(j))).db;
            if InStatus(w.db, j, Draft) then JobMoved(w.db, next, j, Published) else next == w.db
    ensures var next := Next(w, Board(StartWrite(j))).db;
            if j in w.startReads && InStatus(w.db, j, Funded) then JobMoved(w.db, next, j, InProgress) else next == w.db
    ensures var next := Next(w, Board(Deliver(j))).db;
            if InStatus(w.db, j, InProgress) then JobMoved(w.db, next, j, Delivered) else next == w.db
  {
    JobSteps(w, j);
    JobAnswer(w.db, j, Draft, Published);
    JobAnswer(w.db, j, Funded, InProgress);
    JobAnswer(w.db, j, InProgress, Delivered);
  }

  predicate HasHeldPayment(db: Db, j: JobId) {
    exists p :: p in db.payments && db.payments[p].job == j && db.payments[p].status == Held
  }

  /** In every reachable state the start of a job gets past its look at the payment exactly when the payment is held. */
  lemma StartNeedsHeldPayment(steps: seq<Step>, j: JobId)
    ensures var w := Run(INITIAL, steps);
            Next(w, Board(StartRead(j)))
            == if HasHeldPayment(w.db, j) then w.(startReads := w.startReads + {j}) else w
  {
    var db := Run(INITIAL, steps).db;
    assert Core(db) by { ReachableWorldOk(steps); }
    if HasHeldPayment(db, j) {
      var p :| p in db.payments && db.payments[p].job == j && db.payments[p].status == Held;
      assert db.paymentByJob[j] == p;
    }
  }

  /** Moderation sets a job to draft, published or cancelled and nothing else, unless it is somewhere between being
      assigned and completed. */
  lemma Moderation(db: Db, j: JobId, status: JobStatus)
    ensures var (next, reply) := Moderate(db, j, status);
            && reply == (if status != Draft && status != Published && status != Cancelled then Throw(InvalidStatus)
                         else if j !in db.jobs then Null
                         else match db.jobs[j].status
                           case Draft => Updated
                           case Published => Updated
                           case Settled => Updated
                           case Cancelled => Updated
                           case _ => Throw(JobLocked))
            && if reply == Updated then JobMoved(db, next, j, status) else next == db
  {
  }

  /** The job is gone with its offers and applications, and nothing else. */
  ghost predicate JobGone(db: Db, next: Db, j: JobId) {
    && next == db.(jobs := next.jobs, offers := next.offers, applications := next.applications)
    && (forall i :: Get(next.jobs, i) == if i == j then None else Get(db.jobs, i))
    && (forall o: OfferId ::
         Get(next.offers, o) == if o in db.offers && db.offers[o].job == j then None else Get(db.offers, o))
    && (forall a: ApplicationId ::
         Get(next.applications, a) == if a in db.applications && db.applications[a].job == j then None
                                      else Get(db.applications, a))
  }

  lemma DeletionWrites(db: Db, j: JobId)
    requires DeleteJob(db, j).1 == Updated
    ensures JobGone(db, DeleteJob(db, j).0, j)
  {
  }

  predicate Paid(db: Db, j: JobId) { exists p :: p in db.payments && db.payments[p].job == j }

  lemma PaidIff(db: Db, j: JobId)
    requires Core(db)
    ensures j in db.paymentByJob <==> Paid(db, j)
  {
    if j in db.paymentByJob {
      assert db.payments[db.paymentByJob[j]].job == j;
    }
  }

  /** A job is deleted, with its offers and applications, exactly while it is a draft or published and no payment was
      ever made for it. */
  lemma Deletion(steps: seq<Step>, j: JobId)
    ensures var db := Run(INITIAL, steps).db;
            var (next, reply) := DeleteJob(db, j);
            && reply == (if j !in db.jobs then Null
                         else if db.jobs[j].status != Draft && db.jobs[j].status != Published then Throw(JobLocked)
                         else if Paid(db, j) then Throw(JobHasFinancialRecords)
                         else Updated)
            && if reply == Updated then JobGone(db, next, j) else next == db
  {
    var db := Run(INITIAL, steps).db;
    assert Core(db) by { ReachableWorldOk(steps); }
    PaidIff(db, j);
    if DeleteJob(db, j).1 == Updated {
      DeletionWrites(db, j);
    }
  }

  /** The deletion of an account takes its jobs away from a provider only while they are drafts or published. */
  lemma Forgetting(w: World, u: UserId, j: JobId)
    requires j in w.db.jobs
    ensures var (db, next) := (w.db, Next(w, Board(ForgetProviderStep(u))).db);
            && next == db.(jobs := next.jobs) && next.jobs.Keys == db.jobs.Keys
            && next.jobs[j] == if db.jobs[j].provider == Some(u)
                                  && (db.jobs[j].status == Draft || db.jobs[j].status == Published)
                               then db.jobs[j].(provider := None) else db.jobs[j]
  {
  }

  // ---------- offers ----------

  /** An offer is accepted exactly by the owner of its job, while the job is published and the offer pending: the
      offer's provider gets the job, the other pending offers of the job are rejected, and nothing else changes. */
  lemma OfferAcceptance(db: Db, o: OfferId, owner: UserId)
    ensures var (next, reply) := AcceptOffer(db, o, owner);
            && reply == (if o !in db.offers || db.offers[o].job !in db.jobs then Null
                         else if db.jobs[db.offers[o].job].owner != owner then Throw(Forbidden)
                         else if db.jobs[db.offers[o].job].status == Published
                                 && db.offers[o].status == OfferStatus.Pending then Updated
                         else Throw(InvalidState))
            && (reply != Updated ==> next == db)
            && (reply == Updated ==>
                 var j := db.offers[o].job;
                 && next == db.(offers := next.offers, jobs := next.jobs) && next.offers.Keys == db.offers.Keys
                 && next.jobs == db.jobs[j := db.jobs[j].(provider := Some(db.offers[o].provider), status := Assigned)]
                 && forall x :: x in db.offers ==>
                      next.offers[x] == if x == o then db.offers[x].(status := OfferStatus.Accepted)
                                        else if db.offers[x].job == j && db.offers[x].status == OfferStatus.Pending
                                        then db.offers[x].(status := OfferStatus.Rejected)
                                        else db.offers[x])
  {
  }

  predicate OffersAlready(db: Db, j: JobId, provider: UserId) {
    exists x :: x in db.offers && db.offers[x].job == j && db.offers[x].provider == provider
                && db.offers[x].status == OfferStatus.Pending
  }

  predicate AppliesAlready(db: Db, j: JobId, candidate: UserId) {
    exists x :: x in db.applications && db.applications[x].job == j && db.applications[x].candidate == candidate
                && db.applications[x].status == ApplicationStatus.Pending
  }

  /** A job, an offer or an application is inserted exactly when its id is new and, for the latter two, the job exists
      and the same person has nothing else pending for it, an offer also only with a positive price; a job begins as a
      draft without provider, the others pending; anything else breaks a constraint of the tables. */
  lemma Insertions(db: Db, id: nat, j: JobId, u: UserId, kind: Kind, price: nat)
    ensures CreateJob(db, id, u, kind)
            == if id in db.jobs then (db, Throw(UniqueViolation))
               else (db.(jobs := db.jobs[id := Job(u, None, kind, Draft)]), Created)
    ensures SubmitOffer(db, id, j, u, price)
            == if id in db.offers || j !in db.jobs || price == 0 || OffersAlready(db, j, u)
               then (db, Throw(UniqueViolation))
               else (db.(offers := db.offers[id := Offer(j, u, price, OfferStatus.Pending)]), Created)
    ensures Apply(db, id, j, u)
            == if id in db.applications || j !in db.jobs || AppliesAlready(db, j, u) then (db, Throw(UniqueViolation))
               else (db.(applications := db.applications[id := Application(j, u, ApplicationStatus.Pending)]), Created)
  {
  }

  // ---------- recruitment ----------

  /** The request names the application's job, which is a salaried one of this owner. */
  predicate OwnersJob(db: Db, a: ApplicationId, owner: UserId, j: JobId)
    requires a in db.applications
  {
    db.applications[a].job == j && j in db.jobs && db.jobs[j].owner == owner && db.jobs[j].kind == Salaried
  }

  predicate NobodyElseHired(db: Db, a: ApplicationId)
    requires a in db.applications
  {
    forall x :: x in db.applications && x != a && db.applications[x].job == db.applications[a].job ==>
      db.applications[x].status != ApplicationStatus.Accepted
  }

  /** Who may move an application, and from where. */
  predicate MayMove(db: Db, s: RecruitStep)
    requires s.application in db.applications
  {
    var from := db.applications[s.application].status;
    match s
    case ApplyStep(_, _, _) => false
    case Shortlist(_) => from == ApplicationStatus.Pending
    case Forward(_) => from == ApplicationStatus.Pending || from == Shortlisted
    case Reject(_) => from == ApplicationStatus.Pending || from == Shortlisted
    case Withdraw(a, candidate) =>
      db.applications[a].candidate == candidate
      && (from == ApplicationStatus.Pending || from == Shortlisted || from == Forwarded || from == Interview)
    case Invite(a, owner, j) => OwnersJob(db, a, owner, j) && from == Forwarded
    case MakeOffer(a, owner, j) => OwnersJob(db, a, owner, j) && from == Interview
    case Hire(a, owner, j) =>
      OwnersJob(db, a, owner, j) && from == Offered && NobodyElseHired(db, a)
      && (db.jobs[j].status == Published || db.jobs[j].status == Assigned)
  }

  function Destination(s: RecruitStep): ApplicationStatus {
    match s
    case ApplyStep(_, _, _) => ApplicationStatus.Pending
    case Shortlist(_) => Shortlisted
    case Forward(_) => Forwarded
    case Reject(_) => ApplicationStatus.Rejected
    case Withdraw(_, _) => Withdrawn
    case Invite(_, _, _) => Interview
    case MakeOffer(_, _, _) => Offered
    case Hire(_, _, _) => ApplicationStatus.Accepted
  }

  lemma EmployerMove(db: Db, a: ApplicationId, owner: UserId, from: ApplicationStatus, to: ApplicationStatus, j: JobId)
    requires a in db.applications
    ensures var next := TransitionEmployerApplication(db, a, owner, {from}, to, j).0;
            var app := db.applications[a];
            if OwnersJob(db, a, owner, j) && app.status == from
               && (to == ApplicationStatus.Accepted ==>
                    NobodyElseHired(db, a) && (db.jobs[j].status == Published || db.jobs[j].status == Assigned))
            then next == db.(applications := db.applications[a := app.(status := to)],
                             jobs := if to != ApplicationStatus.Accepted then db.jobs
                                     else db.jobs[j := db.jobs[j].(provider := Some(app.candidate),
                                                                   status := Assigned)])
            else next == db
  {
    assert OtherHired(db, a, db.applications[a].job) <==> !NobodyElseHired(db, a);
  }

  /** The application is where the step leads; a hire also makes the candidate the provider of the job, which is
      assigned; nothing else changes. */
  predicate Moved(db: Db, next: Db, s: RecruitStep)
    requires s.application in db.applications && (s.Hire? ==> db.applications[s.application].job in db.jobs)
  {
    var app := db.applications[s.application];
    next == db.(applications := db.applications[s.application := app.(status := Destination(s))],
                jobs := if !s.Hire? then db.jobs
                        else db.jobs[app.job := db.jobs[app.job].(provider := Some(app.candidate), status := Assigned)])
  }

  lemma PlainMove(db: Db, s: RecruitStep)
    requires s.application in db.applications && (s.Shortlist? || s.Forward? || s.Reject? || s.Withdraw?)
    ensures if MayMove(db, s) then Moved(db, NextRecruit(db, s), s) else NextRecruit(db, s) == db
  {
  }

  lemma OwnersMove(db: Db, s: RecruitStep)
    requires s.application in db.applications && (s.Invite? || s.MakeOffer? || s.Hire?)
    ensures if MayMove(db, s) then Moved(db, NextRecruit(db, s), s) else NextRecruit(db, s) == db
  {
    match s {
      case Invite(a, owner, j) => EmployerMove(db, a, owner, Forwarded, Interview, j);
      case MakeOffer(a, owner, j) => EmployerMove(db, a, owner, Interview, Offered, j);
      case Hire(a, owner, j) => EmployerMove(db, a, owner, Offered, ApplicationStatus.Accepted, j);
    }
  }

  /** Every step of a recruitment: the application moves exactly when the step is allowed, to the one status the step
      leads to. */
  lemma RecruitMoves(w: World, s: RecruitStep)
    requires s.application in w.db.applications
    ensures var next := Next(w, Recruit(s)).db;
            if MayMove(w.db, s) then Moved(w.db, next, s) else next == w.db
  {
    match s {
      case ApplyStep(_, _, _) =>
      case Invite(_, _, _) => OwnersMove(w.db, s);
      case MakeOffer(_, _, _) => OwnersMove(w.db, s);
      case Hire(_, _, _) => OwnersMove(w.db, s);
      case _ => PlainMove(w.db, s);
    }
  }

  /** What an employer's invitation, offer or hire is refused for. */
  lemma EmployerAnswer(db: Db, a: ApplicationId, owner: UserId, from: ApplicationStatus, to: ApplicationStatus,
      j: JobId)
    requires a in db.applications && db.applications[a].job in db.jobs
    ensures var app := db.applications[a];
            TransitionEmployerApplication(db, a, owner, {from}, to, j).1
            == if app.job != j then Throw(ApplicationJobMismatch)
               else if db.jobs[j].owner != owner then Throw(Forbidden)
               else if db.jobs[j].kind == Mission then Throw(JobOnly)
               else if app.status != from then Throw(InvalidApplicationState)
               else if to == ApplicationStatus.Accepted && !NobodyElseHired(db, a) then Throw(CandidateAlreadyHired)
               else if to == ApplicationStatus.Accepted && db.jobs[j].status != Published
                       && db.jobs[j].status != Assigned then Throw(JobNotHirable)
               else Updated
  {
    assert OtherHired(db, a, db.applications[a].job) <==> !NobodyElseHired(db, a);
  }

  /** The other steps find their application or nothing: an update in place, or null. */
  lemma ApplicationAnswer(db: Db, a: ApplicationId, u: UserId, from: set<ApplicationStatus>, to: ApplicationStatus)
    ensures TransitionApplication(db, a, from, to).1
            == if a in db.applications && db.applications[a].status in from then Updated else Null
    ensures TransitionCandidateApplication(db, a, u, from, to).1
            == if a in db.applications && db.applications[a].candidate == u && db.applications[a].status in from
               then Updated else Null
  {
  }
}
