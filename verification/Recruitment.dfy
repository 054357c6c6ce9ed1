/** The application lifecycle over runs: ranks only rise, so applications stop; one hire per job, and it is for good. */
module Recruitment {
  import opened Options
  import opened Money
  import opened Schema
  import opened Transactions
  import opened Protocol
  import opened JobInvariant
  import opened Hiring
  import opened Evolution
  import opened Invariant
  import opened Reachability

  function Rank(s: ApplicationStatus): (r: nat)
    ensures r <= 5
  {
    match s
    case Pending => 0
    case Shortlisted => 1
    case Forwarded => 2
    case Interview => 3
    case Offered => 4
    case _ => 5
  }

  predicate Advances(a: Application, b: Application) {
    b == a || (b == a.(status := b.status) && Rank(a.status) < Rank(b.status))
  }

  predicate AllAdvance(db: Db, next: Db) {
    forall a :: a in db.applications && a in next.applications ==> Advances(db.applications[a], next.applications[a])
  }

  lemma RecruitAdvances(db: Db, s: RecruitStep)
    ensures AllAdvance(db, NextRecruit(db, s)) && db.applications.Keys <= NextRecruit(db, s).applications.Keys
  {
  }

  /** Applications only disappear, with the job they were for, which was a draft or published and had no payment. */
  predicate OnlyLost(db: Db, next: Db) {
    && (forall a :: a in next.applications ==> a in db.applications && next.applications[a] == db.applications[a])
    && (forall a :: a in db.applications && a !in next.applications ==>
          db.applications[a].job in db.jobs && db.jobs[db.applications[a].job].status in {Draft, Published}
          && db.applications[a].job !in db.paymentByJob)
  }

  lemma DeletionLosesOnlyItsOwn(db: Db, j: JobId)
    ensures OnlyLost(db, DeleteJob(db, j).0)
  {
  }

  lemma OtherBoardKeepsApplications(db: Db, s: BoardStep)
    requires !s.DeleteJobStep?
    ensures NextBoard(db, s).applications == db.applications
  {
  }

  lemma BoardKeepsApplications(db: Db, s: BoardStep)
    ensures OnlyLost(db, NextBoard(db, s))
  {
    if s.DeleteJobStep? {
      DeletionLosesOnlyItsOwn(db, s.job);
    } else {
      OtherBoardKeepsApplications(db, s);
    }
  }

  lemma NextAdvances(w: World, s: Step)
    ensures AllAdvance(w.db, Next(w, s).db)
  {
    match s {
      case Board(b) => BoardKeepsApplications(w.db, b);
      case Recruit(r) => RecruitAdvances(w.db, r);
      case Pay(m) => PayAdvances(w.db, m);
      case Work(k) => WorkAdvances(w.db, k);
    }
  }

  /** How often application a changes along a run. */
  function Changes(w: World, steps: seq<Step>, a: ApplicationId): nat {
    if steps == [] then 0
    else
      var mid := Run(w, steps[..|steps|-1]);
      Changes(w, steps[..|steps|-1], a)
        + Changed(Get(mid.db.applications, a), Get(Next(mid, steps[|steps|-1]).db.applications, a))
  }

  function Changed(a: Option<Application>, b: Option<Application>): nat { if a == b then 0 else 1 }

  predicate There(w: World, steps: seq<Step>, a: ApplicationId) {
    forall i :: 0 <= i <= |steps| ==> a in Run(w, steps[..i]).db.applications
  }

  lemma ThereBefore(w: World, steps: seq<Step>, a: ApplicationId)
    requires There(w, steps, a)
    ensures a in w.db.applications && a in Run(w, steps).db.applications
    ensures steps != [] ==> There(w, steps[..|steps|-1], a)
  {
    assert steps[..0] == [] && steps[..|steps|] == steps;
    if steps != [] {
      var front := steps[..|steps|-1];
      assert forall i :: 0 <= i <= |front| ==> front[..i] == steps[..i];
    }
  }

  lemma ChangeRaises(db: Db, next: Db, a: ApplicationId)
    requires AllAdvance(db, next) && a in db.applications && a in next.applications
    ensures next.applications[a].candidate == db.applications[a].candidate
    ensures Rank(db.applications[a].status)
            + Changed(Get(db.applications, a), Get(next.applications, a)) <= Rank(next.applications[a].status)
  {
    assert Advances(db.applications[a], next.applications[a]);
  }

  /** An application has changed at most as often as its rank has risen, hence at most five times, and is still the same
      candidate's. */
  ghost predicate Slow(w: World, steps: seq<Step>, a: ApplicationId) {
    && a in w.db.applications && a in Run(w, steps).db.applications
    && Rank(w.db.applications[a].status) + Changes(w, steps, a) <= Rank(Run(w, steps).db.applications[a].status) <= 5
    && Run(w, steps).db.applications[a].candidate == w.db.applications[a].candidate
  }

  lemma OneMoreStep(w: World, steps: seq<Step>, a: ApplicationId)
    requires steps != [] && Slow(w, steps[..|steps|-1], a) && a in Run(w, steps).db.applications
    ensures Slow(w, steps, a)
  {
    var mid := Run(w, steps[..|steps|-1]);
    NextAdvances(mid, steps[|steps|-1]);
    ChangeRaises(mid.db, Next(mid, steps[|steps|-1]).db, a);
  }

  /** Every change raises the rank, so an application that is not deleted changes at most five times in any run. */
  lemma {:induction false} FewChanges(w: World, steps: seq<Step>, a: ApplicationId)
    requires There(w, steps, a)
    ensures Slow(w, steps, a)
  {
    ThereBefore(w, steps, a);
    if steps != [] {
      FewChanges(w, steps[..|steps|-1], a);
      OneMoreStep(w, steps, a);
    }
  }

  // ---------- one hire per job ----------

  lemma NextKeepsSingle(w: World, s: Step)
    requires Single(w.db)
    ensures Single(Next(w, s).db)
  {
    if Enabled(w, s) {
      match s {
        case Board(b) => BoardKeepsApplications(w.db, b); FewerKeepSingle(w.db, NextBoard(w.db, b));
        case Recruit(r) => RecruitKeepsSingle(w.db, r);
        case Pay(m) => PayAdvances(w.db, m); SameApplicationsKeepSingle(w.db, NextPay(w.db, m));
        case Work(k) => WorkAdvances(w.db, k); SameApplicationsKeepSingle(w.db, NextWork(w.db, k));
      }
    }
  }

  /** In every run, with or without moderation, at most one application of a job is accepted. */
  lemma {:induction false} SingleHire(steps: seq<Step>)
    ensures Single(Run(INITIAL, steps).db)
  {
    if steps != [] {
      SingleHire(steps[..|steps|-1]);
      NextKeepsSingle(Run(INITIAL, steps[..|steps|-1]), steps[|steps|-1]);
    }
  }

  // ---------- a hire is for good ----------

  /** The job cannot be deleted any more: it is past publication, or it has a payment. */
  predicate Anchored(db: Db, j: JobId) { j in db.jobs && (j in db.paymentByJob || Past(db.jobs[j])) }

  /** Jobs of hires are anchored, and settled jobs, which moderation can set back, have a payment. */
  ghost predicate HiresAnchored(db: Db) {
    && (forall a {:trigger db.applications[a]} :: IsHired(db, a) ==> Anchored(db, db.applications[a].job))
    && (forall j :: j in db.jobs && db.jobs[j].status == Settled ==> j in db.paymentByJob)
  }

  /** What a step does to jobs, as far as anchors go. */
  ghost predicate AnchorsHold(db: Db, next: Db) {
    && (forall j :: j in db.jobs && Past(db.jobs[j]) && j !in db.paymentByJob ==> j in next.jobs && Past(next.jobs[j]))
    && (forall j :: j in next.jobs && next.jobs[j].status == Settled ==> WasSettledOrPaid(db, j))
    && (forall a :: IsHired(next, a) ==>
          (IsHired(db, a) && next.applications[a] == db.applications[a])
          || (next.applications[a].job in next.jobs && Past(next.jobs[next.applications[a].job])))
  }

  lemma PaidIsIndexed(db: Db, next: Db, j: JobId)
    requires Core(db) && Core(next) && Grows(db, next) && (j in db.paymentByJob || HasPaymentFor(db.payments, j))
    ensures j in next.paymentByJob && j in next.jobs
  {
    if HasPaymentFor(db.payments, j) {
      var p :| p in db.payments && db.payments[p].job == j;
      assert db.payments[p].job in db.paymentByJob;
    }
    IndexIsStable(db, next, j);
  }

  lemma AnchorsKept(db: Db, next: Db)
    requires Core(db) && Core(next) && Grows(db, next) && HiresAnchored(db) && AnchorsHold(db, next)
    ensures HiresAnchored(next)
  {
    forall a | IsHired(next, a) ensures Anchored(next, next.applications[a].job) {
      if IsHired(db, a) && next.applications[a] == db.applications[a] {
        assert Anchored(db, db.applications[a].job);
        if db.applications[a].job in db.paymentByJob {
          PaidIsIndexed(db, next, db.applications[a].job);
        }
      }
    }
    forall j | j in next.jobs && next.jobs[j].status == Settled ensures j in next.paymentByJob {
      PaidIsIndexed(db, next, j);
    }
  }

  lemma AdvanceHoldsAnchors(db: Db, next: Db)
    requires JobsAdvance(db, next)
    ensures AnchorsHold(db, next)
  {
  }

  lemma DeleteHoldsAnchors(db: Db, j: JobId)
    ensures AnchorsHold(db, DeleteJob(db, j).0)
  {
  }

  lemma ModerationHoldsAnchors(db: Db, j: JobId, status: JobStatus)
    requires HiresAnchored(db)
    ensures AnchorsHold(db, Moderate(db, j, status).0)
  {
  }

  lemma RecruitHoldsAnchors(db: Db, s: RecruitStep)
    ensures AnchorsHold(db, NextRecruit(db, s))
  {
    RecruitHires(db, s);
    if Hires(db, NextRecruit(db, s), s.application) {
      HireHoldsAnchors(db, NextRecruit(db, s), s.application);
    } else {
      UnhiredHoldsAnchors(db, NextRecruit(db, s), s.application);
    }
  }

  lemma HireHoldsAnchors(db: Db, next: Db, a: ApplicationId)
    requires Hires(db, next, a)
    ensures AnchorsHold(db, next)
  {
  }

  lemma UnhiredHoldsAnchors(db: Db, next: Db, a: ApplicationId)
    requires Unhired(db, next, a)
    ensures AnchorsHold(db, next)
  {
  }

  lemma BoardHoldsAnchors(db: Db, s: BoardStep)
    requires HiresAnchored(db)
    ensures AnchorsHold(db, NextBoard(db, s))
  {
    match s {
      case DeleteJobStep(j) => DeleteHoldsAnchors(db, j);
      case ModerateStep(j, status) => ModerationHoldsAnchors(db, j, status);
      case _ => BoardAdvances(db, s); AdvanceHoldsAnchors(db, NextBoard(db, s));
    }
  }

  lemma NextKeepsAnchors(w: World, s: Step)
    requires WorldOk(w) && HiresAnchored(w.db)
    ensures HiresAnchored(Next(w, s).db)
  {
    if Enabled(w, s) {
      match s {
        case Board(b) => BoardHoldsAnchors(w.db, b);
        case Recruit(r) => RecruitHoldsAnchors(w.db, r);
        case Pay(m) => PayAdvances(w.db, m); AdvanceHoldsAnchors(w.db, NextPay(w.db, m));
        case Work(k) => WorkAdvances(w.db, k); AdvanceHoldsAnchors(w.db, NextWork(w.db, k));
      }
      NextGrows(w.db, s);
      NextKeepsCore(w, s);
      AnchorsKept(w.db, NextDb(w.db, s));
    }
  }

  lemma {:induction false} ReachableIsAnchored(steps: seq<Step>)
    ensures HiresAnchored(Run(INITIAL, steps).db)
  {
    if steps != [] {
      ReachableIsAnchored(steps[..|steps|-1]);
      ReachableWorldOk(steps[..|steps|-1]);
      NextKeepsAnchors(Run(INITIAL, steps[..|steps|-1]), steps[|steps|-1]);
    }
  }

  lemma NextKeepsHire(w: World, s: Step, a: ApplicationId)
    requires HiresAnchored(w.db) && IsHired(w.db, a)
    ensures Get(Next(w, s).db.applications, a) == Some(w.db.applications[a])
  {
    assert Anchored(w.db, w.db.applications[a].job);
    NextAdvances(w, s);
    match s {
      case Board(b) => BoardKeepsApplications(w.db, b);
      case Recruit(r) => RecruitAdvances(w.db, r);
      case Pay(m) => PayAdvances(w.db, m);
      case Work(k) => WorkAdvances(w.db, k);
    }
  }

  /** A hire made in any run is for good: the accepted application is the same at the end of every continuation,
      moderated or not. */
  lemma {:induction false} HireIsForGood(steps: seq<Step>, more: seq<Step>, a: ApplicationId)
    requires IsHired(Run(INITIAL, steps).db, a)
    ensures Get(Run(INITIAL, steps + more).db.applications, a) == Some(Run(INITIAL, steps).db.applications[a])
  {
    if more == [] {
      assert steps + more == steps;
    } else {
      var front := more[..|more|-1];
      HireIsForGood(steps, front, a);
      ReachableIsAnchored(steps + front);
      NextKeepsHire(Run(INITIAL, steps + front), more[|more|-1], a);
      assert (steps + more)[..|steps + more|-1] == steps + front;
    }
  }

  // ---------- the provider ----------

  ghost predicate AlwaysHiredOk(steps: seq<Step>) {
    forall i {:trigger steps[..i]} :: 0 <= i <= |steps| ==> HiredOk(Run(INITIAL, steps[..i]).db)
  }

  predicate NoHireModerated(steps: seq<Step>) {
    forall i {:trigger steps[i]} :: 0 <= i < |steps| ==> !ModeratesHired(Run(INITIAL, steps[..i]).db, steps[i])
  }

  lemma NobodyHired(db: Db)
    requires db.applications == map[]
    ensures HiredOk(db)
  {
    assert forall a :: !IsHired(db, a);
    assert Single(db);
  }

  /** All along a run every hired candidate is the provider of the job, which is past publication, if and only if no
      step of the run moderates a settled job for which somebody is hired. */
  lemma HiredIsProviderIff(steps: seq<Step>)
    ensures AlwaysHiredOk(steps) <==> NoHireModerated(steps)
  {
    var holds := (i: nat) => i <= |steps| && HiredOk(Run(INITIAL, steps[..i]).db);
    var good := (i: nat) => i < |steps| && !ModeratesHired(Run(INITIAL, steps[..i]).db, steps[i]);
    assert holds(0) by {
      assert steps[..0] == [];
      NobodyHired(INITIAL.db);
    }
    forall i: nat | i < |steps| && holds(i) ensures holds(i + 1) <==> good(i) {
      RunPrefix(steps, i);
      NextHiredIff(Run(INITIAL, steps[..i]), steps[i]);
    }
    AllAlongIff(holds, good, |steps|);
    assert forall i: nat :: i <= |steps| ==> (holds(i) <==> HiredOk(Run(INITIAL, steps[..i]).db));
    assert forall i: nat :: i < |steps| ==> (good(i) <==> !ModeratesHired(Run(INITIAL, steps[..i]).db, steps[i]));
  }

  /** So the hired candidate is the provider through funding, delivery, refund and settlement. */
  lemma HiredIsProvider(steps: seq<Step>, a: ApplicationId)
    requires NoHireModerated(steps) && IsHired(Run(INITIAL, steps).db, a)
    ensures HireFits(Run(INITIAL, steps).db, a)
  {
    HiredIsProviderIff(steps);
    assert steps[..|steps|] == steps;
  }

  /** Invitations, offers and hires are the owner's, withdrawals the candidate's: anybody else's request changes
      nothing. */
  lemma OnlyThePartiesMove(db: Db, s: RecruitStep)
    requires match s
             case Withdraw(a, candidate) => !(a in db.applications && db.applications[a].candidate == candidate)
             case Invite(a, owner, j) => !Owns(db, a, owner, j)
             case MakeOffer(a, owner, j) => !Owns(db, a, owner, j)
             case Hire(a, owner, j) => !Owns(db, a, owner, j)
             case _ => false
    ensures NextRecruit(db, s) == db
  {
  }

  predicate Owns(db: Db, a: ApplicationId, owner: UserId, j: JobId) {
    a in db.applications && db.applications[a].job == j && j in db.jobs && db.jobs[j].owner == owner
    && db.jobs[j].kind == Salaried
  }
}
