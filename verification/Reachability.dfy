/** The invariant of whole runs: what holds in the empty database and is kept by every step holds after any run. */
module Reachability {
  import opened Options
  import opened Schema
  import opened Transactions
  import opened Protocol
  import opened Outcomes
  import opened Invariant
  import opened Preservation
  import opened Evolution

  predicate TicketsOk(w: World) {
    forall t :: t in w.tickets ==>
        t.event in w.db.outbox && w.db.outbox[t.event].payload == t.payload && t.token < w.db.nextId
  }

  function KeyOfCall(c: Call): EventKey {
    match c
    case HoldCall(p, _, _, _) => EventKey(CreateHold, p)
    case ReleaseCall(p, _, _) => EventKey(Release, p)
    case RefundCall(p, _, _) => EventKey(Refund, p)
  }

  /** Every call made so far is the one its event prescribes. */
  predicate CallsOk(w: World) {
    forall i :: 0 <= i < |w.calls| ==>
      KeyOfCall(w.calls[i]) in w.db.outbox && w.calls[i] == CallOf(w.db.outbox[KeyOfCall(w.calls[i])].payload)
  }

  ghost predicate WorldOk(w: World) { Core(w.db) && TicketsOk(w) && CallsOk(w) }

  lemma BoardKeepsJobs(db: Db, s: BoardStep)
    ensures forall j :: j in db.paymentByJob && j in db.jobs ==> j in NextBoard(db, s).jobs
  {
  }

  lemma RecruitKeepsJobs(db: Db, s: RecruitStep)
    ensures forall j :: j in db.jobs ==> j in NextRecruit(db, s).jobs
  {
  }

  lemma FundStepKeepsCore(db: Db, s: PayStep)
    requires Core(db) && s.Fund?
    ensures Core(NextPay(db, s))
  {
    FundCommits(db, s.job, s.payer, s.payee, s.chosen, s.amount, s.payment, s.key, s.currency, s.now);
    if NextPay(db, s) != db {
      FundKeepsCore(db, NextPay(db, s), s.job, s.payer, s.payee, s.chosen, s.amount, s.payment, s.key, s.currency,
                    s.now);
    }
  }

  lemma WebhookStepKeepsCore(db: Db, s: PayStep)
    requires Core(db) && s.Webhook?
    ensures Core(NextPay(db, s))
  {
    if !Impossible(db, s) {
      WebhookCommits(db, s.id, s.kind, s.payment, s.ref, s.row);
      if NextPay(db, s) != db {
        WebhookKeepsCore(db, NextPay(db, s), s.id, s.payment, s.ref, s.row);
      }
    }
  }

  lemma RequestStepKeepsCore(db: Db, s: PayStep)
    requires Core(db) && (s.Accept? || s.RequestRefund? || s.RequestRelease?)
    ensures Core(NextPay(db, s))
  {
    if NextPay(db, s) != db {
      match s {
        case Accept(j) => CompleteJobKeepsCore(db, j, db.paymentByJob[j]);
        case RequestRefund(j, p, owner, amount, r, key, now) => RequestKeepsCore(db, j, p, owner, r, key, now);
        case RequestRelease(j, owner, p, now) => QueueReleaseKeepsCore(db, j, owner, p, now);
      }
    }
  }

  lemma PayKeepsCore(db: Db, s: PayStep)
    requires Core(db)
    ensures Core(NextPay(db, s))
  {
    match s {
      case Fund(_, _, _, _, _, _, _, _, _) => FundStepKeepsCore(db, s);
      case Webhook(_, _, _, _, _) => WebhookStepKeepsCore(db, s);
      case _ => RequestStepKeepsCore(db, s);
    }
  }

  /** The payload of an event names its payment and fits its kind. */
  lemma PayloadFitsKey(db: Db, k: EventKey)
    requires Core(db) && k in db.outbox
    ensures match db.outbox[k].payload
            case HoldPayload(_, _, p, _, _, _, _) => k == EventKey(CreateHold, p)
            case ReleasePayload(_, _, p, _, _) => k == EventKey(Release, p)
            case RefundPayload(_, _, p, _, _, _) => k == EventKey(Refund, p)
  {
    ViewAt(db, k.payment);
    EventInView(db, k);
  }

  lemma CompleteKeepsCore(db: Db, t: Ticket, ref: Ref)
    requires Core(db) && t.event in db.outbox && t.payload == db.outbox[t.event].payload
    ensures Core(CompleteTicket(db, t, ref).0)
  {
    var next := CompleteTicket(db, t, ref).0;
    TicketCommits(db, t, ref);
    if next != db {
      TicketKeepsCore(db, next, t, ref);
    }
  }

  lemma TicketKeepsCore(db: Db, next: Db, t: Ticket, ref: Ref)
    requires Core(db) && t.event in db.outbox && t.payload == db.outbox[t.event].payload
             && TicketCommit(db, next, t, ref)
    ensures Core(next)
  {
    PayloadFitsKey(db, t.event);
    match t.payload {
      case HoldPayload(_, _, p, _, _, _, _) => CompleteHoldKeepsCore(db, next, p, ref);
      case ReleasePayload(_, _, p, _, _) => CompleteReleaseKeepsCore(db, next, p);
      case RefundPayload(_, _, p, r, _, _) => CompleteRefundKeepsCore(db, next, p, r, ref);
    }
  }

  lemma FailKeepsCore(db: Db, k: EventKey, token: nat, maxAttempts: nat, now: int, jitter: nat)
    requires Core(db)
    ensures Core(FailEvent(db, k, Some(token), maxAttempts, now, jitter).0)
  {
    if FailReply(db, k, Some(token), maxAttempts) in {RetryLater, Terminal} {
      FailWithKeepsCore(db, k, AfterFailure(db.outbox[k], maxAttempts, now, jitter));
    }
  }

  lemma WorkKeepsCore(w: World, s: WorkStep)
    requires WorldOk(w) && Enabled(w, Work(s))
    ensures Core(NextWork(w.db, s))
  {
    match s {
      case ClaimStep(k, now, _) => ClaimKeepsCore(w.db, k, now);
      case CallProvider(_) =>
      case Complete(t, ref) => CompleteKeepsCore(w.db, t, ref);
      case Fail(t, maxAttempts, now, jitter) => FailKeepsCore(w.db, t.event, t.token, maxAttempts, now, jitter);
    }
  }

  lemma NextKeepsCore(w: World, s: Step)
    requires WorldOk(w) && Enabled(w, s)
    ensures Core(NextDb(w.db, s))
  {
    match s {
      case Board(b) => BoardBystands(w.db, b); BoardKeepsJobs(w.db, b); BystanderStep(w.db, NextBoard(w.db, b));
      case Recruit(r) => RecruitBystands(w.db, r); RecruitKeepsJobs(w.db, r); BystanderStep(w.db, NextRecruit(w.db, r));
      case Pay(m) => PayKeepsCore(w.db, m);
      case Work(k) => WorkKeepsCore(w, k);
    }
  }

  lemma NextKeepsTickets(w: World, s: Step)
    requires WorldOk(w) && Enabled(w, s) && Grows(w.db, NextDb(w.db, s))
    ensures TicketsOk(Next(w, s))
  {
    var next := Next(w, s);
    forall t | t in next.tickets
      ensures t.event in next.db.outbox && next.db.outbox[t.event].payload == t.payload && t.token < next.db.nextId {
      if t !in w.tickets {
        assert next.db == Claim(w.db, s.work.event, s.work.now);
      }
    }
  }

  lemma NextKeepsCalls(w: World, s: Step)
    requires WorldOk(w) && Enabled(w, s) && Grows(w.db, NextDb(w.db, s))
    ensures CallsOk(Next(w, s))
  {
    if s.Work? && s.work.CallProvider? {
      NewCallOk(w, s.work.ticket);
    } else {
      assert Next(w, s).calls == w.calls;
    }
  }

  lemma NewCallOk(w: World, t: Ticket)
    requires WorldOk(w) && t in w.tickets
    ensures CallsOk(Next(w, Work(CallProvider(t))))
  {
    PayloadFitsKey(w.db, t.event);
  }

  lemma NextKeepsWorld(w: World, s: Step)
    requires WorldOk(w)
    ensures WorldOk(Next(w, s))
  {
    if Enabled(w, s) {
      NextGrows(w.db, s);
      NextKeepsCore(w, s);
      NextKeepsTickets(w, s);
      NextKeepsCalls(w, s);
    }
  }

  lemma {:induction false} RunKeepsWorld(w: World, steps: seq<Step>)
    requires WorldOk(w)
    ensures WorldOk(Run(w, steps))
  {
    if steps != [] {
      RunKeepsWorld(w, steps[..|steps|-1]);
      NextKeepsWorld(Run(w, steps[..|steps|-1]), steps[|steps|-1]);
    }
  }

  /** Every run of every interleaving keeps the joint invariant of payments, refunds, settlements, outbox and ledger. */
  lemma ReachableWorldOk(steps: seq<Step>)
    ensures WorldOk(Run(INITIAL, steps))
  {
    assert WorldOk(INITIAL);
    RunKeepsWorld(INITIAL, steps);
  }
}
