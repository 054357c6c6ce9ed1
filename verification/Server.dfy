/** The running system: one repository, the requests that reach it and a worker. A ghost history ties its tables to a
    run of the protocol, so every theorem about runs is one about these tables. */
module Server {
  import opened Options
  import opened Schema
  import opened Transactions
  import opened Protocol
  import opened Ledger
  import opened Safety
  import opened Repository
  import opened Worker

  class Server {
    const repo: Repository
    ghost var history: seq<Step>

    ghost predicate Valid()
      reads this, repo
    {
      repo.Tables() == Run(INITIAL, history).db
    }

    constructor ()
      ensures Valid() && history == [] && fresh(repo)
    {
      repo := new Repository();
      history := [];
    }

    /** A request or a webhook. For a refund webhook the repository picks the row; the others need a reference. */
    method Handle(s: PayStep) returns (ghost done: PayStep)
      requires Valid()
      modifies this, repo
      ensures Valid() && history == old(history) + [Pay(done)]
      ensures done == s || (s.Webhook? && done.Webhook? && done == s.(row := done.row))
      ensures forall journal: nat :: JournalNet(repo.ledger, journal) == 0
    {
      if s.Webhook? {
        done := Receive(s);
      } else {
        Request(s);
        done := s;
      }
      Record(Pay(done));
    }

    method Request(s: PayStep)
      requires !s.Webhook?
      modifies repo
      ensures repo.Tables() == NextPay(old(repo.Tables()), s)
    {
      match s {
        case Fund(j, payer, payee, chosen, amount, p, key, currency, now) =>
          var _ := repo.FundJobAtomic(j, payer, payee, chosen, amount, p, key, currency, now);
        case Accept(j) =>
          var _ := repo.TransitionJobWithPayment(j);
        case RequestRefund(j, p, owner, amount, r, key, now) =>
          var _ := repo.CreateRefundAtomic(j, p, owner, amount, r, key, now);
        case RequestRelease(j, owner, p, now) =>
          var _ := repo.EnqueuePaymentRelease(j, owner, p, now);
      }
    }

    method Receive(s: PayStep) returns (ghost done: PayStep)
      requires s.Webhook?
      modifies repo
      ensures repo.Tables() == NextPay(old(repo.Tables()), done)
      ensures done == s || (done.Webhook? && done == s.(row := done.row))
    {
      done := s;
      if s.kind == PaymentRefunded || s.ref != NoRef {
        var _, row := repo.ApplyPaymentWebhookAtomic(s.id, s.kind, s.payment, s.ref);
        done := s.(row := row);
      }
    }

    /** The step has been taken by the repository; it becomes history. */
    ghost method Record(s: Step)
      requires repo.Tables() == Next(Run(INITIAL, history), s).db
      modifies this
      ensures history == old(history) + [s] && Valid()
      ensures forall journal: nat :: JournalNet(repo.ledger, journal) == 0
    {
      history := history + [s];
      assert history[..|history|-1] == old(history);
      forall journal: nat ensures JournalNet(repo.ledger, journal) == 0 {
        EveryJournalBalances(history, journal);
      }
    }

    /** One worker pass: at most a claim, a provider call, and a commit or a failure report. */
    method Work(answer: Answer, maxAttempts: nat, lease: nat, now: int, jitter: nat) returns (claimed: Option<EventKey>)
      requires Valid()
      modifies this, repo
      ensures Valid()
      ensures claimed.None? ==> history == old(history)
      ensures claimed.Some? ==> |history| == |old(history)| + 3 && history[..|old(history)|] == old(history)
      ensures forall journal: nat :: JournalNet(repo.ledger, journal) == 0
    {
      ghost var w := Run(INITIAL, history);
      claimed := ProcessOne(repo, answer, maxAttempts, lease, now, jitter);
      if claimed.Some? {
        ghost var k := claimed.value;
        ghost var t := Ticket(k, w.db.nextId, w.db.outbox[k].payload);
        ghost var claim := [Step.Work(ClaimStep(k, now, lease))];
        ghost var rest := WorkerSteps(Claim(w.db, k, now), t, answer, maxAttempts, now, jitter);
        ghost var mid := Next(w, claim[0]);
        assert Run(w, claim) == mid by { assert claim[..0] == []; }
        WorkerTakesProtocolSteps(mid, t, answer, maxAttempts, now, jitter);
        RunConcat(w, claim, rest);
        RunConcat(INITIAL, history, claim + rest);
        history := history + (claim + rest);
      }
      forall journal: nat ensures JournalNet(repo.ledger, journal) == 0 {
        EveryJournalBalances(history, journal);
      }
    }
  }
}
