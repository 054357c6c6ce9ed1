/** A run in which a job is funded, delivered, accepted and settled, and then moderated: its payment stays released, and
    the job is no longer in a state that a released payment allows. */
module ModerationRun {
  import opened Options
  import opened Money
  import opened Schema
  import opened Transactions
  import opened Protocol
  import opened Invariant
  import opened Preservation
  import opened Reachability
  import opened JobInvariant
  import opened OtherKeyRun

  /** The provider works, the owner accepts, and a webhook reports the release. */
  const READ_RUN: seq<Step> := HELD_RUN + [Board(StartRead(1))]
  const STARTED_RUN: seq<Step> := READ_RUN + [Board(StartWrite(1))]
  const DELIVERED_RUN: seq<Step> := STARTED_RUN + [Board(Deliver(1))]
  const ACCEPTED_RUN: seq<Step> := DELIVERED_RUN + [Pay(Accept(1))]
  const RELEASE: PayStep := Webhook(2, PaymentReleased, 7, Placeholder(7), 0)
  const SETTLED_RUN: seq<Step> := ACCEPTED_RUN + [Pay(RELEASE)]

  /** Job 1 and its payment 7 in the given states. */
  predicate At(db: Db, job: JobStatus, pay: PaymentStatus) {
    && db.jobs == map[1 := Job(1, Some(2), Mission, job)]
    && 7 in db.payments && db.payments[7].job == 1 && db.payments[7].status == pay
    && db.payments[7].ref == Placeholder(7)
    && FeesOk(db.payments[7].fees)
    && db.paymentByJob == map[1 := 7] && db.webhooks == {1} && db.settlements.Keys <= {7}
  }

  lemma HeldAt()
    ensures At(Run(INITIAL, HELD_RUN).db, Funded, Held)
  {
    var db := Run(INITIAL, HELD_RUN).db;
    HeldRun();
    ReachableWorldOk(HELD_RUN);
    ViewAt(db, 7);
    OnlyPayment(db);
  }

  lemma OnlyPayment(db: Db)
    requires Core(db) && Funded7(db, Held)
    ensures db.paymentByJob == map[1 := 7] && db.settlements.Keys <= {7}
  {
  }

  lemma StartRead1(w: World)
    requires At(w.db, Funded, Held)
    ensures Next(w, Board(StartRead(1))).db == w.db && 1 in Next(w, Board(StartRead(1))).startReads
  {
  }

  lemma StartWrite1(w: World)
    requires At(w.db, Funded, Held) && 1 in w.startReads
    ensures At(Next(w, Board(StartWrite(1))).db, InProgress, Held)
  {
  }

  lemma Deliver1(w: World)
    requires At(w.db, InProgress, Held)
    ensures At(Next(w, Board(Deliver(1))).db, Delivered, Held)
  {
  }

  lemma Accept1(w: World)
    requires At(w.db, Delivered, Held)
    ensures At(Next(w, Pay(Accept(1))).db, Completed, ReleasePending)
  {
    assert AcceptDeliveryReply(w.db, 1) == Updated;
  }

  /** The job is settled and its payment released. */
  predicate SettledAt(db: Db) {
    && db.jobs == map[1 := Job(1, Some(2), Mission, Settled)]
    && db.paymentByJob == map[1 := 7] && 7 in db.payments && db.payments[7].status == Released
  }

  lemma Release1(db: Db)
    requires At(db, Completed, ReleasePending)
    ensures SettledAt(NextPay(db, RELEASE))
  {
    FeesPostable(db.payments[7].fees);
    assert !SettlementRefTaken(db.settlements, Placeholder(7), 7);
    assert WebhookReply(db, 2, PaymentReleased, 7, Placeholder(7), 0) == Processed;
  }

  lemma DeliveredRun()
    ensures At(Run(INITIAL, DELIVERED_RUN).db, Delivered, Held)
  {
    HeldAt();
    RunStep(INITIAL, HELD_RUN, Board(StartRead(1)));
    StartRead1(Run(INITIAL, HELD_RUN));
    RunStep(INITIAL, READ_RUN, Board(StartWrite(1)));
    StartWrite1(Run(INITIAL, READ_RUN));
    RunStep(INITIAL, STARTED_RUN, Board(Deliver(1)));
    Deliver1(Run(INITIAL, STARTED_RUN));
  }

  lemma SettledRun()
    ensures SettledAt(Run(INITIAL, SETTLED_RUN).db)
  {
    DeliveredRun();
    RunStep(INITIAL, DELIVERED_RUN, Pay(Accept(1)));
    Accept1(Run(INITIAL, DELIVERED_RUN));
    RunStep(INITIAL, ACCEPTED_RUN, Pay(RELEASE));
    Release1(Run(INITIAL, ACCEPTED_RUN).db);
  }

  lemma Moderated(db: Db)
    requires SettledAt(db)
    ensures JobOk(db, 1)
    ensures var after := NextBoard(db, ModerateStep(1, Cancelled)); CancelledAfterRelease(after)
  {
  }

  /** A cancelled job with a released payment. */
  predicate CancelledAfterRelease(db: Db) {
    && 1 in db.jobs && db.jobs[1].status == Cancelled && 1 in db.paymentByJob && db.paymentByJob[1] == 7
    && 7 in db.payments && db.payments[7].status == Released && !JobOk(db, 1)
  }

  /** After nine steps the job is settled and its payment released, as they should be; moderation then cancels the
      job. */
  lemma SettledJobIsModerated()
    ensures SettledAt(Run(INITIAL, SETTLED_RUN).db) && JobOk(Run(INITIAL, SETTLED_RUN).db, 1)
    ensures CancelledAfterRelease(Run(INITIAL, SETTLED_RUN + [Board(ModerateStep(1, Cancelled))]).db)
  {
    SettledRun();
    Moderated(Run(INITIAL, SETTLED_RUN).db);
    RunStep(INITIAL, SETTLED_RUN, Board(ModerateStep(1, Cancelled)));
  }
}
