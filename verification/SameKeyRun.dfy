/** A run in which two payers send the same idempotency key, and the provider is called under it for two payments. */
module SameKeyRun {
  import opened Options
  import opened Money
  import opened Schema
  import opened Transactions
  import opened Protocol
  import opened OtherKeyRun

  const KEY: Key := ClientKey(5)

  function HoldOf(j: JobId, payer: UserId, p: PaymentId): Payload {
    HoldPayload(j, payer, p, Breakdown(Mission, 1000).charge, 1000, 0, KEY)
  }

  /** Two published missions, of the owners 1 and 3. */
  const BOARD: Db := EMPTY.(jobs := map[1 := Job(1, None, Mission, Published), 2 := Job(3, None, Mission, Published)])
  const BOARD_RUN: seq<Step> := PUBLISHED_RUN + [Board(CreateJobStep(2, 3, Mission))] + [Board(Publish(2))]

  const FUND_ONE: PayStep := Fund(1, 1, 2, None, 1000, 7, KEY, 0, 0)
  const FUND_TWO: PayStep := Fund(2, 3, 4, None, 1000, 8, KEY, 0, 0)
  const FUNDED_ONE_RUN: seq<Step> := BOARD_RUN + [Pay(FUND_ONE)]
  const FUNDED_TWO_RUN: seq<Step> := FUNDED_ONE_RUN + [Pay(FUND_TWO)]

  const HOLD_ONE: EventKey := EventKey(CreateHold, 7)
  const HOLD_TWO: EventKey := EventKey(CreateHold, 8)
  const CLAIMED_ONE_RUN: seq<Step> := FUNDED_TWO_RUN + [Work(ClaimStep(HOLD_ONE, 0, 60))]
  const CLAIMED_TWO_RUN: seq<Step> := CLAIMED_ONE_RUN + [Work(ClaimStep(HOLD_TWO, 0, 60))]

  const TICKET_ONE: Ticket := Ticket(HOLD_ONE, 2, HoldOf(1, 1, 7))
  const TICKET_TWO: Ticket := Ticket(HOLD_TWO, 3, HoldOf(2, 3, 8))
  const CALLED_ONE_RUN: seq<Step> := CLAIMED_TWO_RUN + [Work(CallProvider(TICKET_ONE))]
  const SAME_KEY_RUN: seq<Step> := CALLED_ONE_RUN + [Work(CallProvider(TICKET_TWO))]

  lemma BoardRun()
    ensures Run(INITIAL, BOARD_RUN) == World(BOARD, {}, [], {})
  {
    var created := PUBLISHED_RUN + [Board(CreateJobStep(2, 3, Mission))];
    PublishedRun();
    RunStep(INITIAL, PUBLISHED_RUN, Board(CreateJobStep(2, 3, Mission)));
    RunStep(INITIAL, created, Board(Publish(2)));
    assert NextBoard(NextBoard(PUBLISHED, CreateJobStep(2, 3, Mission)), Publish(2)).jobs == BOARD.jobs;
  }

  /** A first funding under the key, in a database in which it is new for the payer. */
  lemma Funds(db: Db, j: JobId, payer: UserId, payee: UserId, p: PaymentId)
    requires j in db.jobs && db.jobs[j] == Job(payer, None, Mission, Published) && j !in db.paymentByJob
    requires (payer, KEY) !in db.paymentByKey && p !in db.payments && EventKey(CreateHold, p) !in db.outbox
    requires forall q :: q in db.payments ==> db.payments[q].ref != Placeholder(p)
    ensures NextPay(db, Fund(j, payer, payee, None, 1000, p, KEY, 0, 0))
            == InsertPayment(db, NewPayment(db.jobs[j], j, payer, payee, 1000, p, KEY, 0), p, None, 0)
  {
    PostableIffLargeEnough(Mission, 1000);
    assert FundReply(db, j, payer, payee, None, 1000, p, KEY) == Created;
  }

  /** The rows of a first funding that the second one meets. */
  lemma FundedRows(db: Db, j: JobId, payer: UserId, payee: UserId, p: PaymentId)
    requires j in db.jobs && db.jobs[j] == Job(payer, None, Mission, Published)
    ensures var next := InsertPayment(db, NewPayment(db.jobs[j], j, payer, payee, 1000, p, KEY, 0), p, None, 0);
            && next.jobs == db.jobs[j := Job(payer, Some(payee), Mission, Funded)]
            && next.paymentByJob == db.paymentByJob[j := p] && next.paymentByKey == db.paymentByKey[(payer, KEY) := p]
            && p in next.payments && next.payments[p].ref == Placeholder(p)
            && next.payments == db.payments[p := next.payments[p]]
            && next.outbox == db.outbox[EventKey(CreateHold, p) := NewEvent(HoldOf(j, payer, p), 0)]
            && next.nextId == db.nextId + 1
  {
  }

  lemma FundedOnce()
    ensures Run(INITIAL, FUNDED_ONE_RUN)
            == World(InsertPayment(BOARD, NewPayment(BOARD.jobs[1], 1, 1, 2, 1000, 7, KEY, 0), 7, None, 0), {}, [], {})
  {
    BoardRun();
    RunStep(INITIAL, BOARD_RUN, Pay(FUND_ONE));
    Funds(BOARD, 1, 1, 2, 7);
  }

  lemma FundedRun()
    ensures var w := Run(INITIAL, FUNDED_TWO_RUN);
            && w.tickets == {} && w.calls == [] && w.db.nextId == 2
            && w.db.outbox == map[HOLD_ONE := NewEvent(HoldOf(1, 1, 7), 0), HOLD_TWO := NewEvent(HoldOf(2, 3, 8), 0)]
  {
    FundedOnce();
    FundedRows(BOARD, 1, 1, 2, 7);
    var db := Run(INITIAL, FUNDED_ONE_RUN).db;
    RunStep(INITIAL, FUNDED_ONE_RUN, Pay(FUND_TWO));
    Funds(db, 2, 3, 4, 8);
    FundedRows(db, 2, 3, 4, 8);
  }

  lemma Claims(w: World)
    requires w.tickets == {} && w.calls == [] && w.db.nextId == 2
    requires w.db.outbox == map[HOLD_ONE := NewEvent(HoldOf(1, 1, 7), 0), HOLD_TWO := NewEvent(HoldOf(2, 3, 8), 0)]
    ensures var next := Next(Next(w, Work(ClaimStep(HOLD_ONE, 0, 60))), Work(ClaimStep(HOLD_TWO, 0, 60)));
            next.tickets == {TICKET_ONE, TICKET_TWO} && next.calls == []
  {
  }

  lemma ClaimedRun()
    ensures var w := Run(INITIAL, CLAIMED_TWO_RUN); w.tickets == {TICKET_ONE, TICKET_TWO} && w.calls == []
  {
    FundedRun();
    RunStep(INITIAL, FUNDED_TWO_RUN, Work(ClaimStep(HOLD_ONE, 0, 60)));
    RunStep(INITIAL, CLAIMED_ONE_RUN, Work(ClaimStep(HOLD_TWO, 0, 60)));
    Claims(Run(INITIAL, FUNDED_TWO_RUN));
  }

  lemma Calls(w: World)
    requires w.tickets == {TICKET_ONE, TICKET_TWO} && w.calls == []
    ensures Next(Next(w, Work(CallProvider(TICKET_ONE))), Work(CallProvider(TICKET_TWO))).calls
            == [HoldCall(7, Breakdown(Mission, 1000).charge, 0, KEY),
                HoldCall(8, Breakdown(Mission, 1000).charge, 0, KEY)]
  {
  }

  /** Two calls under one key, for two payments. */
  lemma TwoPaymentsOneKey()
    ensures Run(INITIAL, SAME_KEY_RUN).calls
            == [HoldCall(7, Breakdown(Mission, 1000).charge, 0, KEY),
                HoldCall(8, Breakdown(Mission, 1000).charge, 0, KEY)]
  {
    ClaimedRun();
    RunStep(INITIAL, CLAIMED_TWO_RUN, Work(CallProvider(TICKET_ONE)));
    RunStep(INITIAL, CALLED_ONE_RUN, Work(CallProvider(TICKET_TWO)));
    Calls(Run(INITIAL, CLAIMED_TWO_RUN));
  }
}
