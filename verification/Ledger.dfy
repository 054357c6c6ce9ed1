/** Reading the ledger table: the rows of one payment, the balance of an account, the net of a journal. */
module Ledger {
  import opened Money
  import opened Schema

  function EntriesOf(ledger: seq<Entry>, p: PaymentId): seq<Entry> {
    if ledger == [] then []
    else
      var last := ledger[|ledger|-1];
      EntriesOf(ledger[..|ledger|-1], p) + (if last.payment == p then [last] else [])
  }

  /** Debits minus credits of one account over a list of rows. */
  function Balance(rows: seq<Entry>, account: Account): int {
    if rows == [] then 0
    else
      var line := rows[|rows|-1].line;
      Balance(rows[..|rows|-1], account) + (if line.account == account then line.debit - line.credit else 0)
  }

  /** What hope_assert_ledger_journal_balanced computes for a journal id. */
  function JournalNet(ledger: seq<Entry>, journal: nat): int {
    if ledger == [] then 0
    else
      var last := ledger[|ledger|-1];
      JournalNet(ledger[..|ledger|-1], journal)
        + (if last.journal == journal then last.line.debit - last.line.credit else 0)
  }

  lemma {:induction false} EntriesOfAppend(a: seq<Entry>, b: seq<Entry>, p: PaymentId)
    ensures EntriesOf(a + b, p) == EntriesOf(a, p) + EntriesOf(b, p)
  {
    if b == [] {
      assert a + b == a;
    } else {
      EntriesOfAppend(a, b[..|b|-1], p);
      assert (a + b)[..|a + b|-1] == a + b[..|b|-1];
    }
  }

  lemma {:induction false} EntriesOfOwn(rows: seq<Entry>, p: PaymentId)
    requires forall i :: 0 <= i < |rows| ==> rows[i].payment == p
    ensures EntriesOf(rows, p) == rows
  {
    if rows != [] {
      EntriesOfOwn(rows[..|rows|-1], p);
    }
  }

  lemma {:induction false} EntriesOfOther(rows: seq<Entry>, p: PaymentId)
    requires forall i :: 0 <= i < |rows| ==> rows[i].payment != p
    ensures EntriesOf(rows, p) == []
  {
    if rows != [] {
      EntriesOfOther(rows[..|rows|-1], p);
    }
  }

  lemma {:induction false} BalanceAppend(a: seq<Entry>, b: seq<Entry>, account: Account)
    ensures Balance(a + b, account) == Balance(a, account) + Balance(b, account)
  {
    if b == [] {
      assert a + b == a;
    } else {
      BalanceAppend(a, b[..|b|-1], account);
      assert (a + b)[..|a + b|-1] == a + b[..|b|-1];
    }
  }

  lemma {:induction false} JournalNetAppend(a: seq<Entry>, b: seq<Entry>, journal: nat)
    ensures JournalNet(a + b, journal) == JournalNet(a, journal) + JournalNet(b, journal)
  {
    if b == [] {
      assert a + b == a;
    } else {
      JournalNetAppend(a, b[..|b|-1], journal);
      assert (a + b)[..|a + b|-1] == a + b[..|b|-1];
    }
  }

  lemma {:induction false} JournalNetOfRows(journal: nat, reference: Reference, p: PaymentId, lines: seq<Line>,
      other: nat)
    ensures JournalNet(Rows(journal, reference, p, lines), other) == if other == journal then Net(lines) else 0
  {
    var rows := Rows(journal, reference, p, lines);
    if lines != [] {
      JournalNetOfRows(journal, reference, p, lines[..|lines|-1], other);
      assert rows[..|rows|-1] == Rows(journal, reference, p, lines[..|lines|-1]);
    }
  }

  ghost predicate JournalsBalanced(ledger: seq<Entry>) {
    forall journal: nat :: JournalNet(ledger, journal) == 0
  }

  /** A posted journal leaves every journal of the table balanced. */
  lemma PostKeepsBalance(db: Db, reference: Reference, p: PaymentId, lines: seq<Line>)
    requires JournalsBalanced(db.ledger) && Net(lines) == 0
    ensures JournalsBalanced(Post(db, reference, p, lines).ledger)
  {
    forall journal: nat ensures JournalNet(Post(db, reference, p, lines).ledger, journal) == 0 {
      JournalNetAppend(db.ledger, Rows(db.nextId, reference, p, lines), journal);
      JournalNetOfRows(db.nextId, reference, p, lines, journal);
    }
  }

  /** A posted journal appends its rows to those of its payment and to nobody else's. */
  lemma PostEntries(db: Db, reference: Reference, p: PaymentId, lines: seq<Line>)
    ensures EntriesOf(Post(db, reference, p, lines).ledger, p)
            == EntriesOf(db.ledger, p) + Rows(db.nextId, reference, p, lines)
  {
    var rows := Rows(db.nextId, reference, p, lines);
    EntriesOfAppend(db.ledger, rows, p);
    EntriesOfOwn(rows, p);
  }
}
