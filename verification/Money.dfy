/** Fee arithmetic in integer cents and the four journals (backend/src/financial.js). */
module Money {
  import opened Options

  const MAX_CENTS: nat := 100_000_000_000

  datatype Kind = Mission | Salaried

  datatype Account = PlatformCash | EscrowLiability | UserPayable | PlatformFeeRevenue

  /** One side of a journal: exactly one of the two amounts is meant to be positive. */
  datatype Line = Line(account: Account, debit: nat, credit: nat)

  datatype Fees = Fees(base: nat, employerFee: nat, workerFee: nat, platformFee: nat, charge: nat, payout: nat)

  // ---------- rounding and the breakdown ----------

  /** Math.round of the non-negative rational num / den: the floor of the quotient plus one half. */
  function RoundRatio(num: nat, den: nat): (r: nat)
    requires den > 0
    ensures 2 * num - den < 2 * den * r <= 2 * num + den
  {
    var r := (2 * num + den) / (2 * den);
    assert 2 * num + den == (2 * den) * r + (2 * num + den) % (2 * den);
    assert 2 * den * r == (2 * den) * r;
    r
  }

  function EmployerRate(kind: Kind): nat { if kind.Mission? then 10 else 30 }

  function WorkerRate(kind: Kind): nat { if kind.Mission? then 10 else 0 }

  predicate ValidCents(cents: int) { 0 < cents <= MAX_CENTS }

  function Breakdown(kind: Kind, base: nat): (f: Fees)
    ensures f.charge == f.payout + f.platformFee
    ensures base > 0 ==> 1 <= f.payout <= base <= f.charge
  {
    var employerFee := RoundRatio(base * EmployerRate(kind), 100);
    var workerFee := RoundRatio(base * WorkerRate(kind), 100);
    Fees(base, employerFee, workerFee, employerFee + workerFee, base + employerFee, base - workerFee)
  }

  /** n tenths, rounded to the nearest whole, and up at a half. */
  function NearestTenth(n: nat): nat { n / 10 + (if n % 10 >= 5 then 1 else 0) }

  lemma RoundHundredths(n: nat)
    ensures RoundRatio(n * 10, 100) == NearestTenth(n)
  {
    var r := RoundRatio(n * 10, 100);
    assert 200 * r == 2 * 100 * r;
  }

  /** Who pays what. For a mission owner and worker pay ten per cent each, to the nearest cent and up at half a cent;
      for a job the owner pays thirty per cent and the worker nothing. The platform keeps what the two sides pay. */
  lemma FeesAreExact(kind: Kind, base: nat)
    ensures var f := Breakdown(kind, base);
            && f.base == base && f.employerFee == f.charge - base && f.workerFee == base - f.payout
            && f.platformFee == f.charge - f.payout
            && match kind
               case Mission => f.charge == base + NearestTenth(base) && f.payout == base - NearestTenth(base)
               case Salaried => f.charge == base + NearestTenth(3 * base) && f.payout == base
    ensures base > 0 ==> 1 <= Breakdown(kind, base).payout <= base <= Breakdown(kind, base).charge
  {
    RoundHundredths(base);
    RoundHundredths(3 * base);
    RoundHundredths(0);
    assert base * 30 == (3 * base) * 10 && base * 0 == 0 * 10;
  }

  // ---------- journals ----------

  function FundingLines(f: Fees): seq<Line> {
    [Line(PlatformCash, f.charge, 0), Line(EscrowLiability, 0, f.payout), Line(PlatformFeeRevenue, 0, f.platformFee)]
  }

  function ReleaseLines(f: Fees): seq<Line> {
    [Line(EscrowLiability, f.payout, 0), Line(UserPayable, 0, f.payout)]
  }

  function PayoutLines(f: Fees): seq<Line> {
    [Line(UserPayable, f.payout, 0), Line(PlatformCash, 0, f.payout)]
  }

  function RefundLines(f: Fees): seq<Line> {
    [Line(EscrowLiability, f.payout, 0), Line(PlatformFeeRevenue, f.platformFee, 0), Line(PlatformCash, 0, f.charge)]
  }

  function Net(lines: seq<Line>): int {
    if lines == [] then 0 else Net(lines[..|lines|-1]) + lines[|lines|-1].debit - lines[|lines|-1].credit
  }

  /** The column check of ledger_entries: one side is zero and the other positive. */
  predicate OneSided(line: Line) {
    (line.debit == 0 && line.credit > 0) || (line.credit == 0 && line.debit > 0)
  }

  /** A journal the database accepts: balanced, and every row one-sided. */
  predicate Postable(lines: seq<Line>) {
    Net(lines) == 0 && forall i :: 0 <= i < |lines| ==> OneSided(lines[i])
  }

  /** One row that is not one-sided, wherever it stands, and the journal is refused. */
  lemma OneBadRow(lines: seq<Line>, i: nat)
    requires i < |lines| && (lines[i].debit == 0 <==> lines[i].credit == 0)
    ensures !Postable(lines)
  {
    assert !OneSided(lines[i]);
  }

  function SmallestPostable(kind: Kind): nat { if kind.Mission? then 5 else 2 }

  lemma NetOfTwo(a: Line, b: Line)
    ensures Net([a, b]) == a.debit - a.credit + b.debit - b.credit
  {
    assert [a, b][..1] == [a] && [a][..0] == [];
    assert Net([a]) == Net([]) + a.debit - a.credit;
  }

  lemma NetOfThree(a: Line, b: Line, c: Line)
    ensures Net([a, b, c]) == a.debit - a.credit + b.debit - b.credit + c.debit - c.credit
  {
    assert [a, b, c][..2] == [a, b];
    NetOfTwo(a, b);
  }

  lemma JournalsBalance(f: Fees)
    requires f.charge == f.payout + f.platformFee
    ensures Net(FundingLines(f)) == Net(ReleaseLines(f)) == Net(PayoutLines(f)) == Net(RefundLines(f)) == 0
  {
    NetOfThree(FundingLines(f)[0], FundingLines(f)[1], FundingLines(f)[2]);
    NetOfTwo(ReleaseLines(f)[0], ReleaseLines(f)[1]);
    NetOfTwo(PayoutLines(f)[0], PayoutLines(f)[1]);
    NetOfThree(RefundLines(f)[0], RefundLines(f)[1], RefundLines(f)[2]);
  }

  lemma PlatformFeePositiveIff(kind: Kind, base: nat)
    ensures Breakdown(kind, base).platformFee > 0 <==> base >= SmallestPostable(kind)
  {
    var e := RoundRatio(base * EmployerRate(kind), 100);
    assert 200 * e == 2 * 100 * e;
    if kind.Mission? {
      assert e == RoundRatio(base * WorkerRate(kind), 100);
    }
  }

  /** The ledger table takes the funding journal of an amount exactly from 5 cents (mission) or 2 cents (job) on,
      and then it takes the other three journals of the same payment too. */
  lemma PostableIffLargeEnough(kind: Kind, base: nat)
    requires base > 0
    ensures var f := Breakdown(kind, base);
            && (Postable(FundingLines(f)) <==> base >= SmallestPostable(kind))
            && (Postable(FundingLines(f)) <==> Postable(RefundLines(f)))
            && Postable(ReleaseLines(f)) && Postable(PayoutLines(f))
  {
    var f := Breakdown(kind, base);
    JournalsBalance(f);
    PlatformFeePositiveIff(kind, base);
    assert FundingLines(f)[2].credit == f.platformFee == RefundLines(f)[1].debit;
  }

  /** assertBalanced: two sums accumulated entry by entry. */
  method AssertBalanced(entries: seq<Line>) returns (balanced: bool)
    ensures balanced <==> Net(entries) == 0
  {
    var debit, credit := 0, 0;
    for i := 0 to |entries|
      invariant debit - credit == Net(entries[..i])
    {
      assert entries[..i + 1][..i] == entries[..i];
      debit, credit := debit + entries[i].debit, credit + entries[i].credit;
    }
    assert entries[..|entries|] == entries;
    balanced := debit == credit;
  }

  // ---------- decimal text ----------

  predicate IsDigit(c: char) { '0' <= c <= '9' }

  predicate AllDigits(s: string) { forall i :: 0 <= i < |s| ==> IsDigit(s[i]) }

  function DigitValue(c: char): nat requires IsDigit(c) { c as int - '0' as int }

  function Digit(n: nat): (c: char)
    requires n < 10
    ensures IsDigit(c) && DigitValue(c) == n
  {
    ('0' as int + n) as char
  }

  function Number(s: string): nat
    requires AllDigits(s)
  {
    if s == "" then 0 else 10 * Number(s[..|s|-1]) + DigitValue(s[|s|-1])
  }

  function Decimal(n: nat): (s: string)
    ensures s != "" && AllDigits(s) && Number(s) == n
  {
    if n < 10 then var s := [Digit(n)]; assert s[..0] == ""; s
    else
      var front := Decimal(n / 10);
      var s := front + [Digit(n % 10)];
      assert s[..|s|-1] == front;
      s
  }

  /** The position of the first dot, or the length of the text. */
  function Dot(s: string): (i: nat)
    ensures i <= |s| && (i < |s| ==> s[i] == '.') && forall k :: 0 <= k < i ==> s[k] != '.'
  {
    if s == "" || s[0] == '.' then 0 else 1 + Dot(s[1..])
  }

  /** One or more digits, then optionally a dot with one or two digits: the shape both parsers insist on. */
  predicate WellFormed(raw: string) {
    var d := Dot(raw);
    d > 0 && AllDigits(raw[..d]) && (d == |raw| || (AllDigits(raw[d+1..]) && 1 <= |raw[d+1..]| <= 2))
  }

  function Fraction(raw: string): (s: string)
    requires WellFormed(raw)
    ensures |s| == 2 && AllDigits(s)
  {
    var d := Dot(raw);
    if d == |raw| then "00" else if |raw[d+1..]| == 1 then raw[d+1..] + "0" else raw[d+1..]
  }

  /** moneyToCents on trimmed text; None is INVALID_AMOUNT. */
  function MoneyToCents(raw: string): (r: Option<nat>)
    ensures r.Some? ==> ValidCents(r.value)
  {
    if !WellFormed(raw) then None else
      var cents := Number(raw[..Dot(raw)]) * 100 + Number(Fraction(raw));
      if ValidCents(cents) then Some(cents) else None
  }

  /** The text is an amount whose whole part ends at position i: digits, and then nothing, or a dot with one digit or
      two. */
  predicate IsAmount(raw: string, i: nat) {
    && 1 <= i <= |raw| && AllDigits(raw[..i])
    && (|raw| > i ==> raw[i] == '.' && (|raw| == i + 2 || |raw| == i + 3) && AllDigits(raw[i + 1..]))
  }

  /** The cents such a text stands for: a first digit after the dot counts ten, a second one counts one. */
  function Cents(raw: string, i: nat): nat
    requires IsAmount(raw, i)
  {
    100 * Number(raw[..i])
    + (if |raw| > i then 10 * DigitValue(raw[i + 1..][0]) else 0)
    + (if |raw| > i + 2 then DigitValue(raw[i + 1..][1]) else 0)
  }

  lemma DotOfAmount(raw: string, i: nat)
    requires IsAmount(raw, i)
    ensures Dot(raw) == i && WellFormed(raw)
  {
    assert raw[..i] + raw[i..] == raw;
    DotAfterDigits(raw[..i], raw[i..]);
  }

  lemma FractionOfAmount(raw: string, i: nat)
    requires IsAmount(raw, i)
    ensures WellFormed(raw) && Number(raw[..i]) * 100 + Number(Fraction(raw)) == Cents(raw, i)
  {
    DotOfAmount(raw, i);
    var f := Fraction(raw);
    assert f == [f[0], f[1]];
    NumberOfTwo(f[0], f[1]);
  }

  /** The parser takes exactly the texts of that shape that stand for one cent to a thousand million euros, and answers
      the cents they stand for. */
  lemma ParsesExactly(raw: string)
    ensures (forall i: nat :: !IsAmount(raw, i)) ==> MoneyToCents(raw) == None
    ensures forall i: nat :: IsAmount(raw, i) ==>
              MoneyToCents(raw) == if 1 <= Cents(raw, i) <= 100_000_000_000 then Some(Cents(raw, i)) else None
  {
    forall i: nat | IsAmount(raw, i)
      ensures MoneyToCents(raw) == if 1 <= Cents(raw, i) <= 100_000_000_000 then Some(Cents(raw, i)) else None {
      DotOfAmount(raw, i);
      FractionOfAmount(raw, i);
    }
    if WellFormed(raw) {
      assert IsAmount(raw, Dot(raw));
    }
  }

  /** The text of cents / 100 as a number prints it: trailing zeros of the fraction are dropped. */
  function Print(cents: nat): string {
    var whole := Decimal(cents / 100);
    var rest := cents % 100;
    if rest == 0 then whole
    else if rest % 10 == 0 then whole + "." + [Digit(rest / 10)]
    else whole + "." + [Digit(rest / 10), Digit(rest % 10)]
  }

  /** A number prints no zero at the end of its fraction, and a dot only before a fraction. */
  lemma PrintDropsZeros(cents: nat)
    ensures var text := Print(cents);
            && (Dot(text) == |text| <==> cents % 100 == 0)
            && (Dot(text) < |text| ==> text[|text| - 1] != '0')
  {
    FractionOfPrint(cents);
    var whole, rest := Decimal(cents / 100), cents % 100;
    if rest != 0 {
      assert Print(cents)[|Print(cents)| - 1] == if rest % 10 == 0 then Digit(rest / 10) else Digit(rest % 10);
    }
  }

  lemma DotAfterDigits(front: string, back: string)
    requires AllDigits(front) && (back == "" || back[0] == '.')
    ensures Dot(front + back) == |front|
  {
    var text := front + back;
    assert forall k :: 0 <= k < |front| ==> text[k] == front[k];
    assert back != "" ==> text[|front|] == '.';
  }

  lemma NumberOfTwo(a: char, b: char)
    requires IsDigit(a) && IsDigit(b)
    ensures Number([a, b]) == 10 * DigitValue(a) + DigitValue(b)
  {
    assert [a, b][..1] == [a] && [a][..0] == "";
    assert Number([a]) == 10 * Number("") + DigitValue(a);
  }

  lemma FractionOfPrint(cents: nat)
    ensures var text := Print(cents);
            var d := |Decimal(cents / 100)|;
            Dot(text) == d && text[..d] == Decimal(cents / 100) && WellFormed(text)
            && Number(Fraction(text)) == cents % 100
  {
    var whole, rest := Decimal(cents / 100), cents % 100;
    var text := Print(cents);
    var back := text[|whole|..];
    assert text == whole + back;
    DotAfterDigits(whole, back);
    if rest == 0 {
      NumberOfTwo('0', '0');
    } else {
      assert text[|whole| + 1..] == back[1..];
      NumberOfTwo(Digit(rest / 10), Digit(rest % 10));
      if rest % 10 == 0 {
        assert back[1..] == [Digit(rest / 10)];
        assert Fraction(text) == [Digit(rest / 10), '0'];
      } else {
        assert back[1..] == [Digit(rest / 10), Digit(rest % 10)];
      }
    }
  }

  /** Every amount the validation accepts survives being stored as a number and parsed again, to the cent. */
  lemma PrintThenParse(cents: nat)
    requires ValidCents(cents)
    ensures MoneyToCents(Print(cents)) == Some(cents)
  {
    FractionOfPrint(cents);
  }

  /** moneyField: accepts the same shape up to 1000000000, and what it accepts re-reads as the cents it was written
      with. */
  predicate MoneyFieldAccepts(raw: string) {
    WellFormed(raw) && 0 < Number(raw[..Dot(raw)]) * 100 + Number(Fraction(raw)) <= 1_000_000_000 * 100
  }

  lemma MoneyFieldRoundTrip(raw: string)
    ensures MoneyFieldAccepts(raw) <==> MoneyToCents(raw).Some?
    ensures MoneyFieldAccepts(raw) ==> MoneyToCents(Print(MoneyToCents(raw).value)) == MoneyToCents(raw)
  {
    if MoneyFieldAccepts(raw) {
      PrintThenParse(MoneyToCents(raw).value);
    }
  }
}
