/** The retry delay of a failed event: bounded for every attempt and every jitter, and growing over the first seven
    attempts however the jitter falls. */
module Backoff {
  import opened Options
  import opened Money
  import opened Schema
  import opened Transactions

  const MAX_JITTER: nat := 0xffff

  /** The delay failOutboxEvent uses, with the default base of five seconds. */
  function Delay(attempts: nat, jitter: nat): nat { RetryDelay(attempts, 5, jitter) }

  function Shortest(attempts: nat): nat {
    match attempts
    case 0 => 4 case 1 => 4 case 2 => 8 case 3 => 15 case 4 => 30 case 5 => 60 case 6 => 120
    case _ => 225
  }

  function Longest(attempts: nat): nat {
    match attempts
    case 0 => 6 case 1 => 6 case 2 => 13 case 3 => 25 case 4 => 50 case 5 => 100 case 6 => 200
    case _ => 300
  }

  /** The delay before the jitter: five seconds, doubled with every attempt after the first, up to 300. */
  function Doubled(attempts: nat): nat {
    match attempts
    case 0 => 5 case 1 => 5 case 2 => 10 case 3 => 20 case 4 => 40 case 5 => 80 case 6 => 160
    case _ => 300
  }

  lemma {:induction false} CappedIs(attempts: nat)
    ensures Capped(attempts, 5) == Doubled(attempts)
  {
    if attempts > 1 {
      CappedIs(attempts - 1);
    }
  }

  /** Rounding a value between low and high, scaled by 262140, stays between their roundings. */
  lemma RoundedBetween(num: nat, low: nat, high: nat)
    requires 524280 * low - 262140 <= 2 * num < 524280 * high + 262140
    ensures low <= RoundRatio(num, 262140) <= high
  {
    var r := RoundRatio(num, 262140);
    assert 2 * 262140 * r == 524280 * r;
  }

  lemma ScaledBetween(capped: nat, jitter: nat)
    requires jitter <= MAX_JITTER
    ensures 196605 * capped <= capped * (196605 + 2 * jitter) <= 327675 * capped
  {
  }

  /** The exact range of the delay after each number of attempts. */
  lemma DelayRange(attempts: nat, jitter: nat)
    requires jitter <= MAX_JITTER
    ensures Shortest(attempts) <= Delay(attempts, jitter) <= Longest(attempts)
  {
    var capped := Capped(attempts, 5);
    CappedIs(attempts);
    ScaledBetween(capped, jitter);
    var high := if attempts > 6 then 375 else Longest(attempts);
    RoundedBetween(capped * (196605 + 2 * jitter), Shortest(attempts), high);
  }

  /** For every jitter the delay lies in [1, 300], is strictly longer after more attempts up to the seventh, and stays
      in [225, 300] from the seventh on. */
  lemma DelaysGrow(a: nat, b: nat, jitterA: nat, jitterB: nat)
    requires jitterA <= MAX_JITTER && jitterB <= MAX_JITTER && 1 <= a < b
    ensures 1 <= Delay(a, jitterA) <= 300 && 1 <= Delay(b, jitterB) <= 300
    ensures b <= 7 ==> Delay(a, jitterA) < Delay(b, jitterB)
    ensures 7 <= b ==> 225 <= Delay(b, jitterB) <= 300
  {
    DelayRange(a, jitterA);
    DelayRange(b, jitterB);
  }

  /** Both ends of every range are reached. */
  lemma DelayRangeIsTight(attempts: nat)
    ensures Delay(attempts, 0) == Shortest(attempts) && Delay(attempts, MAX_JITTER) == Longest(attempts)
  {
    CappedIs(attempts);
    var capped := Capped(attempts, 5);
    var low, high := capped * 196605, capped * 327675;
    RoundedBetween(low, Shortest(attempts), Shortest(attempts));
    RoundedBetween(high, if attempts > 6 then 375 else Longest(attempts), if attempts > 6 then 375
                         else Longest(attempts));
  }

  /** It is the doubled delay times 0.75 + jitter / 131070, to the nearest second and up at a half, and at most 300. */
  lemma DelayIsNearest(attempts: nat, jitter: nat)
    requires jitter <= MAX_JITTER
    ensures var exact := Doubled(attempts) * (196605 + 2 * jitter);
            var delay := Delay(attempts, jitter);
            if 2 * exact >= 599 * 262140 then delay == 300
            else 2 * exact - 262140 < 524280 * delay <= 2 * exact + 262140
  {
    CappedIs(attempts);
    var exact := Doubled(attempts) * (196605 + 2 * jitter);
    var rounded := RoundRatio(exact, 262140);
    assert 2 * 262140 * rounded == 524280 * rounded;
    ScaledBetween(Doubled(attempts), jitter);
  }

  /** A failed event that will be retried cannot be claimed before its shortest delay is over, and can be after its
      longest. */
  lemma RetryWaits(db: Db, k: EventKey, token: Option<nat>, maxAttempts: nat, now: int, jitter: nat, at: int,
      lease: nat)
    requires jitter <= MAX_JITTER && FailEvent(db, k, token, maxAttempts, now, jitter).1 == RetryLater
    ensures var next := FailEvent(db, k, token, maxAttempts, now, jitter).0;
            && k in next.outbox
            && (at < now + Shortest(db.outbox[k].attempts) ==> !Claimable(next.outbox[k], at, lease))
            && (at >= now + Longest(db.outbox[k].attempts) ==> Claimable(next.outbox[k], at, lease))
  {
    DelayRange(db.outbox[k].attempts, jitter);
    RetriedEvent(db, k, token, maxAttempts, now, jitter);
  }

  lemma RetriedEvent(db: Db, k: EventKey, token: Option<nat>, maxAttempts: nat, now: int, jitter: nat)
    requires FailEvent(db, k, token, maxAttempts, now, jitter).1 == RetryLater
    ensures var next := FailEvent(db, k, token, maxAttempts, now, jitter).0;
            && k in db.outbox && k in next.outbox && next.outbox[k].status == EventStatus.Pending
            && next.outbox[k].availableAt == now + Delay(db.outbox[k].attempts, jitter)
  {
    assert FailReply(db, k, token, maxAttempts) == RetryLater;
  }

  /** A claimed event cannot be claimed again while its lease runs, and can be once the lease is over. */
  lemma LeaseIsExclusive(db: Db, k: EventKey, now: int, lease: nat, at: int)
    requires k in db.outbox && Claimable(db.outbox[k], now, lease) && now <= at
    ensures Claimable(Claim(db, k, now).outbox[k], at, lease) <==> at > now + lease
  {
  }
}
