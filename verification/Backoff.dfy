/** How long the node waits between attempts: the outbound schedule, whose 64-bit
    arithmetic overflows, and the forwarding schedule, which is a loop. */
module Backoff {
  const SECOND: int := 1_000_000_000
  const MINUTE: int := 60 * SECOND
  const CEILING: int := 240 * MINUTE
  const FORWARD_CEILING: int := 10 * MINUTE
  const TWO_63: int := 0x8000_0000_0000_0000
  const TWO_64: int := 0x1_0000_0000_0000_0000

  function Min(a: int, b: int): int {
    if a < b then a else b
  }

  function Power(base: nat, k: nat): nat {
    if k == 0 then 1 else base * Power(base, k - 1)
  }

  /** A product kept in a signed 64-bit word. */
  function Wrap64(x: int): int {
    (x + TWO_63) % TWO_64 - TWO_63
  }

  /** What converting the floating-point power of three to an int64 gives. It is exact up
      to exponent 33, within two units in the last place up to 39, and past the int64
      range one of the two values the platforms saturate to. */
  ghost predicate ConvertsPowers(converted: nat -> int) {
    && (forall k | 0 <= k <= 33 :: converted(k) == Power(3, k))
    && (forall k | 34 <= k <= 39 :: Power(3, k) - 1024 <= converted(k) <= Power(3, k) + 1024)
    && (forall k | 40 <= k :: converted(k) == -TWO_63 || converted(k) == TWO_63 - 1)
  }

  /** The gap after an attempt, as the node computes it. */
  function Gap(converted: nat -> int, attempt: int): int {
    var n := if attempt < 1 then 1 else attempt;
    var d := Wrap64(converted(n - 1) * MINUTE);
    if d > CEILING || d <= 0 then CEILING else d
  }

  /** The schedule it stands for: one minute, tripling, capped at four hours. */
  function Schedule(attempt: int): int {
    var n := if attempt < 1 then 1 else attempt;
    Min(Power(3, n - 1) * MINUTE, CEILING)
  }

  lemma {:induction false} PowerGrows(base: nat, j: nat, k: nat)
    requires base >= 1 && j <= k
    ensures 1 <= Power(base, j) <= Power(base, k)
  {
    if j < k {
      PowerGrows(base, j, k - 1);
      TimesGrows(base, Power(base, k - 1));
    } else if j > 0 {
      PowerGrows(base, j - 1, j - 1);
      TimesGrows(base, Power(base, j - 1));
    }
  }

  lemma TimesGrows(base: nat, p: nat)
    requires base >= 1
    ensures base * p >= p
  {
    assert (base - 1) * p >= 0;
  }

  lemma WrapOf(x: int, turns: int)
    requires -TWO_63 <= x - turns * TWO_64 < TWO_63
    ensures Wrap64(x) == x - turns * TWO_64
  {
    var y := x + TWO_63;
    assert y == turns * TWO_64 + (y - turns * TWO_64) && 0 <= y - turns * TWO_64 < TWO_64;
  }

  lemma Powers()
    ensures Power(3, 5) == 243 && Power(3, 10) == 59049 && Power(3, 17) == 129140163
    ensures Power(3, 20) == 3486784401 && Power(3, 25) == 847288609443
    ensures Power(3, 30) == 205891132094649 && Power(3, 35) == 50031545098999707
  {
    assert Power(3, 5) == 243;
    assert Power(3, 10) == 59049 by { assert Power(3, 7) == 2187; }
    assert Power(3, 15) == 14348907 by { assert Power(3, 12) == 531441; }
    assert Power(3, 17) == 129140163;
    assert Power(3, 20) == 3486784401;
    assert Power(3, 25) == 847288609443 by { assert Power(3, 22) == 31381059609; }
    assert Power(3, 30) == 205891132094649 by { assert Power(3, 27) == 7625597484987; }
    assert Power(3, 35) == 50031545098999707 by { assert Power(3, 32) == 1853020188851841; }
  }

  /** The whole turns of the 64-bit word a product of exponent 18 to 39 makes. */
  const TURNS: seq<int> := [1, 4, 11, 34, 102, 306, 919, 2756, 8268, 24803, 74409, 223228, 669683, 2009049, 6027146, 18081437, 54244310, 162732930, 488198789, 1464596367, 4393789101, 13181367303]

  lemma MiddleExponents(k: nat, p: int)
    requires 18 <= k <= 28 && p == Power(3, k)
    ensures Wrap64(p * MINUTE) == p * MINUTE - TURNS[k - 18] * TWO_64
    ensures Wrap64(p * MINUTE) > CEILING || Wrap64(p * MINUTE) <= 0
  {
    Powers();
    WrapOf(p * MINUTE, TURNS[k - 18]);
  }

  lemma LateExponents(k: nat, p: int)
    requires 29 <= k <= 33 && p == Power(3, k)
    ensures Wrap64(p * MINUTE) > CEILING || Wrap64(p * MINUTE) <= 0
  {
    Powers();
    WrapOf(p * MINUTE, TURNS[k - 18]);
  }

  lemma RoundedExponents(k: nat, p: int)
    requires 34 <= k <= 39 && Power(3, k) - 1024 <= p <= Power(3, k) + 1024
    ensures Wrap64(p * MINUTE) > CEILING || Wrap64(p * MINUTE) <= 0
  {
    Powers();
    WrapOf(p * MINUTE, TURNS[k - 18]);
  }

  lemma SaturatedExponents(p: int)
    requires p == -TWO_63 || p == TWO_63 - 1
    ensures Wrap64(p * MINUTE) <= 0
  {
    WrapOf(p * MINUTE, if p == -TWO_63 then -30 * SECOND else 30 * SECOND);
  }

  lemma EarlyExponents(k: nat, p: int)
    requires k <= 17 && p == Power(3, k)
    ensures Wrap64(p * MINUTE) == p * MINUTE > 0
  {
    Powers();
    PowerGrows(3, k, 17);
    WrapOf(p * MINUTE, 0);
  }

  lemma PastTheCeiling(k: nat)
    requires k >= 5
    ensures Power(3, k) * MINUTE > CEILING
  {
    Powers();
    PowerGrows(3, 5, k);
  }

  /** The gap is the schedule for every attempt number, although the product overflows
      from the nineteenth attempt on. */
  lemma GapIsSchedule(converted: nat -> int, attempt: int)
    requires ConvertsPowers(converted)
    ensures Gap(converted, attempt) == Schedule(attempt)
  {
    var k: nat := (if attempt < 1 then 1 else attempt) - 1;
    var p := converted(k);
    if k <= 17 {
      EarlyExponents(k, p);
    } else {
      PastTheCeiling(k);
      if k <= 28 {
        MiddleExponents(k, p);
      } else if k <= 33 {
        LateExponents(k, p);
      } else if k <= 39 {
        RoundedExponents(k, p);
      } else {
        SaturatedExponents(p);
      }
    }
  }

  /** The sum of the gaps after the first `n` attempts. */
  function Waited(n: nat): int {
    if n == 0 then 0 else Waited(n - 1) + Schedule(n)
  }

  lemma FirstFive()
    ensures Schedule(1) == MINUTE && Schedule(2) == 3 * MINUTE && Schedule(3) == 9 * MINUTE
    ensures Schedule(4) == 27 * MINUTE && Schedule(5) == 81 * MINUTE
  {
    assert Power(3, 0) == 1;
    assert Power(3, 1) == 3;
    assert Power(3, 2) == 9;
    assert Power(3, 3) == 27;
    assert Power(3, 4) == 81;
  }

  /** From the sixth attempt on every wait is the ceiling, so a lifetime bounds the number
      of attempts that can still connect. */
  lemma {:induction false} WaitedExactly(n: nat)
    requires n >= 5
    ensures Waited(n) == 121 * MINUTE + (n - 5) * CEILING
  {
    if n == 5 {
      FirstFive();
      assert Waited(1) == MINUTE;
      assert Waited(3) == 13 * MINUTE;
    } else {
      WaitedExactly(n - 1);
      PastTheCeiling(n - 1);
    }
  }

  function ForwardSchedule(attempts: int): int {
    var n := if attempts < 1 then 1 else attempts;
    Min(30 * SECOND * Power(2, n - 1), FORWARD_CEILING)
  }

  /** Half a minute, doubling, and ten minutes from the sixth attempt on. */
  lemma ForwardGapsAre(attempts: int)
    ensures ForwardSchedule(1) == 30 * SECOND && ForwardSchedule(2) == 60 * SECOND && ForwardSchedule(3) == 120 * SECOND
    ensures ForwardSchedule(4) == 240 * SECOND && ForwardSchedule(5) == 480 * SECOND
    ensures attempts >= 6 ==> ForwardSchedule(attempts) == 600 * SECOND
    ensures attempts < 1 ==> ForwardSchedule(attempts) == 30 * SECOND
  {
    assert Power(2, 0) == 1 && Power(2, 1) == 2 && Power(2, 2) == 4 && Power(2, 3) == 8 && Power(2, 4) == 16;
    assert Power(2, 5) == 32;
    if attempts >= 6 { PowerGrows(2, 5, attempts - 1); }
  }

  /** The forwarding gap: a doubling loop that stops at the ceiling, then a clamp. */
  method ForwardGap(attempts: int) returns (d: int)
    ensures d == ForwardSchedule(attempts)
  {
    d := 30 * SECOND;
    var i := 1;
    while i < attempts && d < FORWARD_CEILING
      invariant 1 <= i && (i <= attempts || i == 1)
      invariant d == 30 * SECOND * Power(2, i - 1)
      decreases attempts - i
    {
      d := d * 2;
      i := i + 1;
    }
    if i < attempts {
      PowerGrows(2, i - 1, attempts - 1);
    }
    if d > FORWARD_CEILING {
      d := FORWARD_CEILING;
    }
  }
}
