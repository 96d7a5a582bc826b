/** Unsigned index arithmetic of concurrentqueue.h. An index has w bits; `half` is
    2^(w-1). Counters are carried unwrapped and every test is made on residues modulo
    2 * half, as the code's unsigned types make it. */
module Circular {

  /** The residue of `a` modulo `b`, by steps of `b` (RemIsMod). */
  function Rem(a: int, b: nat): (r: nat)
    requires b > 0
    ensures r < b
    decreases if a < 0 then b - a else a
  {
    if a < 0 then Rem(a + b, b) else if a < b then a else Rem(a - b, b)
  }

  /** Unsigned division, by steps of `b` (QuotIsDiv). */
  function Quot(a: nat, b: nat): nat
    requires b > 0
  {
    if a < b then 0 else 1 + Quot(a - b, b)
  }

  function Wrap(half: nat, x: int): (r: nat)
    requires half > 0
    ensures r < 2 * half
  {
    Rem(x, 2 * half)
  }

  /** circular_less_than */
  predicate CircularLess(half: nat, a: int, b: int)
    requires half > 0
  {
    Wrap(half, a - b) > half
  }

  // ------------------------------------------------------------------ residues

  /** The only multiple of `m` strictly between -m and m is zero. */
  lemma SmallMultiple(q: int, m: int, d: int)
    requires q * m == d && -m < d < m
    ensures q == 0 && d == 0
  {
  }

  lemma ModUnique(x: int, m: int, turns: int, r: int)
    requires 0 <= r < m && x == turns * m + r
    ensures x % m == r && x / m == turns
  {
    var q := x / m - turns;
    assert q * m == x / m * m - turns * m;
    assert x == x / m * m + x % m;
    SmallMultiple(q, m, r - x % m);
  }

  lemma ModStep(a: int, b: nat)
    requires b > 0
    ensures (a + b) % b == a % b
  {
    var q := a / b;
    assert a == q * b + a % b;
    assert (q + 1) * b == q * b + b;
    ModUnique(a + b, b, q + 1, a % b);
  }

  lemma {:induction false} RemIsMod(a: int, b: nat)
    requires b > 0
    ensures Rem(a, b) == a % b
    decreases if a < 0 then b - a else a
  {
    if a < 0 {
      RemIsMod(a + b, b);
      ModStep(a, b);
    } else if a >= b {
      RemIsMod(a - b, b);
      ModStep(a - b, b);
    } else {
      ModUnique(a, b, 0, a);
    }
  }

  /** A residue is determined by lying within one turn and differing by whole turns. */
  lemma RemUnique(x: int, m: nat, turns: int, r: nat)
    requires r < m && x == turns * m + r
    ensures Rem(x, m) == r
  {
    RemIsMod(x, m);
    ModUnique(x, m, turns, r);
  }

  lemma WrapUnique(half: nat, x: int, turns: int, r: nat)
    requires half > 0 && r < 2 * half && x == turns * (2 * half) + r
    ensures Wrap(half, x) == r
  {
    RemUnique(x, 2 * half, turns, r);
  }

  /** Every number is some whole turns and its residue. */
  lemma Turns(x: int, m: nat) returns (q: int)
    requires m > 0
    ensures x == q * m + Rem(x, m)
  {
    RemIsMod(x, m);
    q := x / m;
  }

  /** Adding to a residue and reducing again is adding and reducing once. */
  lemma RemAdd(x: int, y: int, m: nat)
    requires m > 0
    ensures Rem(Rem(x, m) + y, m) == Rem(x + y, m)
  {
    var p := Turns(x, m);
    var q := Turns(Rem(x, m) + y, m);
    assert (p + q) * m == p * m + q * m;
    RemUnique(x + y, m, p + q, Rem(Rem(x, m) + y, m));
  }

  /** Whole turns do not change a residue. */
  lemma RemShift(x: int, turns: int, m: nat)
    requires m > 0
    ensures Rem(x + turns * m, m) == Rem(x, m)
  {
    var q := Turns(x, m);
    assert (q + turns) * m == q * m + turns * m;
    RemUnique(x + turns * m, m, q + turns, Rem(x, m));
  }

  lemma Regroup(p: int, m: int, k: int)
    ensures p * (m * k) == (p * k) * m == (p * m) * k
  {
  }

  lemma Distribute(p: int, q: int, m: int)
    ensures (p + q) * m == p * m + q * m
  {
  }

  lemma ProductPositive(m: nat, k: nat)
    requires m > 0 && k > 0
    ensures m * k > 0
  {
  }

  /** Reducing modulo a multiple first makes no difference. */
  lemma RemOfMultiple(x: int, m: nat, k: nat)
    requires m > 0 && k > 0
    ensures m * k > 0 && Rem(Rem(x, m * k), m) == Rem(x, m)
  {
    ProductPositive(m, k);
    var p := Turns(x, m * k);
    var q := Turns(Rem(x, m * k), m);
    Regroup(p, m, k);
    Distribute(p * k, q, m);
    RemUnique(x, m, p * k + q, Rem(Rem(x, m * k), m));
  }

  /** Scaling commutes with reduction. */
  lemma RemScale(x: int, m: nat, k: nat)
    requires m > 0 && k > 0
    ensures m * k > 0 && Rem(x * k, m * k) == Rem(x, m) * k
  {
    ProductPositive(m, k);
    var q := Turns(x, m);
    var r: int := Rem(x, m);
    Distribute(q * m, r, k);
    Regroup(q, m, k);
    Distribute(m - 1 - r, r, k);
    Distribute(m - 1, 1, k);
    NegativeTurns(m - 1 - r, k);
    NegativeTurns(r, k);
    RemUnique(x * k, m * k, q, r * k);
  }

  /** Different numbers less than m apart have different residues. */
  lemma RemDiffer(x: int, y: int, m: nat)
    requires m > 0 && x != y && x - y < m && y - x < m
    ensures Rem(x, m) != Rem(y, m)
  {
    var p := Turns(x, m);
    var q := Turns(y, m);
    assert (p - q) * m == p * m - q * m;
    if Rem(x, m) == Rem(y, m) {
      SmallMultiple(p - q, m, x - y);
    }
  }

  lemma {:induction false} QuotRem(a: nat, b: nat)
    requires b > 0
    ensures a == Quot(a, b) * b + Rem(a, b)
  {
    if a >= b {
      QuotRem(a - b, b);
    }
  }

  lemma QuotIsDiv(a: nat, b: nat)
    requires b > 0
    ensures Quot(a, b) == a / b
  {
    QuotRem(a, b);
    ModUnique(a, b, Quot(a, b), Rem(a, b));
  }

  /** The quotient is the only multiple within reach. */
  lemma QuotUnique(a: nat, b: nat, q: nat)
    requires b > 0 && q * b <= a < q * b + b
    ensures Quot(a, b) == q && Rem(a, b) == a - q * b
  {
    QuotIsDiv(a, b);
    ModUnique(a, b, q, a - q * b);
    RemUnique(a, b, q, a - q * b);
  }

  // ------------------------------------------------------------------ the circular comparison

  /** Within half a turn the circular comparison is the comparison of the counters;
      on either side of that window, up to a whole turn, it is the opposite. */
  lemma CircularLessExact(half: nat, a: int, b: int)
    requires half > 0 && b - a < 2 * half && a - b < 2 * half
    ensures (CircularLess(half, a, b) <==> a < b) <==> (b - a < half && a - b <= half)
  {
    if a < b {
      WrapUnique(half, a - b, -1, a - b + 2 * half);
    } else {
      WrapUnique(half, a - b, 0, a - b);
    }
  }

  /** The single-item test `count - over < tail` is the bulk test that the wrapped
      difference `tail - (count - over)` is positive. */
  lemma SingleTestIsBulkTest(half: nat, a: int, b: int)
    requires half > 0
    ensures CircularLess(half, a, b) <==> CircularLess(half, 0, Wrap(half, b - a))
  {
    var m: int := 2 * half;
    var x: int := Wrap(half, b - a);
    var q := Turns(b - a, 2 * half);
    if x == 0 {
      WrapUnique(half, a - b, -q, 0);
      WrapUnique(half, 0 - x, 0, 0);
    } else {
      assert a - b == (-q - 1) * m + (m - x);
      WrapUnique(half, a - b, -q - 1, m - x);
      WrapUnique(half, 0 - x, -1, m - x);
    }
  }

  lemma NegativeTurns(q: int, m: nat)
    ensures q <= -1 ==> q * m <= -(m as int)
    ensures q >= 0 ==> q * m >= 0
  {
  }

  // ------------------------------------------------------------------ powers of two

  function Pow2(n: nat): (r: nat)
    ensures r > 0
  {
    if n == 0 then 1 else 2 * Pow2(n - 1)
  }

  lemma {:induction false} Pow2Splits(a: nat, b: nat)
    requires a <= b
    ensures Pow2(b) == Pow2(a) * Pow2(b - a)
  {
    if a > 0 {
      Pow2Splits(a - 1, b - 1);
    }
  }

  lemma {:induction false} Pow2Monotone(a: nat, b: nat)
    requires a <= b
    ensures Pow2(a) <= Pow2(b)
  {
    if a < b {
      Pow2Monotone(a, b - 1);
    }
  }
}
