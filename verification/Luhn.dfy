/**
 Luhn's check (Annex B of ISO/IEC 7812-1) in the two bases it is used in: base 10 on payment cards, taken from
 the last digit to the first, and base 36 in a GSTIN, taken from the first character to the fifteenth. A
 character stands for its place in the base's alphabet.
 */
module Luhn {
  import opened CheckDigits

  type Base = b: nat | b == 10 || b == 36 witness 10

  /** Every other place counts double, the two digits of the double added. */
  function Weigh(b: Base, i: nat, v: nat): nat {
    if i % 2 == 0 then v
    else if b == 10 then (2 * v) / 10 + (2 * v) % 10
    else (2 * v) / 36 + (2 * v) % 36
  }

  function Rem(b: Base, n: int): nat {
    if b == 10 then n % 10 else n % 36
  }

  predicate Values(b: Base, s: seq<nat>) {
    forall i :: 0 <= i < |s| ==> s[i] < b
  }

  function Total(b: Base, s: seq<nat>, n: nat): nat
    requires n <= |s|
  {
    if n == 0 then 0 else Total(b, s, n - 1) + Weigh(b, n - 1, s[n - 1])
  }

  predicate Passes(b: Base, s: seq<nat>) {
    Rem(b, Total(b, s, |s|)) == 0
  }

  method LuhnCheck(d: seq<Digit>) returns (ok: bool)
    ensures ok <==> Passes(10, Back(d))
  {
    var sum := 0;
    for i := 0 to |d|
      invariant sum == Total(10, Back(d), i)
    {
      var n: nat := d[|d| - 1 - i];
      assert Back(d)[i] == n;
      if i % 2 == 1 {
        n := n * 2;
        if n > 9 { n := n - 9; }
      }
      sum := sum + n;
    }
    ok := sum % 10 == 0;
  }

  /** A GSTIN's last character for its first fourteen: exactly the one that makes the whole pass. */
  method GstinCheck(g: seq<nat>) returns (check: nat)
    requires |g| == 14 && Values(36, g)
    ensures check < 36
    ensures forall c: nat :: c < 36 ==> (Passes(36, g + [c]) <==> c == check)
  {
    hide Weigh, Rem;
    var sum := 0;
    for i := 0 to 14
      invariant sum == Total(36, g, i)
    {
      var v := g[i] * (i % 2 + 1);
      GstinWeight(i, g[i], v);
      sum := sum + (v / 36 + v % 36);
    }
    check := (36 - sum % 36) % 36;
    ComplementIs(sum);
    forall c: nat | c < 36 ensures Passes(36, g + [c]) <==> c == check {
      LastCompletes(g, c);
    }
  }

  lemma GstinWeight(i: nat, x: nat, v: nat)
    requires x < 36 && v == x * (i % 2 + 1)
    ensures v / 36 + v % 36 == Weigh(36, i, x)
  {
    assert i % 2 == 0 ==> v == x;
    assert i % 2 == 1 ==> v == 2 * x;
  }

  lemma ComplementIs(n: nat)
    ensures (36 - n % 36) % 36 == Complement(36, n)
  {
  }

  lemma LastCompletes(g: seq<nat>, c: nat)
    requires |g| == 14 && c < 36
    ensures Passes(36, g + [c]) <==> c == Complement(36, Total(36, g, 14))
  {
    hide Rem, Complement;
    TotalPrefix(36, g, [c], 14);
    assert Total(36, g + [c], 15) == Total(36, g, 14) + c;
    Completes(36, Total(36, g, 14), c);
  }

  lemma {:induction false} TotalPrefix(b: Base, s: seq<nat>, t: seq<nat>, n: nat)
    requires n <= |s|
    ensures Total(b, s + t, n) == Total(b, s, n)
  {
    if n > 0 {
      TotalPrefix(b, s, t, n - 1);
    }
  }

  lemma {:induction false} TotalFrom(b: Base, s: seq<nat>, sums: seq<nat>, n: nat)
    requires n <= |s| && |sums| == |s| + 1 && sums[0] == 0
    requires forall i :: 0 <= i < n ==> sums[i + 1] == sums[i] + Weigh(b, i, s[i])
    ensures Total(b, s, n) == sums[n]
  {
    hide Weigh;
    if n > 0 {
      TotalFrom(b, s, sums, n - 1);
    }
  }

  lemma {:induction false} OnesTotal(s: seq<nat>, n: nat)
    requires n <= |s| && forall i :: 0 <= i < n ==> s[i] == 1
    ensures Total(10, s, n) == n + n / 2
  {
    if n > 0 {
      OnesTotal(s, n - 1);
    }
  }

  /** The card number that the program's own tests take for a good one, a four and fifteen ones, passes. */
  lemma KnownCardPasses(d: seq<Digit>)
    requires |d| == 16 && d[0] == 4 && forall i :: 1 <= i < 16 ==> d[i] == 1
    ensures Passes(10, Back(d))
  {
    OnesTotal(Back(d), 15);
    assert Back(d)[15] == 4;
  }

  /** And the GSTIN, 27AAPFU0939F1ZV. */
  lemma KnownGstinPasses()
    ensures Passes(36, [2, 7, 10, 10, 25, 15, 30, 0, 9, 3, 9, 15, 1, 35, 31])
  {
    var g: seq<nat> := [2, 7, 10, 10, 25, 15, 30, 0, 9, 3, 9, 15, 1, 35, 31];
    hide Total;
    var sums := [0, 2, 16, 26, 46, 71, 101, 131, 131, 140, 146, 155, 185, 186, 221, 252];
    forall i | 0 <= i < 15 ensures sums[i + 1] == sums[i] + Weigh(36, i, g[i]) {
      if i % 2 == 1 { Double(36, i, g[i]); }
      hide Weigh;
    }
    hide Weigh;
    TotalFrom(36, g, sums, 15);
  }

  // Weighing is a rearrangement of the base's values.

  function Unweigh(b: Base, i: nat, w: nat): nat {
    if i % 2 == 0 then w else if w % 2 == 0 then w / 2 else (w + b - 1) / 2
  }

  lemma DoubleTen(v: nat)
    requires v < 10
    ensures (2 * v) / 10 + (2 * v) % 10 == if v < 5 then 2 * v else 2 * v - 9
  {
  }

  lemma DoubleThirtySix(v: nat)
    requires v < 36
    ensures (2 * v) / 36 + (2 * v) % 36 == if v < 18 then 2 * v else 2 * v - 35
  {
  }

  /** What counting double comes to: the even values in order, then the odd ones. */
  lemma Double(b: Base, i: nat, v: nat)
    requires v < b && i % 2 == 1
    ensures Weigh(b, i, v) == if 2 * v < b then 2 * v else 2 * v - (b - 1)
  {
    if b == 10 { DoubleTen(v); } else { DoubleThirtySix(v); }
  }

  lemma Weighed(b: Base, i: nat, v: nat)
    requires v < b
    ensures Weigh(b, i, v) < b && Unweigh(b, i, Weigh(b, i, v)) == v
    ensures Unweigh(b, i, v) < b && Weigh(b, i, Unweigh(b, i, v)) == v
  {
    if i % 2 == 1 {
      hide Weigh;
      Double(b, i, v);
      Double(b, i, Unweigh(b, i, v));
    }
  }

  // One character.

  lemma {:induction false} TotalUpdate(b: Base, s: seq<nat>, k: nat, x: nat, n: nat)
    requires k < |s| && n <= |s|
    ensures Total(b, s[k := x], n) == if k < n then Total(b, s, n) - Weigh(b, k, s[k]) + Weigh(b, k, x) else Total(b, s, n)
  {
    hide Weigh;
    if n > 0 {
      TotalUpdate(b, s, k, x, n - 1);
    }
  }

  /** The weight of every place but `k`. */
  function Others(b: Base, s: seq<nat>, k: nat): int
    requires k < |s|
  {
    Total(b, s, |s|) - Weigh(b, k, s[k])
  }

  function Fitting(b: Base, s: seq<nat>, k: nat): nat
    requires k < |s|
  {
    Unweigh(b, k, Complement(b, Others(b, s, k)))
  }

  /** What is missing to a multiple of the base. */
  function Complement(b: Base, r: int): (w: nat)
    ensures w < b
  {
    if Rem(b, r) == 0 then 0 else b - Rem(b, r)
  }

  lemma ShiftTen(x: int, q: int)
    ensures (x + 10 * q) % 10 == x % 10
  {
  }

  lemma ShiftThirtySix(x: int, q: int)
    ensures (x + 36 * q) % 36 == x % 36
  {
  }

  lemma RemOfSum(b: Base, r: int, w: int)
    ensures Rem(b, r + w) == Rem(b, Rem(b, r) + w)
  {
    if b == 10 { ShiftTen(r % 10 + w, r / 10); } else { ShiftThirtySix(r % 36 + w, r / 36); }
  }

  lemma RemSmall(b: Base, n: int)
    requires -(b as int) < n < 2 * b
    ensures Rem(b, n) == 0 <==> n == 0 || n == b
  {
    if b == 10 {
      assert n % 10 == 0 <==> n == 0 || n == 10;
    } else {
      assert n % 36 == 0 <==> n == 0 || n == 36;
    }
  }

  lemma Completes(b: Base, r: int, w: nat)
    requires w < b
    ensures Rem(b, r + w) == 0 <==> w == Complement(b, r)
  {
    RemOfSum(b, r, w);
    assert Rem(b, r) < b;
    hide Rem;
    RemSmall(b, Rem(b, r) + w);
  }

  /** At every place exactly one value makes the string pass, whatever stands there. */
  lemma OneValueFits(b: Base, s: seq<nat>, k: nat, x: nat)
    requires k < |s| && x < b
    ensures Passes(b, s[k := x]) <==> x == Fitting(b, s, k)
  {
    TotalUpdate(b, s, k, x, |s|);
    Weighed(b, k, x);
    var r := Others(b, s, k);
    Completes(b, r, Weigh(b, k, x));
    Weighed(b, k, Complement(b, r));
    hide Weigh, Unweigh, Total, Rem, Complement;
  }

  /** Any one character of a passing string changed makes it fail. */
  lemma CatchesOne(b: Base, s: seq<nat>, k: nat, x: nat)
    requires Values(b, s) && Passes(b, s) && k < |s| && x < b && x != s[k]
    ensures !Passes(b, s[k := x])
  {
    hide Passes, Fitting;
    OneValueFits(b, s, k, x);
    OneValueFits(b, s, k, s[k]);
    assert s[k := s[k]] == s;
  }

  // Two adjacent characters.

  predicate Ends(b: Base, x: nat, y: nat) {
    (x == 0 && y == b - 1) || (x == b - 1 && y == 0)
  }

  /** What a value gains when it counts double. */
  function Gain(b: Base, v: nat): int {
    Weigh(b, 1, v) - v
  }

  lemma GainsDiffer(b: Base, x: nat, y: nat)
    requires x < b && y < b
    ensures Rem(b, Gain(b, x) - Gain(b, y)) == 0 <==> x == y || Ends(b, x, y)
  {
    Double(b, 1, x);
    Double(b, 1, y);
    hide Weigh, Rem;
    RemSmall(b, Gain(b, x) - Gain(b, y));
  }

  function Swapped(s: seq<nat>, k: nat): seq<nat>
    requires k + 1 < |s|
  {
    s[k := s[k + 1]][k + 1 := s[k]]
  }

  /**
   Of a passing string, an exchange of two adjacent characters goes unnoticed exactly when they are equal or are
   the first and the last of the alphabet: 0 and 9 on a card.
   */
  lemma CatchesSwapBut(b: Base, s: seq<nat>, k: nat)
    requires Values(b, s) && Passes(b, s) && k + 1 < |s|
    ensures Passes(b, Swapped(s, k)) <==> s[k] == s[k + 1] || Ends(b, s[k], s[k + 1])
  {
    var x, y := s[k], s[k + 1];
    TotalUpdate(b, s, k, y, |s|);
    TotalUpdate(b, s[k := y], k + 1, x, |s|);
    hide Total, Rem;
    var gain := if k % 2 == 0 then Gain(b, x) - Gain(b, y) else Gain(b, y) - Gain(b, x);
    assert Total(b, Swapped(s, k), |s|) == Total(b, s, |s|) + gain by { Change(b, k, x, y); }
    RemOfSum(b, Total(b, s, |s|), gain);
    GainsDiffer(b, x, y);
    GainsDiffer(b, y, x);
  }

  lemma Change(b: Base, k: nat, x: nat, y: nat)
    ensures Weigh(b, k, y) + Weigh(b, k + 1, x) - Weigh(b, k, x) - Weigh(b, k + 1, y)
         == if k % 2 == 0 then Gain(b, x) - Gain(b, y) else Gain(b, y) - Gain(b, x)
  {
  }

  // A card number, as it is written.

  /** For a card: at every place exactly one digit fits, so any one digit changed is caught. */
  lemma CardOneFits(d: seq<Digit>, k: nat, x: Digit)
    requires k < |d|
    ensures Passes(10, Back(d[k := x])) <==> x == Fitting(10, Back(d), |d| - 1 - k)
    ensures Passes(10, Back(d)) && x != d[k] ==> !Passes(10, Back(d[k := x]))
  {
    hide Passes, Fitting;
    BackUpdate(d, k, x);
    OneValueFits(10, Back(d), |d| - 1 - k, x);
    OneValueFits(10, Back(d), |d| - 1 - k, d[k]);
    assert Back(d)[|d| - 1 - k := d[k]] == Back(d);
  }

  /** For a card that passes: the exchange of two adjacent digits goes unnoticed exactly for equal ones, or 0 and 9. */
  lemma CardSwap(d: seq<Digit>, k: nat)
    requires Passes(10, Back(d)) && k + 1 < |d|
    ensures Passes(10, Back(d[k := d[k + 1]][k + 1 := d[k]])) <==> d[k] == d[k + 1] || Ends(10, d[k], d[k + 1])
  {
    hide Passes;
    var s, j := Back(d), |d| - 2 - k;
    CatchesSwapBut(10, s, j);
    assert Back(d[k := d[k + 1]][k + 1 := d[k]]) == Swapped(s, j);
  }
}
