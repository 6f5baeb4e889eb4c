/** Check digits: Verhoeff as Aadhaar uses it, Luhn as payment cards do, and the base-36 form in a GSTIN. */
module CheckDigits {

  type Digit = n: nat | n < 10

  // Verhoeff's two tables.

  const D: seq<seq<nat>> := [
    [0, 1, 2, 3, 4, 5, 6, 7, 8, 9], [1, 2, 3, 4, 0, 6, 7, 8, 9, 5],
    [2, 3, 4, 0, 1, 7, 8, 9, 5, 6], [3, 4, 0, 1, 2, 8, 9, 5, 6, 7],
    [4, 0, 1, 2, 3, 9, 5, 6, 7, 8], [5, 9, 8, 7, 6, 0, 4, 3, 2, 1],
    [6, 5, 9, 8, 7, 1, 0, 4, 3, 2], [7, 6, 5, 9, 8, 2, 1, 0, 4, 3],
    [8, 7, 6, 5, 9, 3, 2, 1, 0, 4], [9, 8, 7, 6, 5, 4, 3, 2, 1, 0]]

  const P: seq<seq<nat>> := [
    [0, 1, 2, 3, 4, 5, 6, 7, 8, 9], [1, 5, 7, 6, 2, 8, 3, 0, 9, 4],
    [5, 8, 0, 3, 7, 9, 6, 1, 4, 2], [8, 9, 1, 6, 0, 4, 3, 5, 2, 7],
    [9, 4, 5, 3, 1, 2, 6, 8, 7, 0], [4, 2, 8, 6, 5, 7, 3, 9, 0, 1],
    [2, 7, 9, 3, 8, 0, 6, 4, 1, 5], [7, 0, 4, 6, 9, 1, 3, 2, 5, 8]]

  /** The group table is that of the symmetries of a pentagon: turns below five, reflections from five on. */
  function Turn(a: Digit, b: Digit): Digit {
    var r := if a < 5 then Wrap(a + Angle(b)) else Wrap(a - 5 - Angle(b));
    if (a < 5) == (b < 5) then r else r + 5
  }

  function Angle(a: Digit): nat {
    if a < 5 then a else a - 5
  }

  function Wrap(n: int): (r: nat)
    requires -5 < n < 10
    ensures r < 5
  {
    if n < 0 then n + 5 else if n >= 5 then n - 5 else n
  }

  lemma TurnsInTable(a: Digit, b: Digit)
    requires a < 5
    ensures |D| == 10 && |D[a]| == 10 && D[a][b] == Turn(a, b)
  {
  }

  lemma FlipsInTable(a: Digit, b: Digit)
    requires a >= 5
    ensures |D| == 10 && |D[a]| == 10 && D[a][b] == Turn(a, b)
  {
  }

  lemma TableIsTurn(a: Digit, b: Digit)
    ensures |D| == 10 && |D[a]| == 10 && D[a][b] == Turn(a, b)
  {
    hide Turn;
    if a < 5 { TurnsInTable(a, b); } else { FlipsInTable(a, b); }
  }

  lemma TurnAssociatesLow(a: Digit, b: Digit, c: Digit)
    requires a < 5
    ensures Turn(Turn(a, b), c) == Turn(a, Turn(b, c))
  {
  }

  lemma TurnAssociatesHigh(a: Digit, b: Digit, c: Digit)
    requires a >= 5
    ensures Turn(Turn(a, b), c) == Turn(a, Turn(b, c))
  {
  }

  lemma TurnAssociates(a: Digit, b: Digit, c: Digit)
    ensures Turn(Turn(a, b), c) == Turn(a, Turn(b, c))
  {
    hide Turn;
    if a < 5 { TurnAssociatesLow(a, b, c); } else { TurnAssociatesHigh(a, b, c); }
  }

  lemma TurnCancels(a: Digit, b: Digit, c: Digit)
    ensures Turn(a, b) == Turn(a, c) ==> b == c
    ensures Turn(b, a) == Turn(c, a) ==> b == c
  {
  }

  /** A turn is undone by the turn back, a reflection by itself. */
  function Inverse(a: Digit): Digit {
    if a == 0 || a >= 5 then a else 5 - a
  }

  lemma TurnUndone(a: Digit, t: Digit)
    ensures Turn(Turn(t, Inverse(a)), a) == t
    ensures Turn(a, Turn(Inverse(a), t)) == t
  {
  }

  lemma PTable(i: nat, x: Digit)
    requires i < 8
    ensures |P| == 8 && |P[i]| == 10 && P[i][x] < 10
    ensures P[0][x] == x
  {
  }

  function Perm(i: nat, x: Digit): Digit {
    PTable(i % 8, x);
    P[i % 8][x]
  }

  /** Each row of the second table is the row before it once more through the second row, round to the first. */
  lemma PermIterates(i: nat, x: Digit)
    requires i < 8
    ensures Perm(i + 1, x) == Perm(1, Perm(i, x))
  {
  }

  lemma PermNext(i: nat, x: Digit)
    ensures Perm(i + 1, x) == Perm(1, Perm(i, x))
  {
    hide P;
    PermIterates(i % 8, x);
    assert (i + 1) % 8 == (i % 8 + 1) % 8;
  }

  /** The eight rows come full circle, so each is undone by another. */
  function PermBack(i: nat, y: Digit): Digit {
    Perm(8 - i % 8, y)
  }

  lemma PermCircleLow(r: nat, x: Digit)
    requires r <= 3
    ensures Perm(r, Perm(8 - r, x)) == x
  {
  }

  lemma PermCircleHigh(r: nat, x: Digit)
    requires 4 <= r <= 8
    ensures Perm(r, Perm(8 - r, x)) == x
  {
  }

  lemma PermCircle(r: nat, x: Digit)
    requires r <= 8
    ensures Perm(r, Perm(8 - r, x)) == x
  {
    hide Perm;
    if r <= 3 { PermCircleLow(r, x); } else { PermCircleHigh(r, x); }
  }

  lemma PermUndone(i: nat, x: Digit)
    ensures Perm(i, PermBack(i, x)) == x && PermBack(i, Perm(i, x)) == x
  {
    hide P;
    PermCircle(i % 8, x);
    PermCircle(8 - i % 8, x);
  }

  lemma NeverSymmetricTurns(u: Digit, v: Digit)
    requires u != v && u < 5
    ensures Turn(u, Perm(1, v)) != Turn(v, Perm(1, u))
  {
  }

  lemma NeverSymmetricFlips(u: Digit, v: Digit)
    requires u != v && u >= 5 && v >= 5
    ensures Turn(u, Perm(1, v)) != Turn(v, Perm(1, u))
  {
  }

  /** What makes exchanges visible: the second row never commutes. */
  lemma NeverSymmetric(u: Digit, v: Digit)
    requires u != v
    ensures Turn(u, Perm(1, v)) != Turn(v, Perm(1, u))
  {
    hide Turn, Perm;
    if u < 5 { NeverSymmetricTurns(u, v); }
    else if v < 5 { NeverSymmetricTurns(v, u); }
    else { NeverSymmetricFlips(u, v); }
  }

  // Verhoeff. Digits are taken from the last to the first.

  function Back<T>(d: seq<T>): (r: seq<T>)
    ensures |r| == |d|
  {
    seq(|d|, i requires 0 <= i < |d| => d[|d| - 1 - i])
  }

  function Fold(s: seq<Digit>, n: nat): Digit
    requires n <= |s|
  {
    if n == 0 then 0 else Turn(Fold(s, n - 1), Perm(n - 1, s[n - 1]))
  }

  predicate VerhoeffPasses(d: seq<Digit>) {
    Fold(Back(d), |d|) == 0
  }

  method Verhoeff(d: seq<Digit>) returns (ok: bool)
    ensures ok <==> VerhoeffPasses(d)
  {
    hide Turn;
    var c: Digit := 0;
    for i := 0 to |d|
      invariant c == Fold(Back(d), i)
    {
      var x := d[|d| - 1 - i];
      PTable(i % 8, x);
      TableIsTurn(c, P[i % 8][x]);
      assert Back(d)[i] == x;
      c := D[c][P[i % 8][x]];
    }
    ok := c == 0;
  }

  /** The second row of the second table in cycles: one of eight digits, and two exchanged. */
  const CYCLE: seq<Digit> := [0, 1, 5, 8, 9, 4, 2, 7]

  lemma SecondRowCycles(k: nat)
    requires k < 8
    ensures Perm(1, CYCLE[k]) == CYCLE[(k + 1) % 8] && Perm(1, 3) == 6 && Perm(1, 6) == 3
  {
  }

  lemma FoldNext(s: seq<Digit>, n: nat, c: Digit, p: Digit, r: Digit)
    requires n < |s| && Fold(s, n) == c && Perm(n, s[n]) == p && Turn(c, p) == r
    ensures Fold(s, n + 1) == r
  {
    hide Turn, Perm;
  }

  /** The number the program's own tests take for a good one passes. */
  lemma KnownAadhaarPasses()
    ensures VerhoeffPasses([2, 3, 4, 5, 6, 7, 8, 9, 0, 1, 2, 4])
  {
    var d: seq<Digit> := [2, 3, 4, 5, 6, 7, 8, 9, 0, 1, 2, 4];
    var s: seq<Digit> := [4, 2, 1, 0, 9, 8, 7, 6, 5, 4, 3, 2];
    assert Back(d) == s;
    assert Fold(s, 0) == 0;
    hide Fold;
    FoldNext(s, 0, 0, 4, 4);
    FoldNext(s, 1, 4, 7, 6);
    FoldNext(s, 2, 6, 8, 3);
    FoldNext(s, 3, 3, 8, 6);
    FoldNext(s, 4, 6, 0, 6);
    FoldNext(s, 5, 6, 0, 6);
    FoldNext(s, 6, 6, 4, 7);
    FoldNext(s, 7, 7, 3, 9);
    FoldNext(s, 8, 9, 5, 4);
    FoldNext(s, 9, 4, 2, 1);
    FoldNext(s, 10, 1, 3, 4);
    FoldNext(s, 11, 4, 1, 0);
  }

  /** What the fold must have come to after `n` digits for the rest to bring it to zero. */
  function Needed(s: seq<Digit>, n: nat): Digit
    requires n <= |s|
    decreases |s| - n
  {
    if n == |s| then 0 else Turn(Needed(s, n + 1), Inverse(Perm(n, s[n])))
  }

  lemma {:induction false} NeededIsExact(s: seq<Digit>, n: nat)
    requires n <= |s|
    ensures Fold(s, |s|) == 0 <==> Fold(s, n) == Needed(s, n)
    decreases |s| - n
  {
    hide Turn, Perm, Inverse;
    if n < |s| {
      NeededIsExact(s, n + 1);
      var x := Perm(n, s[n]);
      TurnUndone(x, Needed(s, n + 1));
      TurnCancels(x, Fold(s, n), Needed(s, n));
    }
  }

  lemma {:induction false} FoldSame(s: seq<Digit>, t: seq<Digit>, n: nat)
    requires n <= |s| == |t| && s[..n] == t[..n]
    ensures Fold(s, n) == Fold(t, n)
  {
    hide Turn, Perm;
    if n > 0 {
      assert s[..n - 1] == s[..n][..n - 1] && t[..n - 1] == t[..n][..n - 1];
      assert s[n - 1] == s[..n][n - 1] == t[..n][n - 1];
      FoldSame(s, t, n - 1);
    }
  }

  lemma {:induction false} NeededSame(s: seq<Digit>, t: seq<Digit>, n: nat)
    requires n <= |s| == |t| && s[n..] == t[n..]
    ensures Needed(s, n) == Needed(t, n)
    decreases |s| - n
  {
    hide Turn, Perm, Inverse;
    if n < |s| {
      assert s[n + 1..] == s[n..][1..] && t[n + 1..] == t[n..][1..];
      assert s[n] == s[n..][0] == t[n..][0];
      NeededSame(s, t, n + 1);
    }
  }

  /** The one digit that fits at a place, whatever stands there. */
  function Fitting(s: seq<Digit>, k: nat): Digit
    requires k < |s|
  {
    PermBack(k, Turn(Inverse(Fold(s, k)), Needed(s, k + 1)))
  }

  lemma OneFits(s: seq<Digit>, k: nat, x: Digit)
    requires k < |s|
    ensures Fold(s[k := x], |s|) == 0 <==> x == Fitting(s, k)
  {
    hide Turn, Perm, PermBack, Inverse;
    var t := s[k := x];
    FoldSame(s, t, k);
    NeededSame(s, t, k + 1);
    NeededIsExact(t, k + 1);
    var c, need := Fold(s, k), Needed(s, k + 1);
    assert Fold(t, k + 1) == Turn(c, Perm(k, x));
    hide Fold, Needed;
    TurnUndone(c, need);
    TurnCancels(c, Perm(k, x), Turn(Inverse(c), need));
    PermUndone(k, x);
    PermUndone(k, Turn(Inverse(c), need));
  }

  lemma BackUpdate<T>(d: seq<T>, k: nat, x: T)
    requires k < |d|
    ensures Back(d[k := x]) == Back(d)[|d| - 1 - k := x]
  {
  }

  /** At every place exactly one of the ten digits makes the string pass. */
  lemma VerhoeffOneFits(d: seq<Digit>, k: nat, x: Digit)
    requires k < |d|
    ensures VerhoeffPasses(d[k := x]) <==> x == Fitting(Back(d), |d| - 1 - k)
  {
    hide Fold, Fitting;
    BackUpdate(d, k, x);
    OneFits(Back(d), |d| - 1 - k, x);
  }

  /** Any one digit of a passing string changed makes it fail. */
  lemma VerhoeffCatchesOne(d: seq<Digit>, k: nat, x: Digit)
    requires VerhoeffPasses(d) && k < |d| && x != d[k]
    ensures !VerhoeffPasses(d[k := x])
  {
    hide VerhoeffPasses, Fitting;
    VerhoeffOneFits(d, k, x);
    VerhoeffOneFits(d, k, d[k]);
    assert d[k := d[k]] == d;
  }

  /** Two adjacent folds in the other order, from the same point. */
  lemma SwapDiffers(c: Digit, k: nat, a: Digit, b: Digit)
    requires a != b
    ensures Turn(Turn(c, Perm(k, a)), Perm(k + 1, b)) != Turn(Turn(c, Perm(k, b)), Perm(k + 1, a))
  {
    var u, v := Perm(k, a), Perm(k, b);
    PermUndone(k, a);
    PermUndone(k, b);
    PermNext(k, a);
    PermNext(k, b);
    hide Turn, Perm, PermBack;
    assert u != v;
    NeverSymmetric(u, v);
    TurnAssociates(c, u, Perm(1, v));
    TurnAssociates(c, v, Perm(1, u));
    TurnCancels(c, Turn(u, Perm(1, v)), Turn(v, Perm(1, u)));
  }

  lemma SwapCaught(s: seq<Digit>, k: nat)
    requires k + 1 < |s| && s[k] != s[k + 1] && Fold(s, |s|) == 0
    ensures Fold(s[k := s[k + 1]][k + 1 := s[k]], |s|) != 0
  {
    hide Turn, Perm;
    var t := s[k := s[k + 1]][k + 1 := s[k]];
    FoldSame(s, t, k);
    NeededSame(s, t, k + 2);
    NeededIsExact(s, k + 2);
    NeededIsExact(t, k + 2);
    hide Needed;
    assert Fold(s, k + 1) == Turn(Fold(s, k), Perm(k, s[k])) && Fold(t, k + 1) == Turn(Fold(s, k), Perm(k, s[k + 1]));
    assert Fold(s, k + 2) == Turn(Fold(s, k + 1), Perm(k + 1, s[k + 1])) && Fold(t, k + 2) == Turn(Fold(t, k + 1), Perm(k + 1, s[k]));
    hide Fold;
    SwapDiffers(Fold(s, k), k, s[k], s[k + 1]);
  }

  /** Any two adjacent unequal digits of a passing string exchanged make it fail. */
  lemma VerhoeffCatchesSwap(d: seq<Digit>, k: nat)
    requires VerhoeffPasses(d) && k + 1 < |d| && d[k] != d[k + 1]
    ensures !VerhoeffPasses(d[k := d[k + 1]][k + 1 := d[k]])
  {
    hide Fold;
    var s, j := Back(d), |d| - 2 - k;
    assert s[j] == d[k + 1] && s[j + 1] == d[k];
    SwapCaught(s, j);
    assert Back(d[k := d[k + 1]][k + 1 := d[k]]) == s[j := s[j + 1]][j + 1 := s[j]];
  }
}
