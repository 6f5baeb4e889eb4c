/** The history search: a LIKE pattern that finds a text anywhere, matched as SQLite matches it with ESCAPE '\'. */
module Like {

  const ESC: char := '\\'

  /** LIKE ignores the case of ASCII letters, and of no others. */
  function Lower(c: char): char {
    if 'A' <= c <= 'Z' then (c as int + 32) as char else c
  }

  predicate Same(a: char, b: char) {
    Lower(a) == Lower(b)
  }

  /** LIKE: `%` stands for any text, `_` for any one character, and an escaped character for itself. */
  predicate Matches(p: string, t: string)
    decreases |p| + |t|
  {
    if p == [] then t == []
    else if p[0] == '%' then Matches(p[1..], t) || (t != [] && Matches(p, t[1..]))
    else if p[0] == ESC then |p| > 1 && t != [] && Same(p[1], t[0]) && Matches(p[2..], t[1..])
    else t != [] && (p[0] == '_' || Same(p[0], t[0])) && Matches(p[1..], t[1..])
  }

  function Escaped(s: string): string {
    if s == [] then []
    else (if s[0] == ESC || s[0] == '%' || s[0] == '_' then [ESC, s[0]] else [s[0]]) + Escaped(s[1..])
  }

  function LikeContains(s: string): string {
    ['%'] + Escaped(s) + ['%']
  }

  // What a search box should do.

  /** A capital and its small letter, of the twenty-six. */
  predicate CaseOf(up: char, low: char) {
    'A' <= up <= 'Z' && 'a' <= low <= 'z' && up as int - 'A' as int == low as int - 'a' as int
  }

  predicate Alike(a: char, b: char) {
    a == b || CaseOf(a, b) || CaseOf(b, a)
  }

  lemma SameIsAlike(a: char, b: char)
    ensures Same(a, b) <==> Alike(a, b)
  {
  }

  predicate StartsWith(t: string, s: string) {
    |s| <= |t| && forall i :: 0 <= i < |s| ==> Alike(s[i], t[i])
  }

  predicate Contains(t: string, s: string) {
    exists k :: 0 <= k <= |t| && StartsWith(t[k..], s)
  }

  lemma {:induction false} EscapedMatches(s: string, q: string, t: string)
    ensures Matches(Escaped(s) + q, t) <==> StartsWith(t, s) && Matches(q, t[|s|..])
  {
    hide Same, Alike;
    if s == [] {
      assert Escaped(s) + q == q && t[0..] == t;
    } else {
      var p := Escaped(s) + q;
      var rest := Escaped(s[1..]) + q;
      if s[0] == ESC || s[0] == '%' || s[0] == '_' {
        assert p == [ESC, s[0]] + rest && p[2..] == rest;
      } else {
        assert p == [s[0]] + rest && p[1..] == rest;
      }
      assert Matches(p, t) <==> t != [] && Same(s[0], t[0]) && Matches(rest, t[1..]);
      if t != [] {
        EscapedMatches(s[1..], q, t[1..]);
        StartsTail(t, s);
        if |s| <= |t| {
          assert t[1..][|s[1..]|..] == t[|s|..];
        }
      }
    }
  }

  lemma StartsTail(t: string, s: string)
    requires s != [] && t != []
    ensures StartsWith(t, s) <==> Same(s[0], t[0]) && StartsWith(t[1..], s[1..])
  {
    SameIsAlike(s[0], t[0]);
    hide Same, Alike;
    if Alike(s[0], t[0]) && StartsWith(t[1..], s[1..]) {
      forall i | 0 <= i < |s| ensures Alike(s[i], t[i]) {
        assert i > 0 ==> Alike(s[1..][i - 1], t[1..][i - 1]);
      }
    }
  }

  lemma {:induction false} AnythingMatches(t: string)
    ensures Matches(['%'], t)
  {
    if t == [] {
      assert ['%'][1..] == [];
    } else {
      AnythingMatches(t[1..]);
    }
  }

  lemma {:induction false} PercentSkips(q: string, t: string)
    ensures Matches(['%'] + q, t) <==> exists k :: 0 <= k <= |t| && Matches(q, t[k..])
  {
    assert (['%'] + q)[1..] == q;
    assert t[0..] == t;
    if t != [] {
      PercentSkips(q, t[1..]);
      if k :| 0 <= k <= |t[1..]| && Matches(q, t[1..][k..]) {
        assert t[1..][k..] == t[k + 1..];
      }
      if k :| 0 < k <= |t| && Matches(q, t[k..]) {
        assert t[1..][k - 1..] == t[k..];
      }
    }
  }

  /** For every search text and every stored text, whatever wildcards or escapes either holds. */
  lemma SearchFindsExactly(s: string, t: string)
    ensures Matches(LikeContains(s), t) <==> Contains(t, s)
  {
    var q := Escaped(s) + ['%'];
    assert LikeContains(s) == ['%'] + q;
    PercentSkips(q, t);
    hide Matches;
    forall k | 0 <= k <= |t| ensures Matches(q, t[k..]) <==> StartsWith(t[k..], s) {
      EscapedMatches(s, ['%'], t[k..]);
      if |s| <= |t[k..]| {
        AnythingMatches(t[k..][|s|..]);
      }
    }
  }
}
