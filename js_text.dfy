/**
  The JavaScript string operations the data layer and the UI rely on:
  `String.prototype.trim`, `toLowerCase`, `includes` and `startsWith`, and
  `String(n)` for integers. Strings are sequences of code points.
 */
module JsText {

  /** The WhiteSpace and LineTerminator code points of ECMAScript: exactly what `trim` removes. */
  predicate IsSpace(c: char) {
    c == '\t' || c == '\n' || c == '\U{B}' || c == '\U{C}' || c == '\r' || c == ' '
    || c == '\U{A0}' || c == '\U{1680}' || ('\U{2000}' <= c <= '\U{200A}')
    || c == '\U{2028}' || c == '\U{2029}' || c == '\U{202F}' || c == '\U{205F}'
    || c == '\U{3000}' || c == '\U{FEFF}'
  }

  /** Drops the leading white space. */
  function TrimStart(s: string): string
    decreases |s|
  {
    if s != [] && IsSpace(s[0]) then TrimStart(s[1..]) else s
  }

  /** Drops the trailing white space. */
  function TrimEnd(s: string): string
    decreases |s|
  {
    if s != [] && IsSpace(s[|s| - 1]) then TrimEnd(s[..|s| - 1]) else s
  }

  /** What `TrimStart` leaves is a suffix, all of it white space before, none at its head. */
  lemma {:induction false} TrimStartShape(s: string)
    ensures var r := TrimStart(s);
      && |r| <= |s| && r == s[|s| - |r|..]
      && (forall k :: 0 <= k < |s| - |r| ==> IsSpace(s[k]))
      && (r != [] ==> !IsSpace(r[0]))
    decreases |s|
  {
    if s != [] && IsSpace(s[0]) {
      TrimStartShape(s[1..]);
    }
  }

  /** What `TrimEnd` leaves is a prefix, all of it white space after, none at its end. */
  lemma {:induction false} TrimEndShape(s: string)
    ensures var r := TrimEnd(s);
      && |r| <= |s| && r == s[..|r|]
      && (forall k :: |r| <= k < |s| ==> IsSpace(s[k]))
      && (r != [] ==> !IsSpace(r[|r| - 1]))
    decreases |s|
  {
    if s != [] && IsSpace(s[|s| - 1]) {
      TrimEndShape(s[..|s| - 1]);
    }
  }

  /** `s.trim()`: the part of `s` between its leading and its trailing white space. */
  function Trim(s: string): string {
    TrimEnd(TrimStart(s))
  }

  function LowerChar(c: char): char {
    if 'A' <= c <= 'Z' then (c as int + 32) as char else c
  }

  /** `s.toLowerCase()`, on the ASCII letters. */
  function Lower(s: string): string {
    seq(|s|, i requires 0 <= i < |s| => LowerChar(s[i]))
  }

  lemma LowerAppend(a: string, b: string)
    ensures Lower(a + b) == Lower(a) + Lower(b)
  {
  }

  /** Lower-casing twice is lower-casing once. */
  lemma LowerIdempotent(s: string)
    ensures Lower(Lower(s)) == Lower(s)
  {
  }

  /** Case folding and trimming commute: no white space is a letter. */
  lemma {:induction false} TrimLowerCommute(s: string)
    ensures Trim(Lower(s)) == Lower(Trim(s))
  {
    TrimStartLower(s);
    TrimEndLower(TrimStart(s));
  }

  lemma {:induction false} TrimStartLower(s: string)
    ensures TrimStart(Lower(s)) == Lower(TrimStart(s))
    decreases |s|
  {
    if s != [] {
      assert Lower(s)[0] == LowerChar(s[0]);
      LowerCharKeepsSpace(s[0]);
      assert Lower(s)[1..] == Lower(s[1..]);
      TrimStartLower(s[1..]);
    } else {
      assert Lower(s) == [];
    }
  }

  lemma {:induction false} TrimEndLower(s: string)
    ensures TrimEnd(Lower(s)) == Lower(TrimEnd(s))
    decreases |s|
  {
    if s != [] {
      assert Lower(s)[|s| - 1] == LowerChar(s[|s| - 1]);
      LowerCharKeepsSpace(s[|s| - 1]);
      assert Lower(s)[..|s| - 1] == Lower(s[..|s| - 1]);
      TrimEndLower(s[..|s| - 1]);
    } else {
      assert Lower(s) == [];
    }
  }

  /** Leading white space is dropped whatever follows it. */
  lemma {:induction false} TrimStartSkipsSpaces(ws: string, s: string)
    requires forall k :: 0 <= k < |ws| ==> IsSpace(ws[k])
    ensures TrimStart(ws + s) == TrimStart(s)
    decreases |ws|
  {
    if ws != [] {
      var t := ws + s;
      assert t[0] == ws[0] && IsSpace(t[0]);
      assert TrimStart(t) == TrimStart(t[1..]);
      assert t[1..] == ws[1..] + s;
      TrimStartSkipsSpaces(ws[1..], s);
    } else {
      assert ws + s == s;
    }
  }

  /** Trailing white space is dropped whatever precedes it. */
  lemma {:induction false} TrimEndSkipsSpaces(s: string, ws: string)
    requires forall k :: 0 <= k < |ws| ==> IsSpace(ws[k])
    ensures TrimEnd(s + ws) == TrimEnd(s)
    decreases |ws|
  {
    if ws != [] {
      var t := s + ws;
      assert t[|t| - 1] == ws[|ws| - 1] && IsSpace(t[|t| - 1]);
      assert TrimEnd(t) == TrimEnd(t[..|t| - 1]);
      assert t[..|t| - 1] == s + ws[..|ws| - 1];
      TrimEndSkipsSpaces(s, ws[..|ws| - 1]);
    } else {
      assert s + ws == s;
    }
  }

  /** Once a non-space character is reached, what follows is kept as it is. */
  lemma {:induction false} TrimStartAppend(s: string, w: string)
    ensures TrimStart(s + w) == if TrimStart(s) == [] then TrimStart(w) else TrimStart(s) + w
    decreases |s|
  {
    if s == [] {
      assert s + w == w;
    } else if IsSpace(s[0]) {
      assert (s + w)[1..] == s[1..] + w;
      TrimStartAppend(s[1..], w);
    }
  }

  /** `trim` ignores white space added on either side. */
  lemma TrimIgnoresSurroundingSpace(a: string, s: string, b: string)
    requires forall k :: 0 <= k < |a| ==> IsSpace(a[k])
    requires forall k :: 0 <= k < |b| ==> IsSpace(b[k])
    ensures Trim(a + s + b) == Trim(s)
  {
    assert a + s + b == a + (s + b);
    TrimStartSkipsSpaces(a, s + b);
    TrimStartAppend(s, b);
    if TrimStart(s) == [] {
      TrimStartSkipsSpaces(b, []);
      assert b + [] == b;
    } else {
      TrimEndSkipsSpaces(TrimStart(s), b);
    }
  }

  /** Lower-casing maps white space to itself and nothing else to white space. */
  lemma LowerCharKeepsSpace(c: char)
    ensures IsSpace(LowerChar(c)) <==> IsSpace(c)
    ensures IsSpace(c) ==> LowerChar(c) == c
  {
  }

  /** `s.startsWith(p)`. */
  predicate StartsWith(s: string, p: string) {
    |p| <= |s| && s[..|p|] == p
  }

  /** `s.includes(p)`: `p` starts at some position of `s`. */
  predicate Contains(s: string, p: string)
    decreases |s|
  {
    StartsWith(s, p) || (s != [] && Contains(s[1..], p))
  }

  predicate OccursAt(s: string, p: string, i: int) {
    0 <= i && i + |p| <= |s| && s[i..i + |p|] == p
  }

  /** The recursive definition agrees with "some position of `s` holds `p`". */
  lemma {:induction false} ContainsIff(s: string, p: string)
    ensures Contains(s, p) <==> exists i :: OccursAt(s, p, i)
    decreases |s|
  {
    if StartsWith(s, p) {
      assert OccursAt(s, p, 0);
    } else if s != [] {
      ContainsIff(s[1..], p);
      if Contains(s[1..], p) {
        var i :| OccursAt(s[1..], p, i);
        assert s[i + 1..i + 1 + |p|] == s[1..][i..i + |p|];
        assert OccursAt(s, p, i + 1);
      }
      forall i | OccursAt(s, p, i) ensures Contains(s[1..], p) {
        assert i != 0;
        assert s[1..][i - 1..i - 1 + |p|] == s[i..i + |p|];
        assert OccursAt(s[1..], p, i - 1);
      }
    }
  }

  lemma ContainsAt(s: string, p: string, i: int)
    requires OccursAt(s, p, i)
    ensures Contains(s, p)
  {
    ContainsIff(s, p);
  }

  /**
    A pattern that starts and ends with something other than white space
    occurs in `s` exactly when it occurs in `s.trim()`.
   */
  lemma ContainsTrim(s: string, p: string)
    requires p != [] && !IsSpace(p[0]) && !IsSpace(p[|p| - 1])
    ensures Contains(Trim(s), p) <==> Contains(s, p)
  {
    var t := TrimStart(s);
    TrimStartShape(s);
    TrimEndShape(t);
    ContainsDropLeading(s, p, |s| - |t|);
    ContainsDropTrailing(t, p, |TrimEnd(t)|);
  }

  lemma ContainsDropLeading(s: string, p: string, d: nat)
    requires d <= |s| && forall k :: 0 <= k < d ==> IsSpace(s[k])
    requires p != [] && !IsSpace(p[0])
    ensures Contains(s[d..], p) <==> Contains(s, p)
  {
    var t := s[d..];
    ContainsIff(t, p);
    ContainsIff(s, p);
    if Contains(t, p) {
      var m :| OccursAt(t, p, m);
      assert s[d + m..d + m + |p|] == t[m..m + |p|];
      assert OccursAt(s, p, d + m);
    }
    if Contains(s, p) {
      var m :| OccursAt(s, p, m);
      assert s[m] == p[0];
      assert t[m - d..m - d + |p|] == s[m..m + |p|];
      assert OccursAt(t, p, m - d);
    }
  }

  lemma ContainsDropTrailing(s: string, p: string, e: nat)
    requires e <= |s| && forall k :: e <= k < |s| ==> IsSpace(s[k])
    requires p != [] && !IsSpace(p[|p| - 1])
    ensures Contains(s[..e], p) <==> Contains(s, p)
  {
    var t := s[..e];
    ContainsIff(t, p);
    ContainsIff(s, p);
    if Contains(t, p) {
      var m :| OccursAt(t, p, m);
      assert s[m..m + |p|] == t[m..m + |p|];
      assert OccursAt(s, p, m);
    }
    if Contains(s, p) {
      var m :| OccursAt(s, p, m);
      assert s[m + |p| - 1] == p[|p| - 1];
      assert t[m..m + |p|] == s[m..m + |p|];
      assert OccursAt(t, p, m);
    }
  }

  /** A string shorter than the pattern cannot contain it. */
  lemma NotContainsShort(s: string, p: string)
    requires |s| < |p|
    ensures !Contains(s, p)
  {
    ContainsIff(s, p);
  }

  /**
    Splitting after a character the pattern does not use cannot cut an
    occurrence in two.
   */
  lemma ContainsSplit(a: string, b: string, p: string)
    requires a != [] && a[|a| - 1] !in p
    ensures Contains(a + b, p) <==> Contains(a, p) || Contains(b, p)
  {
    var s := a + b;
    ContainsIff(s, p);
    ContainsIff(a, p);
    ContainsIff(b, p);
    if Contains(s, p) {
      var m :| OccursAt(s, p, m);
      if m + |p| <= |a| {
        assert a[m..m + |p|] == s[m..m + |p|];
        assert OccursAt(a, p, m);
      } else {
        assert forall k :: m <= k < m + |p| ==> s[k] == p[k - m];
        assert s[|a| - 1] == a[|a| - 1];
        assert m >= |a|;
        assert b[m - |a|..m - |a| + |p|] == s[m..m + |p|];
        assert OccursAt(b, p, m - |a|);
      }
    }
    if Contains(a, p) {
      var m :| OccursAt(a, p, m);
      assert s[m..m + |p|] == a[m..m + |p|];
      assert OccursAt(s, p, m);
    }
    if Contains(b, p) {
      var m :| OccursAt(b, p, m);
      assert s[|a| + m..|a| + m + |p|] == b[m..m + |p|];
      assert OccursAt(s, p, |a| + m);
    }
  }

  /** A pattern placed between two strings occurs in the result. */
  lemma ContainsInfix(a: string, p: string, b: string)
    ensures Contains(a + p + b, p)
  {
    var s := a + p + b;
    assert s[|a|..|a| + |p|] == p;
    ContainsAt(s, p, |a|);
  }

  /** A lower-case letter whose upper-case form is also absent stays absent after lower-casing. */
  lemma NotInLower(s: string, c: char)
    requires 'a' <= c <= 'z' && c !in s && (c as int - 32) as char !in s
    ensures c !in Lower(s)
  {
    forall i | 0 <= i < |s| ensures Lower(s)[i] != c {
      assert s[i] in s;
    }
  }

  /**
    Pieces each shorter than the pattern, every cut made after a character
    the pattern does not use, do not contain the pattern when joined.
   */
  lemma NotContainsShortPieces(a: string, b: string, c: string, p: string)
    requires |a| < |p| && |b| < |p| && |c| < |p|
    requires a != [] && a[|a| - 1] !in p && b != [] && b[|b| - 1] !in p
    ensures !Contains(a + b + c, p)
  {
    NotContainsShort(a, p);
    NotContainsShort(b, p);
    NotContainsShort(c, p);
    ContainsSplit(b, c, p);
    ContainsSplit(a, b + c, p);
    assert a + b + c == a + (b + c);
  }

  /** Joining three pieces that lack the pattern, cut after characters it does not use. */
  lemma NotContainsThree(a: string, b: string, c: string, p: string)
    requires a != [] && a[|a| - 1] !in p && b != [] && b[|b| - 1] !in p
    requires !Contains(a, p) && !Contains(b, p) && !Contains(c, p)
    ensures !Contains(a + b + c, p)
  {
    ContainsSplit(b, c, p);
    ContainsSplit(a, b + c, p);
    assert a + b + c == a + (b + c);
  }

  /** Two short pieces around one that lacks a character of the pattern. */
  lemma NotContainsThreeSplit(a: string, b: string, e: string, p: string, c: char)
    requires |a| < |p| && |e| < |p| && c in p && c !in b
    requires a != [] && a[|a| - 1] !in p && b != [] && b[|b| - 1] !in p
    ensures !Contains(a + b + e, p)
  {
    NotContainsShort(a, p);
    NotContainsMissing(b, p, c);
    NotContainsShort(e, p);
    NotContainsThree(a, b, e, p);
  }

  /** A pattern using a character the string lacks does not occur in it. */
  lemma NotContainsMissing(s: string, p: string, c: char)
    requires c in p && c !in s
    ensures !Contains(s, p)
  {
    ContainsIff(s, p);
  }

  /** The decimal numeral of a natural number. */
  function NatToString(n: nat): string
    decreases n
  {
    if n < 10 then [DigitChar(n)] else NatToString(n / 10) + [DigitChar(n % 10)]
  }

  function DigitChar(d: nat): char
    requires d < 10
  {
    ('0' as int + d) as char
  }

  /** `String(n)` for an integer `n`. */
  function IntToString(n: int): string {
    if n < 0 then "-" + NatToString(-n) else NatToString(n)
  }
}
