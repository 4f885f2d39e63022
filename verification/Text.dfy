/** The few operations on text that several parts of the model share. */
module Text {
  import opened Wrappers

  /** The characters that `trim` strips and that `\\s` matches in a JavaScript pattern. */
  predicate IsSpace(c: char) {
    || c == '\t' || c == '\n' || c == '\U{000B}' || c == '\U{000C}' || c == '\r' || c == ' '
    || c == '\U{00A0}' || c == '\U{1680}' || '\U{2000}' <= c <= '\U{200A}'
    || c == '\U{2028}' || c == '\U{2029}' || c == '\U{202F}' || c == '\U{205F}' || c == '\U{3000}' || c == '\U{FEFF}'
  }

  function TrimStart(s: string): (r: string)
    ensures r == [] || !IsSpace(r[0])
    ensures |r| <= |s| && r == s[|s| - |r|..]
  {
    if s != [] && IsSpace(s[0]) then TrimStart(s[1..]) else s
  }

  function TrimEnd(s: string): (r: string)
    ensures r == [] || !IsSpace(r[|r| - 1])
    ensures r <= s
  {
    if s != [] && IsSpace(s[|s| - 1]) then TrimEnd(s[..|s| - 1]) else s
  }

  function Trim(s: string): string {
    TrimEnd(TrimStart(s))
  }

  ghost predicate AllSpace(s: string) {
    forall i :: 0 <= i < |s| ==> IsSpace(s[i])
  }

  /** Leading whitespace is all that `TrimStart` takes away. */
  lemma {:induction false} TrimStartDrops(w: string, s: string)
    requires AllSpace(w) && (s == [] || !IsSpace(s[0]))
    ensures TrimStart(w + s) == s
  {
    if w == [] {
      assert w + s == s;
    } else {
      assert (w + s)[1..] == w[1..] + s;
      TrimStartDrops(w[1..], s);
    }
  }

  lemma {:induction false} TrimStartDropsSpace(s: string)
    ensures forall i :: 0 <= i < |s| - |TrimStart(s)| ==> IsSpace(s[i])
  {
    if s != [] && IsSpace(s[0]) {
      TrimStartDropsSpace(s[1..]);
      forall i | 0 < i < |s| - |TrimStart(s)|
        ensures IsSpace(s[i])
      {
        assert s[i] == s[1..][i - 1];
      }
    }
  }

  /** The whitespace that `TrimStart` takes away. */
  lemma Trimmed(s: string) returns (w: string)
    ensures AllSpace(w) && s == w + TrimStart(s)
  {
    TrimStartDropsSpace(s);
    w := s[..|s| - |TrimStart(s)|];
    Split(w, s);
  }

  lemma Split(p: string, s: string)
    requires p <= s
    ensures s == p + s[|p|..]
  {
  }

  lemma StartsAlike(p: string, s: string)
    ensures p != [] && p <= s ==> s != [] && s[0] == p[0]
  {
  }

  /** A text that is long enough decides alone whether it starts with another. */
  lemma StartsWithin(p: string, a: string, b: string)
    requires |p| <= |a|
    ensures p <= a + b <==> p <= a
  {
    assert (a + b)[..|p|] == a[..|p|];
  }

  lemma CharOfBoth(a: string, b: string, i: nat)
    requires i < |a + b|
    ensures (a + b)[i] == if i < |a| then a[i] else b[i - |a|]
  {
  }

  lemma Unsplit(p: string, s: string)
    ensures (p + s)[..|p|] == p && (p + s)[|p|..] == s
  {
  }

  lemma Associative(a: string, b: string, c: string)
    ensures a + b + c == a + (b + c)
  {
  }

  /** A text that starts with `a` and one that starts with a longer `b` agree on `a`. */
  lemma PrefixOf(a: string, x: string, b: string, y: string)
    requires a + x == b + y && |a| <= |b|
    ensures b == a + b[|a|..] && x == b[|a|..] + y
  {
    assert (a + x)[..|b|] == b;
    assert (a + x)[..|a|] == a;
    assert b[..|a|] == a;
    assert (a + x)[|a|..] == x;
    assert (b + y)[|a|..] == b[|a|..] + y;
  }

  lemma {:induction false} TrimStartBefore(a: string, b: string)
    requires b != [] && !IsSpace(b[0])
    ensures TrimStart(a + b) == TrimStart(a) + b
  {
    if a == [] {
      assert a + b == b;
    } else if IsSpace(a[0]) {
      assert (a + b)[1..] == a[1..] + b;
      TrimStartBefore(a[1..], b);
    }
  }

  /** `-->` stands at this place. */
  predicate ArrowAt(s: string, i: int) {
    0 <= i && i + 3 <= |s| && s[i] == '-' && s[i + 1] == '-' && s[i + 2] == '>'
  }

  ghost predicate Arrow(s: string) {
    exists i :: ArrowAt(s, i)
  }

  /** What stands before the first `-->`. */
  function UpToArrow(s: string): (r: Option<string>)
    ensures r.None? ==> !Arrow(s)
    ensures r.Some? ==> r.value <= s && ArrowAt(s, |r.value|) && forall j :: ArrowAt(s, j) ==> |r.value| <= j
  {
    if s == [] then None
    else if ArrowAt(s, 0) then Some([])
    else
      var rest := UpToArrow(s[1..]);
      assert forall i :: ArrowAt(s, i) && i > 0 ==> ArrowAt(s[1..], i - 1);
      if rest.None? then None
      else
        assert ArrowAt(s[1..], |rest.value|);
        Some([s[0]] + rest.value)
  }

  lemma ArrowInEither(a: string, b: string)
    ensures Arrow(a) || Arrow(b) ==> Arrow(a + b)
  {
    if Arrow(a) {
      var i :| ArrowAt(a, i);
      assert ArrowAt(a + b, i);
    } else if Arrow(b) {
      var i :| ArrowAt(b, i);
      assert ArrowAt(a + b, |a| + i);
    }
  }

  /** No arrow reaches over the end of a text that does not end in a dash. */
  lemma ArrowIsWithin(a: string, b: string, i: int)
    requires a != [] && a[|a| - 1] != '-' && ArrowAt(a + b, i)
    ensures ArrowAt(a, i) || ArrowAt(b, i - |a|)
  {
  }

  lemma ArrowJoin(a: string, b: string)
    requires a != [] && a[|a| - 1] != '-'
    ensures Arrow(a + b) <==> Arrow(a) || Arrow(b)
  {
    ArrowInEither(a, b);
    if Arrow(a + b) {
      var i :| ArrowAt(a + b, i);
      ArrowIsWithin(a, b, i);
    }
  }

  lemma ArrowCons(c: char, s: string)
    ensures Arrow([c] + s) <==> Arrow(s) || (c == '-' && |s| >= 2 && s[0] == '-' && s[1] == '>')
  {
    ArrowInEither([c], s);
    if Arrow([c] + s) {
      var i :| ArrowAt([c] + s, i);
      assert i > 0 ==> ArrowAt(s, i - 1);
    }
    if c == '-' && |s| >= 2 && s[0] == '-' && s[1] == '>' {
      assert ArrowAt([c] + s, 0);
    }
  }
}
