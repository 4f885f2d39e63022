/**
 * A block hidden in a text as `<!-- LABEL PAYLOAD -->`: how it is written, and how the first one is
 * found again. The payload is what stands before the first `-->`; what it means is not decided here.
 */
module HiddenBlock {
  import opened Wrappers
  import opened Text

  const OPENER := "<!--"
  const CLOSER := "-->"

  /** A tag that cannot be mistaken for whitespace or for the start of a comment. */
  ghost predicate Plain(tag: string) {
    tag != [] && !IsSpace(tag[0]) && forall i :: 0 <= i < |tag| ==> tag[i] != '<'
  }

  /** What stands behind the tag and the whitespace that must follow it. */
  function BehindLabel(tag: string, s: string): Option<string> {
    if !(tag <= s) then None
    else
      var behind := s[|tag|..];
      if behind == [] || !IsSpace(behind[0]) then None else Some(TrimStart(behind))
  }

  /** What stands behind an opening marker at the start of the text. */
  function BehindOpener(tag: string, s: string): Option<string> {
    if OPENER <= s then BehindLabel(tag, TrimStart(s[4..])) else None
  }

  function PayloadAt(tag: string, s: string): Option<string> {
    match BehindOpener(tag, s)
    case None => None
    case Some(behind) => UpToArrow(behind)
  }

  function FirstPayload(tag: string, s: string): Option<string> {
    if s == [] then None
    else if PayloadAt(tag, s).Some? then PayloadAt(tag, s)
    else FirstPayload(tag, s[1..])
  }

  /** The text of a block, up to its payload. */
  function Opening(tag: string, rest: string): string {
    OPENER + (" " + (tag + (" " + rest)))
  }

  /** A text that starts with an opening marker, whether or not it is ever closed. */
  predicate Opens(tag: string, s: string) {
    BehindOpener(tag, s).Some?
  }

  ghost predicate NoOpening(tag: string, s: string) {
    forall i {:trigger Opens(tag, s[i..])} :: 0 <= i < |s| ==> !Opens(tag, s[i..])
  }

  /** A text that starts with an opening marker with `-->` somewhere behind it. */
  ghost predicate StartsWithBlock(tag: string, s: string) {
    Opens(tag, s) && Arrow(BehindOpener(tag, s).value)
  }

  ghost predicate HasBlock(tag: string, s: string) {
    exists i {:trigger StartsWithBlock(tag, s[i..])} :: 0 <= i <= |s| && StartsWithBlock(tag, s[i..])
  }

  lemma LiteralStaysWithin(literal: string, a: string, t: string)
    requires t != [] && t[0] == '<' && literal <= a + t
    requires forall i :: 0 <= i < |literal| && literal[i] == '<' ==> i < |a|
    ensures literal <= a
  {
    assert forall i :: 0 <= i < |literal| ==> literal[i] == (a + t)[i];
    assert (a + t)[|a|] == '<';
  }

  lemma LabelStaysWithin(tag: string, inner: string, t: string)
    requires Plain(tag) && t != [] && t[0] == '<' && BehindLabel(tag, inner + t).Some?
    ensures BehindLabel(tag, inner).Some?
  {
    LiteralStaysWithin(tag, inner, t);
    assert (inner + t)[|tag|..] == inner[|tag|..] + t;
  }

  /** An opening marker contains no `<` but its first, so it does not reach into a text that starts with one. */
  lemma OpeningStaysWithin(tag: string, a: string, t: string)
    requires Plain(tag) && a != [] && t != [] && t[0] == '<'
    ensures Opens(tag, a + t) ==> Opens(tag, a)
  {
    if Opens(tag, a + t) {
      OpenerStaysWithin(a, t);
      TrimStartBefore(a[4..], t);
      LabelStaysWithin(tag, TrimStart(a[4..]), t);
    }
  }

  lemma OpenerStaysWithin(a: string, t: string)
    requires a != [] && t != [] && t[0] == '<' && OPENER <= a + t
    ensures OPENER <= a && (a + t)[4..] == a[4..] + t
  {
    LiteralStaysWithin(OPENER, a, t);
  }

  lemma FirstPayloadStep(tag: string, s: string)
    requires s != []
    ensures !Opens(tag, s) ==> FirstPayload(tag, s) == FirstPayload(tag, s[1..])
  {
  }

  lemma FirstPayloadHere(tag: string, s: string)
    requires s != []
    ensures PayloadAt(tag, s).Some? ==> FirstPayload(tag, s) == PayloadAt(tag, s)
  {
  }

  lemma NoOpeningStep(tag: string, a: string, t: string)
    requires Plain(tag) && NoOpening(tag, a) && a != [] && t != [] && t[0] == '<'
    ensures !Opens(tag, a + t) && NoOpening(tag, a[1..])
  {
    assert a[0..] == a && !Opens(tag, a[0..]);
    if Opens(tag, a + t) {
      OpeningStaysWithin(tag, a, t);
    }
    forall i | 0 <= i < |a| - 1
      ensures !Opens(tag, a[1..][i..])
    {
      assert a[1..][i..] == a[i + 1..];
    }
  }

  /** A text without opening markers, in front of one that starts afresh, is passed over. */
  lemma {:induction false} PrefixIsPassed(tag: string, a: string, t: string)
    requires Plain(tag) && NoOpening(tag, a) && t != [] && t[0] == '<'
    ensures FirstPayload(tag, a + t) == FirstPayload(tag, t)
  {
    if a == [] {
      assert a + t == t;
    } else {
      NoOpeningStep(tag, a, t);
      FirstPayloadStep(tag, a + t);
      assert (a + t)[1..] == a[1..] + t;
      PrefixIsPassed(tag, a[1..], t);
    }
  }

  lemma PayloadAtExactlyWhen(tag: string, s: string)
    ensures PayloadAt(tag, s).Some? <==> StartsWithBlock(tag, s)
  {
    if PayloadAt(tag, s).Some? {
      assert ArrowAt(BehindOpener(tag, s).value, |PayloadAt(tag, s).value|);
    }
  }

  /** A payload is found exactly when some place of the text opens a block that is closed. */
  lemma {:induction false} PayloadExactlyWhen(tag: string, s: string)
    ensures FirstPayload(tag, s).Some? <==> HasBlock(tag, s)
  {
    PayloadAtExactlyWhen(tag, s);
    assert s[0..] == s;
    if s == [] {
    } else if PayloadAt(tag, s).Some? {
      FirstPayloadHere(tag, s);
    } else {
      PayloadExactlyWhen(tag, s[1..]);
      HasBlockStep(tag, s);
    }
  }

  lemma HasBlockStep(tag: string, s: string)
    requires s != []
    ensures !StartsWithBlock(tag, s) ==> (HasBlock(tag, s) <==> HasBlock(tag, s[1..]))
  {
    assert s[0..] == s;
    assert forall i :: 0 < i <= |s| ==> s[i..] == s[1..][i - 1..];
    if HasBlock(tag, s[1..]) {
      var i :| 0 <= i <= |s[1..]| && StartsWithBlock(tag, s[1..][i..]);
      assert StartsWithBlock(tag, s[i + 1..]);
    }
  }

  /** Between the opening and what follows it, nothing is lost. */
  lemma OpeningOpens(tag: string, x: string)
    requires Plain(tag) && x != [] && !IsSpace(x[0])
    ensures BehindOpener(tag, Opening(tag, x)) == Some(x)
  {
    var labelled := tag + (" " + x);
    Unsplit(OPENER, " " + labelled);
    TrimStartDrops(" ", labelled);
    LabelOpens(tag, x);
  }

  lemma LabelOpens(tag: string, x: string)
    requires x != [] && !IsSpace(x[0])
    ensures BehindLabel(tag, tag + (" " + x)) == Some(x)
  {
    Unsplit(tag, " " + x);
    TrimStartDrops(" ", x);
  }

  lemma OpeningThen(tag: string, x: string, suffix: string)
    ensures Opening(tag, x) + suffix == Opening(tag, x + suffix)
  {
    Associative(OPENER, " " + (tag + (" " + x)), suffix);
    Associative(" ", tag + (" " + x), suffix);
    Associative(tag, " " + x, suffix);
    Associative(" ", x, suffix);
  }

  /** What stands behind the payload. */
  function Behind(suffix: string): string {
    " " + (CLOSER + suffix)
  }

  lemma ArrowBehind(j: string, suffix: string)
    ensures ArrowAt(j + Behind(suffix), |j| + 1)
    ensures UpToArrow(j + Behind(suffix)).Some?
  {
    assert Behind(suffix)[1] == '-' && Behind(suffix)[2] == '-' && Behind(suffix)[3] == '>';
    assert ArrowAt(j + Behind(suffix), |j| + 1);
  }

  /** The block is found behind any prefix that does not open one, and its payload ends at the first arrow. */
  lemma BlockFound(tag: string, prefix: string, j: string, suffix: string)
    requires Plain(tag) && NoOpening(tag, prefix) && j != [] && !IsSpace(j[0])
    ensures FirstPayload(tag, prefix + (Opening(tag, j + Behind("")) + suffix)) == UpToArrow(j + Behind(suffix))
  {
    OpeningThen(tag, j + Behind(""), suffix);
    Associative(j, Behind(""), suffix);
    assert Behind("") + suffix == Behind(suffix);
    OpeningPays(tag, j, suffix);
    PrefixIsPassed(tag, prefix, Opening(tag, j + Behind(suffix)));
  }

  lemma OpeningPays(tag: string, j: string, suffix: string)
    requires Plain(tag) && j != [] && !IsSpace(j[0])
    ensures Opening(tag, j + Behind(suffix)) != [] && Opening(tag, j + Behind(suffix))[0] == '<'
    ensures FirstPayload(tag, Opening(tag, j + Behind(suffix))) == UpToArrow(j + Behind(suffix))
  {
    OpeningOpens(tag, j + Behind(suffix));
    ArrowBehind(j, suffix);
    FirstPayloadHere(tag, Opening(tag, j + Behind(suffix)));
  }

  /** Without an arrow in it or across its end, the payload is read whole. */
  lemma FirstArrowBehind(j: string, suffix: string)
    requires !Arrow(j + " --")
    ensures UpToArrow(j + Behind(suffix)) == Some(j + " ")
  {
    var s := j + Behind(suffix);
    ArrowBehind(j, suffix);
    forall k | ArrowAt(s, k)
      ensures |j| + 1 <= k
    {
      assert k <= |j| ==> ArrowAt(j + " --", k);
    }
    var payload := UpToArrow(s).value;
    assert s[..|j| + 1] == j + " ";
    assert |payload| == |j| + 1 && payload == s[..|j| + 1];
  }

  /** With one in it, the payload is cut short. */
  lemma FirstArrowInside(j: string, tail: string)
    requires Arrow(j)
    ensures UpToArrow(j + tail).Some? && UpToArrow(j + tail).value < j
  {
    var k :| ArrowAt(j, k);
    assert ArrowAt(j + tail, k);
    var p := UpToArrow(j + tail).value;
    assert p == (j + tail)[..|p|] == j[..|p|];
  }

  /** One space at the end is all that is trimmed from a text without any other at its ends. */
  lemma TrimWhole(s: string)
    requires |s| > 1 && !IsSpace(s[0]) && !IsSpace(s[|s| - 2]) && s[|s| - 1] == ' '
    ensures Trim(s) == s[..|s| - 1]
  {
    assert TrimEnd(s[..|s| - 1]) == s[..|s| - 1];
  }

  lemma TrimCut(j: string, p: string)
    requires j != [] && !IsSpace(j[0]) && p < j
    ensures Trim(p) < j
  {
    assert p != [] ==> p[0] == j[0] && TrimStart(p) == p;
    assert TrimEnd(TrimStart(p)) <= p;
  }
}
