/**
 * The create marker `<!-- takumi:created=KEY -->`, and how it is found again in arbitrary text.
 *
 * The pattern is given twice: as a form (what a marker looks like) and as a scanner (how to find
 * the one marker a text starts with, if any). They are proved to agree, so that it does not
 * matter in which order a matcher tries the ways to read a marker: there is only one.
 */
module CreateMarker {
  import opened Wrappers
  import opened Text

  const OPENER := "<!--"
  const LABEL := "takumi:created="
  const CLOSER := "-->"

  predicate IsAlphanumeric(c: char) {
    'A' <= c <= 'Z' || 'a' <= c <= 'z' || '0' <= c <= '9'
  }

  predicate IsKeyChar(c: char) {
    IsAlphanumeric(c) || c == '.' || c == '_' || c == ':' || c == '-'
  }

  predicate ValidKey(key: string) {
    1 <= |key| <= 120 && IsAlphanumeric(key[0]) && forall i :: 0 <= i < |key| ==> IsKeyChar(key[i])
  }

  function Render(key: string): Result<string, string> {
    if ValidKey(key) then Ok(Rendered(key)) else Err("precondition")
  }

  function Rendered(key: string): string {
    Form(" ", key, " ")
  }

  /** What a marker looks like: any whitespace may stand around the label and the key. */
  function Form(before: string, key: string, after: string): string {
    OPENER + (before + (LABEL + (key + (after + CLOSER))))
  }

  /** A marker of this key, written in one of the ways it may be written. */
  ghost predicate IsMarker(m: string, key: string) {
    ValidKey(key) && exists before, after :: AllSpace(before) && AllSpace(after) && m == Form(before, key, after)
  }

  /** How many key characters a text starts with. */
  function KeyRun(s: string): (n: nat)
    ensures n <= |s| && forall i :: 0 <= i < n ==> IsKeyChar(s[i])
    ensures n < |s| ==> !IsKeyChar(s[n])
  {
    if s != [] && IsKeyChar(s[0]) then 1 + KeyRun(s[1..]) else 0
  }

  /** Where the key ends and what is left after the closer; key characters may run into the closer. */
  function ScanKey(s: string): (r: Option<(string, string)>)
    ensures r.Some? ==> |r.value.1| < |s|
  {
    var n := KeyRun(s);
    if n < |s| && s[n] == '>' then
      if n >= 2 && s[n - 2] == '-' && s[n - 1] == '-' then Some((s[..n - 2], s[n + 1..])) else None
    else
      var rest := TrimStart(s[n..]);
      if rest != s[n..] && CLOSER <= rest then Some((s[..n], rest[3..])) else None
  }

  /** The key of the marker that the text starts with, and the text after that marker. */
  function ScanMarker(s: string): (r: Option<(string, string)>)
    ensures r.Some? ==> |r.value.1| < |s|
  {
    if !(OPENER <= s) then None
    else
      var labelled := TrimStart(s[4..]);
      if !(LABEL <= labelled) then None
      else
        match ScanKey(labelled[15..])
        case None => None
        case Some((key, rest)) => if ValidKey(key) then Some((key, rest)) else None
  }

  /** Every create marker in a text, in order. */
  function ParseCreateMarkers(s: string): seq<string> {
    if s == [] then []
    else match ScanMarker(s)
      case Some((key, rest)) => [key] + ParseCreateMarkers(rest)
      case None => ParseCreateMarkers(s[1..])
  }

  predicate HasCreateMarker(s: string, key: string) {
    key in ParseCreateMarkers(s)
  }

  /** The first marker wins. */
  function CreateKeyOf(s: string): Option<string> {
    var keys := ParseCreateMarkers(s);
    if keys == [] then None else Some(keys[0])
  }

  lemma {:induction false} KeyRunIs(p: string, q: string)
    requires forall i :: 0 <= i < |p| ==> IsKeyChar(p[i])
    requires q == [] || !IsKeyChar(q[0])
    ensures KeyRun(p + q) == |p|
  {
    if p == [] {
      assert p + q == q;
    } else {
      assert (p + q)[1..] == p[1..] + q;
      KeyRunIs(p[1..], q);
    }
  }

  lemma FormThen(before: string, key: string, after: string, rest: string)
    ensures Form(before, key, after) + rest == OPENER + (before + (LABEL + (key + (after + (CLOSER + rest)))))
  {
    Associative(OPENER, before + (LABEL + (key + (after + CLOSER))), rest);
    Associative(before, LABEL + (key + (after + CLOSER)), rest);
    Associative(LABEL, key + (after + CLOSER), rest);
    Associative(key, after + CLOSER, rest);
    Associative(after, CLOSER, rest);
  }

  /** The key runs into the closer. */
  lemma ScanKeyTight(key: string, rest: string)
    requires ValidKey(key)
    ensures ScanKey(key + (CLOSER + rest)) == Some((key, rest))
  {
    var x, y := key + "--", ">" + rest;
    assert CLOSER + rest == "--" + y;
    Associative(key, "--", y);
    KeyRunIs(x, y);
    assert (x + y)[|x|..] == y && y[1..] == rest;
    assert (x + y)[..|x|] == x && x[..|key|] == key;
  }

  /** Whitespace ends the key. */
  lemma ScanKeyLoose(key: string, after: string, rest: string)
    requires ValidKey(key) && AllSpace(after) && after != []
    ensures ScanKey(key + (after + (CLOSER + rest))) == Some((key, rest))
  {
    var tail := CLOSER + rest;
    Unsplit(CLOSER, rest);
    KeyRunIs(key, after + tail);
    Unsplit(key, after + tail);
    TrimStartDrops(after, tail);
    assert (after + tail)[0] == after[0] && |after + tail| > |tail|;
  }

  lemma ScanKeyReads(key: string, after: string, rest: string)
    requires ValidKey(key) && AllSpace(after)
    ensures ScanKey(key + (after + (CLOSER + rest))) == Some((key, rest))
  {
    if after == [] {
      assert after + (CLOSER + rest) == CLOSER + rest;
      ScanKeyTight(key, rest);
    } else {
      ScanKeyLoose(key, after, rest);
    }
  }

  lemma ScanMarkerReads(m: string, key: string, rest: string)
    requires IsMarker(m, key)
    ensures ScanMarker(m + rest) == Some((key, rest))
  {
    var before, after :| AllSpace(before) && AllSpace(after) && m == Form(before, key, after);
    FormThen(before, key, after, rest);
    var keyed := key + (after + (CLOSER + rest));
    assert (m + rest)[4..] == before + (LABEL + keyed);
    TrimStartDrops(before, LABEL + keyed);
    assert (LABEL + keyed)[15..] == keyed;
    ScanKeyReads(key, after, rest);
  }

  lemma ScanKeyTightSound(s: string, n: nat)
    requires 2 <= n < |s| && s[n - 2] == '-' && s[n - 1] == '-' && s[n] == '>'
    ensures s == s[..n - 2] + (CLOSER + s[n + 1..])
  {
    assert s[n - 2..] == CLOSER + s[n + 1..];
    Split(s[..n - 2], s);
  }

  lemma ScanKeySound(s: string, key: string, rest: string) returns (after: string)
    requires ScanKey(s) == Some((key, rest))
    ensures AllSpace(after) && s == key + (after + (CLOSER + rest))
  {
    var n := KeyRun(s);
    if n < |s| && s[n] == '>' {
      after := [];
      ScanKeyTightSound(s, n);
      assert after + (CLOSER + rest) == CLOSER + rest;
    } else {
      Split(s[..n], s);
      Split(CLOSER, TrimStart(s[n..]));
      after := Trimmed(s[n..]);
    }
  }

  lemma ScanMarkerSound(s: string, key: string, rest: string) returns (m: string)
    requires ScanMarker(s) == Some((key, rest))
    ensures IsMarker(m, key) && s == m + rest
  {
    var labelled := TrimStart(s[4..]);
    var before := Trimmed(s[4..]);
    var after := ScanKeySound(labelled[15..], key, rest);
    Split(OPENER, s);
    Split(LABEL, labelled);
    m := Form(before, key, after);
    FormThen(before, key, after, rest);
  }

  /** The scanner finds exactly the markers of that form. */
  lemma ScannerMeetsForm(s: string, key: string, rest: string)
    ensures ScanMarker(s) == Some((key, rest)) <==> exists m :: IsMarker(m, key) && s == m + rest
  {
    if ScanMarker(s) == Some((key, rest)) {
      var m := ScanMarkerSound(s, key, rest);
    }
    forall m | IsMarker(m, key) && s == m + rest
      ensures ScanMarker(s) == Some((key, rest))
    {
      ScanMarkerReads(m, key, rest);
    }
  }

  /** A text starts with at most one marker, so no order of trying can change what is found. */
  lemma MarkerIsUnique(m: string, key: string, rest: string, m': string, key': string, rest': string)
    requires IsMarker(m, key) && IsMarker(m', key') && m + rest == m' + rest'
    ensures m == m' && key == key' && rest == rest'
  {
    ScanMarkerReads(m, key, rest);
    ScanMarkerReads(m', key', rest');
    assert |m| == |m'| && (m + rest)[..|m|] == m && (m' + rest')[..|m|] == m';
  }

  predicate HasNoOpener(s: string) {
    forall i :: 0 <= i < |s| ==> s[i] != '<'
  }

  lemma NoOpenerJoin(a: string, b: string)
    requires HasNoOpener(a) && HasNoOpener(b)
    ensures HasNoOpener(a + b)
  {
  }

  /** Within a marker no other begins. */
  lemma MarkerOpensOnce(m: string, key: string)
    requires IsMarker(m, key)
    ensures m != [] && forall i :: 0 < i < |m| ==> m[i] != '<'
  {
    var before, after :| AllSpace(before) && AllSpace(after) && m == Form(before, key, after);
    NoOpenerJoin(after, CLOSER);
    NoOpenerJoin(key, after + CLOSER);
    NoOpenerJoin(LABEL, key + (after + CLOSER));
    NoOpenerJoin(before, LABEL + (key + (after + CLOSER)));
    NoOpenerJoin("!--", before + (LABEL + (key + (after + CLOSER))));
    Associative("<", "!--", before + (LABEL + (key + (after + CLOSER))));
  }

  /** So a marker does not reach from one text into another that starts with `<`. */
  lemma MarkerStaysWithin(a: string, c: string, m: string, key: string, rest: string)
    requires a != [] && (c == [] || c[0] == '<') && IsMarker(m, key) && a + c == m + rest
    ensures |m| <= |a|
  {
    assert forall i :: |a| <= i < |m| ==> (a + c)[i] == m[i];
    assert |m| > |a| ==> (a + c)[|a|] == c[0];
    MarkerOpensOnce(m, key);
  }

  /** What a text starts with is not affected by what follows it, if that starts afresh. */
  lemma ScanIgnoresWhatFollows(a: string, c: string)
    requires a != [] && (c == [] || c[0] == '<')
    ensures match ScanMarker(a)
      case Some((key, rest)) => ScanMarker(a + c) == Some((key, rest + c))
      case None => ScanMarker(a + c).None?
  {
    if ScanMarker(a).Some? {
      var (key, rest) := ScanMarker(a).value;
      var m := ScanMarkerSound(a, key, rest);
      Associative(m, rest, c);
      ScanMarkerReads(m, key, rest + c);
    } else if ScanMarker(a + c).Some? {
      var (key, rest) := ScanMarker(a + c).value;
      var m := ScanMarkerSound(a + c, key, rest);
      MarkerStaysWithin(a, c, m, key, rest);
      PrefixOf(m, rest, a, c);
      ScanMarkerReads(m, key, a[|m|..]);
      assert false;
    }
  }

  /** A text may be cut before any `<` (or at its end) without changing the markers in it. */
  lemma {:induction false} ParseCut(a: string, c: string)
    requires c == [] || c[0] == '<'
    ensures ParseCreateMarkers(a + c) == ParseCreateMarkers(a) + ParseCreateMarkers(c)
    decreases |a|
  {
    if a == [] {
      assert a + c == c;
    } else {
      ScanIgnoresWhatFollows(a, c);
      match ScanMarker(a)
      case Some((key, rest)) =>
        ParseCut(rest, c);
        Prepended(key, ParseCreateMarkers(rest), ParseCreateMarkers(c));
      case None =>
        assert (a + c)[1..] == a[1..] + c;
        ParseCut(a[1..], c);
    }
  }

  lemma Prepended(key: string, a: seq<string>, b: seq<string>)
    ensures [key] + (a + b) == ([key] + a) + b
  {
  }

  lemma ParseMarkerFirst(m: string, key: string, b: string)
    requires IsMarker(m, key)
    ensures ParseCreateMarkers(m + b) == [key] + ParseCreateMarkers(b)
  {
    ScanMarkerReads(m, key, b);
    MarkerOpensOnce(m, key);
  }

  lemma {:induction false} ParsedKeysAreValid(s: string)
    ensures forall i :: 0 <= i < |ParseCreateMarkers(s)| ==> ValidKey(ParseCreateMarkers(s)[i])
    decreases |s|
  {
    if s != [] {
      match ScanMarker(s)
      case Some((_, rest)) => ParsedKeysAreValid(rest);
      case None => ParsedKeysAreValid(s[1..]);
    }
  }

  /** A marker ends in `-->`, and in front of that stands whitespace or the last character of its key. */
  lemma MarkerEnds(m: string, key: string)
    requires IsMarker(m, key)
    ensures |m| >= 5 && ArrowAt(m, |m| - 3)
    ensures IsSpace(m[|m| - 4]) ==> IsSpace(m[|m| - 5]) || IsKeyChar(m[|m| - 5])
  {
    var before, after :| AllSpace(before) && AllSpace(after) && m == Form(before, key, after);
    var front := OPENER + (before + LABEL);
    assert m == front + (key + (after + CLOSER)) by {
      FormFront(before, key + (after + CLOSER));
    }
    TailEnds(front, key, after);
  }

  lemma FormFront(before: string, tail: string)
    ensures OPENER + (before + (LABEL + tail)) == (OPENER + (before + LABEL)) + tail
  {
    Associative(before, LABEL, tail);
    Associative(OPENER, before + LABEL, tail);
  }

  lemma TailEnds(front: string, key: string, after: string)
    requires ValidKey(key) && AllSpace(after) && |front| >= 1
    ensures
      var m := front + (key + (after + CLOSER));
      && |m| >= 5 && ArrowAt(m, |m| - 3)
      && (IsSpace(m[|m| - 4]) ==> IsSpace(m[|m| - 5]) || IsKeyChar(m[|m| - 5]))
  {
    var m := front + (key + (after + CLOSER));
    var k := |front| + |key|;
    assert forall i :: 0 <= i < 3 ==> m[k + |after| + i] == CLOSER[i];
    assert forall i :: 0 <= i < |after| ==> m[k + i] == after[i];
    assert m[k - 1] == key[|key| - 1];
  }

  /** The only `-->` stands at the end, behind a brace and a space (as far as the text reaches back). */
  ghost predicate EndsInBrace(s: string) {
    && (forall k :: ArrowAt(s, k) ==> k == |s| - 3)
    && (|s| >= 4 ==> s[|s| - 4] == ' ') && (|s| >= 5 ==> s[|s| - 5] == '}')
  }

  lemma NoMarkerEndsInBrace(m: string, key: string, rest: string)
    requires IsMarker(m, key)
    ensures !EndsInBrace(m + rest)
  {
    MarkerEnds(m, key);
    assert ArrowAt(m + rest, |m| - 3);
    if rest == [] {
      assert m + rest == m;
    }
  }

  lemma NoScanBeforeBrace(s: string)
    requires EndsInBrace(s)
    ensures ScanMarker(s).None?
  {
    if ScanMarker(s).Some? {
      var m := ScanMarkerSound(s, ScanMarker(s).value.0, ScanMarker(s).value.1);
      NoMarkerEndsInBrace(m, ScanMarker(s).value.0, ScanMarker(s).value.1);
    }
  }

  lemma EndsInBraceTail(s: string)
    requires s != [] && EndsInBrace(s)
    ensures EndsInBrace(s[1..])
  {
    assert forall k :: ArrowAt(s[1..], k) ==> ArrowAt(s, k + 1);
  }

  /** So such a text, the text of a hidden block among them, carries no marker. */
  lemma {:induction false} NoMarkerBeforeBrace(s: string)
    requires EndsInBrace(s)
    ensures ParseCreateMarkers(s) == []
  {
    if s != [] {
      NoScanBeforeBrace(s);
      EndsInBraceTail(s);
      NoMarkerBeforeBrace(s[1..]);
    }
  }

  /** A rendered marker is found wherever it is put, and changes nothing about its surroundings. */
  lemma MarkerHomomorphism(a: string, key: string, b: string)
    requires ValidKey(key)
    ensures ParseCreateMarkers(a + Rendered(key) + b) == ParseCreateMarkers(a) + [key] + ParseCreateMarkers(b)
  {
    var m := Rendered(key);
    assert IsMarker(m, key) && m[0] == '<';
    Associative(a, m, b);
    ParseCut(a, m + b);
    ParseMarkerFirst(m, key, b);
  }

  /** Appending a marker makes the text carry it; it names the creation if and only if none came before. */
  lemma CreateKeyOfExactlyWhen(a: string, key: string, b: string)
    requires ValidKey(key)
    ensures HasCreateMarker(a + Rendered(key) + b, key)
    ensures CreateKeyOf(a + Rendered(key) + b) == Some(key) <==> CreateKeyOf(a) == None || CreateKeyOf(a) == Some(key)
  {
    MarkerHomomorphism(a, key, b);
  }

  /** So a body that quotes another item's marker hides the key that is appended to it. */
  lemma QuotedMarkerHidesTheKey(quoted: string, between: string, key: string)
    requires ValidKey(quoted) && ValidKey(key)
    ensures CreateKeyOf(Rendered(quoted) + between + Rendered(key)) == Some(quoted)
  {
    Associative(Rendered(quoted), between, Rendered(key));
    assert IsMarker(Rendered(quoted), quoted);
    ParseMarkerFirst(Rendered(quoted), quoted, between + Rendered(key));
  }

  // Text that carries no marker of its own.

  lemma {:induction false} NoOpenerNoMarker(s: string)
    requires HasNoOpener(s)
    ensures ParseCreateMarkers(s) == []
  {
    if s != [] {
      StartsAlike(OPENER, s);
      NoOpenerNoMarker(s[1..]);
    }
  }

  /** A text that no `>` follows can be followed by nothing that completes a marker. */
  lemma ScanIgnoresQuietTail(a: string, c: string)
    requires forall i :: 0 <= i < |c| ==> c[i] != '>'
    ensures ScanMarker(a).Some? ==> ScanMarker(a + c) == Some((ScanMarker(a).value.0, ScanMarker(a).value.1 + c))
    ensures ScanMarker(a).None? ==> ScanMarker(a + c).None?
  {
    if ScanMarker(a).Some? {
      var (key, rest) := ScanMarker(a).value;
      var m := ScanMarkerSound(a, key, rest);
      Associative(m, rest, c);
      ScanMarkerReads(m, key, rest + c);
    } else if ScanMarker(a + c).Some? {
      var (key, rest) := ScanMarker(a + c).value;
      var m := ScanMarkerSound(a + c, key, rest);
      MarkerEndsBefore(a, c, m, key, rest);
      PrefixOf(m, rest, a, c);
      ScanMarkerReads(m, key, a[|m|..]);
      assert false;
    }
  }

  lemma MarkerEndsBefore(a: string, c: string, m: string, key: string, rest: string)
    requires (forall i :: 0 <= i < |c| ==> c[i] != '>') && IsMarker(m, key) && a + c == m + rest
    ensures |m| <= |a|
  {
    MarkerEnds(m, key);
    var last := |m| - 1;
    assert (m + rest)[last] == m[last] == '>';
    CharOfBoth(a, c, last);
  }

  lemma {:induction false} QuietTail(a: string, c: string)
    requires forall i :: 0 <= i < |c| ==> c[i] != '>' && c[i] != '<'
    ensures ParseCreateMarkers(a + c) == ParseCreateMarkers(a)
    decreases |a|
  {
    if a == [] {
      assert a + c == c;
      NoOpenerNoMarker(c);
    } else {
      ScanIgnoresQuietTail(a, c);
      match ScanMarker(a)
      case Some((key, rest)) =>
        QuietTail(rest, c);
      case None =>
        assert (a + c)[1..] == a[1..] + c;
        QuietTail(a[1..], c);
    }
  }

  /** A comment with another label, which nothing that opens a comment follows. */
  ghost predicate IsOther(s: string, other: string, rest: string) {
    && HasNoOpener(other) && HasNoOpener(rest)
    && other != [] && !IsSpace(other[0]) && |other| >= |LABEL| && !(LABEL <= other)
    && s == OPENER + (" " + (other + rest))
  }

  lemma OtherLabelNoScan(s: string, other: string, rest: string)
    requires IsOther(s, other, rest)
    ensures ScanMarker(s).None?
  {
    Unsplit(OPENER, " " + (other + rest));
    TrimStartDrops(" ", other + rest);
    StartsWithin(LABEL, other, rest);
  }

  lemma OtherOpensOnce(s: string, other: string, rest: string)
    requires IsOther(s, other, rest)
    ensures s != [] && forall i :: 0 < i < |s| ==> s[i] != '<'
  {
    NoOpenerJoin(other, rest);
    NoOpenerJoin(" ", other + rest);
    NoOpenerJoin("!--", " " + (other + rest));
    Associative("<", "!--", " " + (other + rest));
  }

  /** It is no marker. */
  lemma OtherCommentNoMarker(s: string, other: string, rest: string)
    requires IsOther(s, other, rest)
    ensures ParseCreateMarkers(s) == []
  {
    OtherLabelNoScan(s, other, rest);
    OtherOpensOnce(s, other, rest);
    NoOpenerNoMarker(s[1..]);
  }
}
