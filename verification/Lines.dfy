/** Text as lines: splitting at newlines and joining by them. */
module Lines {
  predicate NewlineFree(s: string) {
    forall i :: 0 <= i < |s| ==> s[i] != '\n'
  }

  predicate AllLines(lines: seq<string>) {
    forall i :: 0 <= i < |lines| ==> NewlineFree(lines[i])
  }

  function SplitLines(s: string): (lines: seq<string>)
    ensures lines != [] && AllLines(lines)
  {
    if s == [] then [""] else ConsLine(s[0], SplitLines(s[1..]))
  }

  /** One character in front of the first line, or a line break. */
  function ConsLine(c: char, lines: seq<string>): (r: seq<string>)
    requires lines != []
    ensures r != [] && (AllLines(lines) ==> AllLines(r))
  {
    if c == '\n' then [""] + lines else [[c] + lines[0]] + lines[1..]
  }

  lemma ConsAppend(c: char, a: seq<string>, b: seq<string>)
    requires a != []
    ensures ConsLine(c, a + b) == ConsLine(c, a) + b
  {
  }

  function JoinLines(lines: seq<string>): string {
    if lines == [] then ""
    else if |lines| == 1 then lines[0]
    else lines[0] + ("\n" + JoinLines(lines[1..]))
  }

  lemma {:induction false} JoinSplit(s: string)
    ensures JoinLines(SplitLines(s)) == s
  {
    if s != [] {
      JoinSplit(s[1..]);
      JoinCons(s[0], SplitLines(s[1..]));
      assert s == [s[0]] + s[1..];
    }
  }

  lemma JoinCons(c: char, lines: seq<string>)
    requires lines != []
    ensures JoinLines(ConsLine(c, lines)) == [c] + JoinLines(lines)
  {
    if c == '\n' {
      assert ([""] + lines)[1..] == lines;
    } else {
      assert ([[c] + lines[0]] + lines[1..])[1..] == lines[1..];
      if |lines| > 1 {
        var tail := "\n" + JoinLines(lines[1..]);
        assert ([c] + lines[0]) + tail == [c] + (lines[0] + tail);
      }
    }
  }

  lemma {:induction false} JoinAppend(a: seq<string>, b: seq<string>)
    requires a != [] && b != []
    ensures JoinLines(a + b) == JoinLines(a) + ("\n" + JoinLines(b))
  {
    assert (a + b)[1..] == a[1..] + b;
    if |a| > 1 {
      JoinAppend(a[1..], b);
      var x, y, z := a[0], JoinLines(a[1..]), "\n" + JoinLines(b);
      assert x + ("\n" + (y + z)) == (x + ("\n" + y)) + z;
    }
  }

  /** A newline between two texts separates their lines. */
  lemma {:induction false} SplitAppend(a: string, b: string)
    ensures SplitLines(a + ("\n" + b)) == SplitLines(a) + SplitLines(b)
  {
    if a == [] {
      assert a + ("\n" + b) == "\n" + b;
      assert ("\n" + b)[1..] == b;
    } else {
      SplitAppend(a[1..], b);
      assert (a + ("\n" + b))[1..] == a[1..] + ("\n" + b);
      ConsAppend(a[0], SplitLines(a[1..]), SplitLines(b));
    }
  }

  lemma {:induction false} SplitOne(line: string)
    requires NewlineFree(line)
    ensures SplitLines(line) == [line]
  {
    if line != [] {
      SplitOne(line[1..]);
      assert line == [line[0]] + line[1..];
    }
  }

  lemma {:induction false} SplitJoin(lines: seq<string>)
    requires lines != [] && AllLines(lines)
    ensures SplitLines(JoinLines(lines)) == lines
  {
    SplitOne(lines[0]);
    if |lines| > 1 {
      SplitJoin(lines[1..]);
      SplitAppend(lines[0], JoinLines(lines[1..]));
      assert lines == [lines[0]] + lines[1..];
    } else {
      assert lines == [lines[0]];
    }
  }
}
