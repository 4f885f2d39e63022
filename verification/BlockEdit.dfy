/**
 * Setting one line within a block of lines: the first block whose head line is the one looked for. A
 * line of the block that already holds the value is rewritten, otherwise one is added at its end.
 * What heads, ends and values look like is left open.
 */
module BlockEdit {
  import opened Wrappers

  type Lines = seq<string>
  type Test = string -> bool

  /** How lines are told apart: which end the block before them, and which hold the value. */
  datatype Grammar = Grammar(ends: Test, holds: Test)

  /** What is set: the block's head, how a line that holds the value is rewritten, and what is added else. */
  datatype Edit = Edit(head: Test, rewrite: string -> string, added: string)

  /** The first line from `i` on, before `end`, that passes. */
  function First(lines: Lines, i: nat, end: nat, p: Test): (r: Option<nat>)
    requires i <= end <= |lines|
    ensures r.Some? ==> i <= r.value < end && p(lines[r.value]) && forall j :: i <= j < r.value ==> !p(lines[j])
    ensures r.None? ==> forall j :: i <= j < end ==> !p(lines[j])
    decreases end - i
  {
    if i == end then None
    else if p(lines[i]) then Some(i)
    else First(lines, i + 1, end, p)
  }

  function SetBlock(block: Lines, g: Grammar, e: Edit): (r: Lines)
    ensures |block| <= |r| <= |block| + 1
  {
    match First(block, 0, |block|, g.holds)
    case Some(at) => block[at := e.rewrite(block[at])]
    case None => block + [e.added]
  }

  function SetLines(lines: Lines, g: Grammar, e: Edit): Option<Lines> {
    match First(lines, 0, |lines|, e.head)
    case None => None
    case Some(start) =>
      var end := First(lines, start + 1, |lines|, g.ends).GetOr(|lines|);
      Some(lines[..start + 1] + (SetBlock(lines[start + 1..end], g, e) + lines[end..]))
  }

  lemma {:induction false} FirstIs(lines: Lines, i: nat, end: nat, p: Test, k: nat)
    requires i <= k < end <= |lines| && p(lines[k]) && forall j :: i <= j < k ==> !p(lines[j])
    ensures First(lines, i, end, p) == Some(k)
    decreases end - i
  {
    if i < k {
      FirstIs(lines, i + 1, end, p, k);
    }
  }

  lemma {:induction false} FirstIsNone(lines: Lines, i: nat, end: nat, p: Test)
    requires i <= end <= |lines| && forall j :: i <= j < end ==> !p(lines[j])
    ensures First(lines, i, end, p) == None
    decreases end - i
  {
    if i < end {
      FirstIsNone(lines, i + 1, end, p);
    }
  }

  /** Searching a part of the lines, and searching that part alone. */
  lemma FirstInSlice(lines: Lines, lo: nat, end: nat, p: Test)
    requires lo <= end <= |lines|
    ensures
      var r, s := First(lines, lo, end, p), First(lines[lo..end], 0, end - lo, p);
      s == if r.Some? then Some(r.value - lo) else None
  {
    var part, r := lines[lo..end], First(lines, lo, end, p);
    assert forall j :: 0 <= j < end - lo ==> part[j] == lines[lo + j];
    if r.Some? {
      FirstIs(part, 0, end - lo, p, r.value - lo);
    } else {
      FirstIsNone(part, 0, end - lo, p);
    }
  }

  method FindFirst(lines: Lines, from: nat, end: nat, p: Test) returns (r: Option<nat>)
    requires from <= end <= |lines|
    ensures r == First(lines, from, end, p)
  {
    for i := from to end
      invariant forall j :: from <= j < i ==> !p(lines[j])
    {
      if p(lines[i]) {
        FirstIs(lines, from, end, p, i);
        return Some(i);
      }
    }
    FirstIsNone(lines, from, end, p);
    return None;
  }

  lemma ReplaceInBlock(lines: Lines, start: nat, end: nat, i: nat, line: string)
    requires start < i < end <= |lines|
    ensures lines[i := line] == lines[..start + 1] + (lines[start + 1..end][i - start - 1 := line] + lines[end..])
  {
  }

  lemma InsertBehindBlock(lines: Lines, start: nat, end: nat, line: string)
    requires start < end <= |lines|
    ensures lines[..end] + [line] + lines[end..] ==
      lines[..start + 1] + ((lines[start + 1..end] + [line]) + lines[end..])
  {
    assert lines[..end] == lines[..start + 1] + lines[start + 1..end];
  }

  /** Within a block, rewrite the line that holds the value in place, or insert one at its end. */
  method EditBlock(input: Lines, start: nat, end: nat, g: Grammar, e: Edit) returns (lines: Lines)
    requires start < end <= |input|
    ensures lines == input[..start + 1] + (SetBlock(input[start + 1..end], g, e) + input[end..])
  {
    lines := input;
    var holder := FindFirst(lines, start + 1, end, g.holds);
    FirstInSlice(lines, start + 1, end, g.holds);
    if holder.Some? {
      var line := e.rewrite(lines[holder.value]);
      ReplaceInBlock(lines, start, end, holder.value, line);
      lines := lines[holder.value := line];
    } else {
      InsertBehindBlock(lines, start, end, e.added);
      lines := lines[..end] + [e.added] + lines[end..];
    }
  }

  /** Find the block, and edit it; without a head that is looked for there is nothing to edit. */
  method EditLines(input: Lines, g: Grammar, e: Edit) returns (r: Option<Lines>)
    ensures r == SetLines(input, g, e)
  {
    var found := FindFirst(input, 0, |input|, e.head);
    if found.None? {
      return None;
    }
    var start := found.value;
    var next := FindFirst(input, start + 1, |input|, g.ends);
    var lines := EditBlock(input, start, next.GetOr(|input|), g, e);
    return Some(lines);
  }

  // A document taken apart.

  /** The lines before the block's head, the head, the block, and the lines behind it. */
  datatype Parts = Parts(pre: Lines, head: string, block: Lines, post: Lines) {
    function Whole(): Lines {
      pre + ([head] + (block + post))
    }

    ghost predicate For(g: Grammar, head: Test) {
      && (forall j :: 0 <= j < |pre| ==> !head(pre[j]))
      && head(this.head)
      && (forall j :: 0 <= j < |block| ==> !g.ends(block[j]))
      && (post != [] ==> g.ends(post[0]))
    }
  }

  lemma WholeAt(d: Parts)
    ensures
      var lines, n, end := d.Whole(), |d.pre|, |d.pre| + 1 + |d.block|;
      && |lines| == end + |d.post|
      && lines[..n + 1] == d.pre + [d.head] && lines[n + 1..end] == d.block && lines[end..] == d.post
      && lines[..n] == d.pre && lines[n] == d.head
  {
    var tail := d.block + d.post;
    assert d.Whole() == (d.pre + [d.head]) + tail;
  }

  lemma SlicesAgree(lines: Lines, lo: nat, hi: nat, part: Lines)
    requires lo <= hi <= |lines| && lines[lo..hi] == part
    ensures forall j :: lo <= j < hi ==> lines[j] == part[j - lo]
  {
    assert forall j :: lo <= j < hi ==> lines[j] == lines[lo..hi][j - lo];
  }

  /** Where the searches for the head and for the end of the block arrive. */
  lemma SearchParts(d: Parts, g: Grammar, head: Test)
    requires d.For(g, head)
    ensures
      var lines, n := d.Whole(), |d.pre|;
      && First(lines, 0, |lines|, head) == Some(n) && n < |lines|
      && First(lines, n + 1, |lines|, g.ends).GetOr(|lines|) == n + 1 + |d.block|
  {
    var lines, n, end := d.Whole(), |d.pre|, |d.pre| + 1 + |d.block|;
    WholeAt(d);
    SlicesAgree(lines, 0, n, d.pre);
    SlicesAgree(lines, n + 1, end, d.block);
    SlicesAgree(lines, end, |lines|, d.post);
    FirstIs(lines, 0, |lines|, head, n);
    if d.post == [] {
      FirstIsNone(lines, n + 1, |lines|, g.ends);
    } else {
      FirstIs(lines, n + 1, |lines|, g.ends, end);
    }
  }

  lemma WholeIs(pre: Lines, head: string, rest: Lines)
    ensures (pre + [head]) + rest == pre + ([head] + rest)
  {
  }

  /** Setting changes the block, and nothing around it. */
  lemma SetParts(d: Parts, g: Grammar, e: Edit)
    requires d.For(g, e.head)
    ensures SetLines(d.Whole(), g, e) == Some(d.(block := SetBlock(d.block, g, e)).Whole())
  {
    var n, edited := |d.pre|, SetBlock(d.block, g, e);
    SearchParts(d, g, e.head);
    SetLinesAt(d.Whole(), g, e, n, n + 1 + |d.block|);
    WholeAt(d);
    WholeIs(d.pre, d.head, edited + d.post);
    assert d.(block := edited).Whole() == d.pre + ([d.head] + (edited + d.post));
  }

  lemma SetLinesAt(lines: Lines, g: Grammar, e: Edit, start: nat, end: nat)
    requires start < |lines| && First(lines, 0, |lines|, e.head) == Some(start)
    requires First(lines, start + 1, |lines|, g.ends).GetOr(|lines|) == end
    ensures start < end <= |lines|
    ensures SetLines(lines, g, e) == Some(lines[..start + 1] + (SetBlock(lines[start + 1..end], g, e) + lines[end..]))
  {
  }

  function SliceAt(lines: Lines, start: nat, end: nat): Parts
    requires start < end <= |lines|
  {
    Parts(lines[..start], lines[start], lines[start + 1..end], lines[end..])
  }

  lemma SliceIsWhole(lines: Lines, start: nat, end: nat)
    requires start < end <= |lines|
    ensures SliceAt(lines, start, end).Whole() == lines
  {
    assert lines[start..] == [lines[start]] + lines[start + 1..];
    assert lines[start + 1..] == lines[start + 1..end] + lines[end..];
    assert lines == lines[..start] + lines[start..];
  }

  lemma SliceIsFor(lines: Lines, start: nat, end: nat, g: Grammar, head: Test)
    requires start < end <= |lines| && head(lines[start]) && forall j :: 0 <= j < start ==> !head(lines[j])
    requires (forall j :: start < j < end ==> !g.ends(lines[j])) && (end < |lines| ==> g.ends(lines[end]))
    ensures SliceAt(lines, start, end).For(g, head)
  {
    var d := SliceAt(lines, start, end);
    assert forall j :: 0 <= j < |d.block| ==> d.block[j] == lines[start + 1 + j];
  }

  /** Every document with such a block comes apart like this. */
  lemma TakeApart(lines: Lines, g: Grammar, head: Test) returns (d: Parts)
    requires exists i :: 0 <= i < |lines| && head(lines[i])
    ensures d.For(g, head) && d.Whole() == lines
  {
    FirstIsNoneOnlyIf(lines, head);
    var start := First(lines, 0, |lines|, head).value;
    var end := First(lines, start + 1, |lines|, g.ends).GetOr(|lines|);
    d := SliceAt(lines, start, end);
    SliceIsFor(lines, start, end, g, head);
    SliceIsWhole(lines, start, end);
  }

  lemma FirstIsNoneOnlyIf(lines: Lines, p: Test)
    ensures First(lines, 0, |lines|, p).None? <==> forall i :: 0 <= i < |lines| ==> !p(lines[i])
  {
  }

  /** One line changed: the first that holds the value is rewritten, or without one a line is added. */
  ghost predicate OneLineSet(block: Lines, block': Lines, g: Grammar, e: Edit) {
    if exists j :: 0 <= j < |block| && g.holds(block[j])
    then exists j :: 0 <= j < |block| && g.holds(block[j]) && (forall i :: 0 <= i < j ==> !g.holds(block[i])) &&
                     block' == block[j := e.rewrite(block[j])]
    else block' == block + [e.added]
  }

  lemma SetBlockSetsOneLine(block: Lines, g: Grammar, e: Edit)
    ensures OneLineSet(block, SetBlock(block, g, e), g, e)
  {
    FirstIsNoneOnlyIf(block, g.holds);
  }

  /** Setting succeeds exactly where the head is found, and changes one line of its block and no other. */
  lemma SetChangesOneLine(lines: Lines, g: Grammar, e: Edit) returns (d: Parts, block: Lines)
    ensures SetLines(lines, g, e).Some? <==> exists i :: 0 <= i < |lines| && e.head(lines[i])
    ensures SetLines(lines, g, e).Some? ==>
      && d.For(g, e.head) && OneLineSet(d.block, block, g, e)
      && lines == d.Whole() && SetLines(lines, g, e) == Some(d.(block := block).Whole())
  {
    d, block := Parts([], "", [], []), [];
    FirstIsNoneOnlyIf(lines, e.head);
    if SetLines(lines, g, e).Some? {
      d := TakeApart(lines, g, e.head);
      SetParts(d, g, e);
      block := SetBlock(d.block, g, e);
      SetBlockSetsOneLine(d.block, g, e);
    }
  }

  // Setting twice.

  /** A line that is rewritten or added holds the value, and stays within its block. */
  ghost predicate Proper(g: Grammar, e: Edit) {
    RewritesProperly(g, e) && g.holds(e.added) && !g.ends(e.added) && HeadsEnd(g, e)
  }

  ghost predicate RewritesProperly(g: Grammar, e: Edit) {
    forall line {:trigger e.rewrite(line)} ::
      g.holds(line) && !g.ends(line) ==> g.holds(e.rewrite(line)) && !g.ends(e.rewrite(line))
  }

  ghost predicate HeadsEnd(g: Grammar, e: Edit) {
    forall line :: e.head(line) ==> g.ends(line)
  }

  /** What the second edit writes does not depend on what the first one wrote. */
  ghost predicate Overwrites(g: Grammar, first: Edit, second: Edit) {
    && (forall line {:trigger first.rewrite(line)} ::
          g.holds(line) && !g.ends(line) ==> second.rewrite(first.rewrite(line)) == second.rewrite(line))
    && second.rewrite(first.added) == second.added
  }

  lemma SetBlockKeeps(block: Lines, g: Grammar, e: Edit)
    requires Proper(g, e) && forall j :: 0 <= j < |block| ==> !g.ends(block[j])
    ensures forall j :: 0 <= j < |SetBlock(block, g, e)| ==> !g.ends(SetBlock(block, g, e)[j])
  {
  }

  lemma SetBlockTwice(block: Lines, g: Grammar, first: Edit, second: Edit)
    requires Proper(g, first) && Overwrites(g, first, second) && forall j :: 0 <= j < |block| ==> !g.ends(block[j])
    ensures SetBlock(SetBlock(block, g, first), g, second) == SetBlock(block, g, second)
  {
    var once := SetBlock(block, g, first);
    match First(block, 0, |block|, g.holds)
    case Some(at) =>
      FirstIs(once, 0, |once|, g.holds, at);
    case None =>
      FirstIs(once, 0, |once|, g.holds, |block|);
  }

  /** The last write wins. */
  lemma SetTwice(lines: Lines, g: Grammar, first: Edit, second: Edit)
    requires Proper(g, first) && Overwrites(g, first, second) && first.head == second.head
    ensures match SetLines(lines, g, first)
      case Some(once) => SetLines(once, g, second) == SetLines(lines, g, second)
      case None => SetLines(lines, g, second) == None
  {
    FirstIsNoneOnlyIf(lines, first.head);
    if exists i :: 0 <= i < |lines| && first.head(lines[i]) {
      var d := TakeApart(lines, g, first.head);
      SetParts(d, g, first);
      SetParts(d, g, second);
      SetBlockKeeps(d.block, g, first);
      SetBlockTwice(d.block, g, first, second);
      SetParts(d.(block := SetBlock(d.block, g, first)), g, second);
    }
  }

  /** Two heads that no line matches both. */
  ghost predicate Distinct(a: Edit, b: Edit) {
    forall line :: !(a.head(line) && b.head(line))
  }

  /** The block of `d`, then `mid`, then the block of `d'`: what setting both gives. */
  function BothSet(d: Parts, mid: Lines, d': Parts, g: Grammar, a: Edit, b: Edit): Lines {
    d.pre + ([d.head] + (SetBlock(d.block, g, a) + (mid + ([d'.head] + (SetBlock(d'.block, g, b) + d'.post)))))
  }

  ghost predicate InOrder(d: Parts, mid: Lines, d': Parts, g: Grammar, a: Edit, b: Edit) {
    && d.For(g, a.head) && d'.For(g, b.head) && Proper(g, a) && Proper(g, b) && Distinct(a, b)
    && d.post == mid + ([d'.head] + (d'.block + d'.post))
    && d'.pre == d.pre + ([d.head] + (d.block + mid))
  }

  lemma SetEarlierFirst(d: Parts, mid: Lines, d': Parts, g: Grammar, a: Edit, b: Edit)
    requires InOrder(d, mid, d', g, a, b)
    ensures SetLines(d.Whole(), g, a).Some?
    ensures SetLines(SetLines(d.Whole(), g, a).value, g, b) == Some(BothSet(d, mid, d', g, a, b))
  {
    var blockA := SetBlock(d.block, g, a);
    SetParts(d, g, a);
    SetBlockKeeps(d.block, g, a);
    var once := Parts(d.pre + ([d.head] + (blockA + mid)), d'.head, d'.block, d'.post);
    Regroup(d.pre, d.head, blockA, mid, [d'.head] + (d'.block + d'.post));
    NotBefore(d, blockA, mid, g, a, b);
    SetParts(once, g, b);
    Regroup(d.pre, d.head, blockA, mid, [d'.head] + (SetBlock(d'.block, g, b) + d'.post));
  }

  lemma SetLaterFirst(d: Parts, mid: Lines, d': Parts, g: Grammar, a: Edit, b: Edit)
    requires InOrder(d, mid, d', g, a, b)
    ensures SetLines(d'.Whole(), g, b).Some?
    ensures SetLines(SetLines(d'.Whole(), g, b).value, g, a) == Some(BothSet(d, mid, d', g, a, b))
  {
    var tail := [d'.head] + (SetBlock(d'.block, g, b) + d'.post);
    SetParts(d', g, b);
    Regroup(d.pre, d.head, d.block, mid, tail);
    StillEnds(d.post, mid, d'.head, d'.block + d'.post, SetBlock(d'.block, g, b) + d'.post);
    SetParts(Parts(d.pre, d.head, d.block, mid + tail), g, a);
  }

  lemma StillEnds(post: Lines, mid: Lines, head: string, rest: Lines, rest': Lines)
    requires post == mid + ([head] + rest)
    ensures (mid + ([head] + rest'))[0] == post[0]
  {
  }

  /** A later block is not affected by what is set in an earlier one, nor the other way round. */
  lemma SetInOrder(d: Parts, d': Parts, g: Grammar, a: Edit, b: Edit)
    requires d.For(g, a.head) && d'.For(g, b.head) && Proper(g, a) && Proper(g, b) && Distinct(a, b)
    requires |d.pre| < |d'.pre| && d.Whole() == d'.Whole()
    ensures
      && SetLines(d.Whole(), g, a).Some? && SetLines(d.Whole(), g, b).Some?
      && SetLines(SetLines(d.Whole(), g, a).value, g, b) == SetLines(SetLines(d.Whole(), g, b).value, g, a)
      && SetLines(SetLines(d.Whole(), g, a).value, g, b).Some?
  {
    var mid := Between(d, d', g, b.head);
    SetEarlierFirst(d, mid, d', g, a, b);
    SetLaterFirst(d, mid, d', g, a, b);
  }

  lemma Regroup(pre: Lines, head: string, block: Lines, mid: Lines, tail: Lines)
    ensures (pre + ([head] + (block + mid))) + tail == pre + ([head] + (block + (mid + tail)))
  {
  }

  /** The lines between the block of one and the head of the other, which lies behind it. */
  lemma Between(d: Parts, d': Parts, g: Grammar, head': Test) returns (mid: Lines)
    requires |d.pre| < |d'.pre| && d.Whole() == d'.Whole()
    requires d'.For(g, head') && (forall line :: head'(line) ==> g.ends(line))
    requires forall j :: 0 <= j < |d.block| ==> !g.ends(d.block[j])
    ensures d.post == mid + ([d'.head] + (d'.block + d'.post))
    ensures d'.pre == d.pre + ([d.head] + (d.block + mid))
  {
    var lines, n, end := d.Whole(), |d.pre|, |d.pre| + 1 + |d.block|;
    WholeAt(d);
    WholeAt(d');
    SlicesAgree(lines, n + 1, end, d.block);
    assert g.ends(lines[|d'.pre|]);
    assert end <= |d'.pre|;
    mid := lines[end..|d'.pre|];
    assert lines[end..] == mid + lines[|d'.pre|..];
    assert lines[|d'.pre|..] == [d'.head] + (d'.block + d'.post);
    assert lines[..|d'.pre|] == lines[..n + 1] + (lines[n + 1..end] + mid);
    assert (d.pre + [d.head]) + (d.block + mid) == d.pre + ([d.head] + (d.block + mid));
  }

  /** Nothing that is set in the block before looks like the other head. */
  lemma NotBefore(d: Parts, blockA: Lines, mid: Lines, g: Grammar, a: Edit, b: Edit)
    requires Proper(g, b) && Distinct(a, b) && a.head(d.head)
    requires forall j :: 0 <= j < |blockA| ==> !g.ends(blockA[j])
    requires forall j :: 0 <= j < |d.pre + ([d.head] + (d.block + mid))| ==>
      !b.head((d.pre + ([d.head] + (d.block + mid)))[j])
    ensures forall j :: 0 <= j < |d.pre + ([d.head] + (blockA + mid))| ==>
      !b.head((d.pre + ([d.head] + (blockA + mid)))[j])
  {
    var before, now := d.pre + ([d.head] + (d.block + mid)), d.pre + ([d.head] + (blockA + mid));
    forall j | 0 <= j < |now|
      ensures !b.head(now[j])
    {
      if j < |d.pre| {
        assert now[j] == before[j];
      } else if j == |d.pre| {
        assert now[j] == d.head;
      } else if j < |d.pre| + 1 + |blockA| {
        assert now[j] == blockA[j - |d.pre| - 1];
      } else {
        var i := j - |d.pre| - 1 - |blockA|;
        assert now[j] == mid[i] == before[|d.pre| + 1 + |d.block| + i];
      }
    }
  }

  /** The order of setting two values in different blocks does not matter. */
  lemma SetCommutes(lines: Lines, g: Grammar, a: Edit, b: Edit)
    requires Proper(g, a) && Proper(g, b) && Distinct(a, b)
    requires SetLines(lines, g, a).Some? && SetLines(lines, g, b).Some?
    ensures SetLines(SetLines(lines, g, a).value, g, b) == SetLines(SetLines(lines, g, b).value, g, a)
    ensures SetLines(SetLines(lines, g, a).value, g, b).Some?
  {
    FirstIsNoneOnlyIf(lines, a.head);
    FirstIsNoneOnlyIf(lines, b.head);
    var d := TakeApart(lines, g, a.head);
    var d' := TakeApart(lines, g, b.head);
    WholeAt(d);
    WholeAt(d');
    if |d.pre| < |d'.pre| {
      SetInOrder(d, d', g, a, b);
    } else if |d'.pre| < |d.pre| {
      SetInOrder(d', d, g, b, a);
    } else {
      assert false;
    }
  }
}
