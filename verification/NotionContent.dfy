/**
 * A body as the content of a Notion page: one paragraph for each line, written in batches, any of
 * which may be cut short, and completed by a later run.
 */
module NotionContent {
  import opened Wrappers
  import opened ProviderErrors
  import opened Lines

  const MAX_RUN := 2000
  const MAX_BATCH := 100

  datatype Block = Paragraph(runs: seq<string>) | OtherBlock

  function PlainText(runs: seq<string>): string {
    if runs == [] then "" else runs[0] + PlainText(runs[1..])
  }

  /** A line in runs as long as the host takes them. */
  function Runs(line: string): seq<string>
    decreases |line|
  {
    if line == [] then []
    else if |line| <= MAX_RUN then [line]
    else [line[..MAX_RUN]] + Runs(line[MAX_RUN..])
  }

  predicate Fits(b: Block) {
    b.Paragraph? ==> forall i :: 0 <= i < |b.runs| ==> 1 <= |b.runs[i]| <= MAX_RUN
  }

  method ParagraphBlock(line: string) returns (b: Block)
    ensures b == Paragraph(Runs(line))
  {
    var runs := [];
    var at := 0;
    while at < |line|
      invariant 0 <= at <= |line|
      invariant runs + Runs(line[at..]) == Runs(line)
    {
      var end := if at + MAX_RUN < |line| then at + MAX_RUN else |line|;
      ghost var rest := line[at..];
      assert rest[..end - at] == line[at..end] && rest[end - at..] == line[end..];
      if |rest| <= MAX_RUN {
        assert line[at..end] == rest && Runs(line[end..]) == [];
        assert Runs(rest) == [rest] && (runs + [rest]) + [] == runs + [rest];
      } else {
        assert runs + [rest[..MAX_RUN]] + Runs(rest[MAX_RUN..]) == runs + ([rest[..MAX_RUN]] + Runs(rest[MAX_RUN..]));
      }
      runs := runs + [line[at..end]];
      at := end;
    }
    assert runs + [] == runs;
    return Paragraph(runs);
  }

  lemma {:induction false} RunsSpellTheLine(line: string)
    ensures PlainText(Runs(line)) == line && Fits(Paragraph(Runs(line)))
    decreases |line|
  {
    if |line| > MAX_RUN {
      RunsSpellTheLine(line[MAX_RUN..]);
      assert line == line[..MAX_RUN] + line[MAX_RUN..];
    } else if line != [] {
      assert PlainText([line]) == line + PlainText([]);
    }
  }

  function Paragraphs(lines: seq<string>): (blocks: seq<Block>)
    ensures |blocks| == |lines| && forall i :: 0 <= i < |lines| ==> blocks[i] == Paragraph(Runs(lines[i]))
  {
    seq(|lines|, i requires 0 <= i < |lines| => Paragraph(Runs(lines[i])))
  }

  function BodyBlocks(body: string): seq<Block> {
    if body == "" then [] else Paragraphs(SplitLines(body))
  }

  /** The texts of the paragraphs; other blocks carry none. */
  function Texts(blocks: seq<Block>): seq<string> {
    if blocks == [] then []
    else (if blocks[0].Paragraph? then [PlainText(blocks[0].runs)] else []) + Texts(blocks[1..])
  }

  function BlocksToText(blocks: seq<Block>): string {
    JoinLines(Texts(blocks))
  }

  lemma {:induction false} TextsAppend(a: seq<Block>, b: seq<Block>)
    ensures Texts(a + b) == Texts(a) + Texts(b)
  {
    if a == [] {
      assert a + b == b;
    } else {
      assert (a + b)[1..] == a[1..] + b;
      TextsAppend(a[1..], b);
    }
  }

  lemma {:induction false} ParagraphsReadBack(lines: seq<string>)
    ensures Texts(Paragraphs(lines)) == lines
  {
    if lines != [] {
      RunsSpellTheLine(lines[0]);
      assert Paragraphs(lines)[1..] == Paragraphs(lines[1..]);
      ParagraphsReadBack(lines[1..]);
    }
  }

  /** A body of any length is spelled exactly by its blocks, each of which the host takes. */
  lemma BodyReadsBack(body: string)
    ensures BlocksToText(BodyBlocks(body)) == body
    ensures forall i :: 0 <= i < |BodyBlocks(body)| ==> Fits(BodyBlocks(body)[i])
  {
    ParagraphsReadBack(SplitLines(body));
    JoinSplit(body);
    forall i | 0 <= i < |BodyBlocks(body)|
      ensures Fits(BodyBlocks(body)[i])
    {
      RunsSpellTheLine(SplitLines(body)[i]);
    }
  }

  // What a re-run appends to a page.

  /** The blocks that a page lacks, by the text it spells now. */
  function Missing(blocks: seq<Block>, body: string): seq<Block> {
    var existing := BlocksToText(blocks);
    if existing == body || !(existing <= body) then []
    else
      var written := if existing == "" then 0 else |SplitLines(existing)|;
      if written <= |BodyBlocks(body)| then BodyBlocks(body)[written..] else []
  }

  /** The page's paragraphs are the first lines of the body. */
  ghost predicate IsLinePrefix(blocks: seq<Block>, body: string) {
    var existing := BlocksToText(blocks);
    existing == body || if existing == "" then Texts(blocks) == [] else existing + "\n" <= body
  }

  /** What is behind a complete first part is its missing lines. */
  lemma MissingLines(existing: string, rest: string)
    requires existing != ""
    ensures
      var body := existing + ("\n" + rest);
      var written := |SplitLines(existing)|;
      written < |BodyBlocks(body)| && BodyBlocks(body)[written..] == Paragraphs(SplitLines(rest))
  {
    SplitAppend(existing, rest);
    LaterParagraphs(SplitLines(existing), SplitLines(rest));
  }

  lemma LaterParagraphs(a: seq<string>, b: seq<string>)
    ensures Paragraphs(a + b)[|a|..] == Paragraphs(b)
  {
  }

  lemma AppendedText(blocks: seq<Block>, lines: seq<string>)
    requires Texts(blocks) != [] && lines != []
    ensures BlocksToText(blocks + Paragraphs(lines)) == BlocksToText(blocks) + ("\n" + JoinLines(lines))
  {
    TextsAppend(blocks, Paragraphs(lines));
    ParagraphsReadBack(lines);
    JoinAppend(Texts(blocks), lines);
  }

  lemma CompletesPrefix(blocks: seq<Block>, body: string)
    requires body != "" && IsLinePrefix(blocks, body)
    ensures BlocksToText(blocks + Missing(blocks, body)) == body
  {
    var existing := BlocksToText(blocks);
    if existing == body {
      assert blocks + [] == blocks;
    } else if existing == "" {
      TextsAppend(blocks, BodyBlocks(body));
      assert BodyBlocks(body)[0..] == BodyBlocks(body);
      assert [] + Texts(BodyBlocks(body)) == Texts(BodyBlocks(body));
      BodyReadsBack(body);
    } else {
      var rest := body[|existing| + 1..];
      assert body == existing + ("\n" + rest);
      MissingLines(existing, rest);
      AppendedText(blocks, SplitLines(rest));
      JoinSplit(rest);
    }
  }

  /** What is missing is the paragraphs of the last lines, of all lines if the page spells nothing. */
  lemma MissingIsLastLines(blocks: seq<Block>, body: string) returns (lines: seq<string>)
    requires Missing(blocks, body) != []
    ensures Missing(blocks, body) == Paragraphs(lines) && lines != []
    ensures BlocksToText(blocks) == "" ==> JoinLines(lines) == body
  {
    var existing := BlocksToText(blocks);
    var written := if existing == "" then 0 else |SplitLines(existing)|;
    lines := SplitLines(body)[written..];
    if existing == "" {
      assert lines == SplitLines(body);
      JoinSplit(body);
    }
  }

  /** A text that a line end and more text were put behind is a proper part of the whole. */
  lemma ProperPart(existing: string, more: string)
    ensures existing == "" ==> existing + ("\n" + more) != more
    ensures existing + "\n" <= existing + ("\n" + more)
  {
    assert existing + ("\n" + more) == (existing + "\n") + more;
    assert |existing + ("\n" + more)| > |more|;
  }

  lemma CompletedBehind(blocks: seq<Block>, lines: seq<string>, body: string)
    requires Texts(blocks) != [] && lines != [] && BlocksToText(blocks + Paragraphs(lines)) == body
    requires BlocksToText(blocks) == "" ==> JoinLines(lines) == body
    ensures IsLinePrefix(blocks, body)
  {
    AppendedText(blocks, lines);
    ProperPart(BlocksToText(blocks), JoinLines(lines));
  }

  lemma CompletesOnlyPrefix(blocks: seq<Block>, body: string)
    requires BlocksToText(blocks + Missing(blocks, body)) == body
    ensures IsLinePrefix(blocks, body)
  {
    if Missing(blocks, body) == [] {
      assert blocks + [] == blocks;
    } else if Texts(blocks) == [] {
      assert BlocksToText(blocks) == "";
    } else {
      var lines := MissingIsLastLines(blocks, body);
      CompletedBehind(blocks, lines, body);
    }
  }

  /**
   * A re-run makes a page spell the body if and only if what the page spelled before was the
   * body's first lines, whole. Whatever else was there stays, and then the text is not the body.
   */
  lemma RerunCompletesExactlyWhen(blocks: seq<Block>, body: string)
    requires body != ""
    ensures BlocksToText(blocks + Missing(blocks, body)) == body <==> IsLinePrefix(blocks, body)
  {
    if IsLinePrefix(blocks, body) {
      CompletesPrefix(blocks, body);
    }
    if BlocksToText(blocks + Missing(blocks, body)) == body {
      CompletesOnlyPrefix(blocks, body);
    }
  }

  /** The text that a re-run reports for the page. */
  function ReportedText(blocks: seq<Block>, body: string): string {
    if Missing(blocks, body) == [] then BlocksToText(blocks) else body
  }

  /** The report is what the page spells if nothing was missing or whole first lines were there, and only then. */
  lemma ReportIsTrueExactlyWhen(blocks: seq<Block>, body: string)
    requires body != ""
    ensures ReportedText(blocks, body) == BlocksToText(blocks + Missing(blocks, body)) <==>
      Missing(blocks, body) == [] || IsLinePrefix(blocks, body)
  {
    RerunCompletesExactlyWhen(blocks, body);
    assert blocks + [] == blocks;
  }

  /** A page that holds only a part of the body's first line is reported as the body, but does not spell it. */
  lemma PartOfALineIsMisreported(part: string, more: string, rest: string)
    requires NewlineFree(part) && part != "" && NewlineFree(more) && more != ""
    ensures
      var blocks, body := BodyBlocks(part), (part + more) + ("\n" + rest);
      ReportedText(blocks, body) == body != BlocksToText(blocks + Missing(blocks, body))
  {
    var blocks, body := BodyBlocks(part), (part + more) + ("\n" + rest);
    BodyReadsBack(part);
    SplitOne(part);
    SplitAppend(part + more, rest);
    assert body == part + (more + ("\n" + rest));
    assert body[|part|] == more[0];
    assert (part + "\n")[|part|] == '\n';
    assert !IsLinePrefix(blocks, body);
    RerunCompletesExactlyWhen(blocks, body);
  }

  // The host, and the adapter that files pages there.

  /** How much of the body a page may carry between two runs: whole batches, or all of it. */
  ghost predicate Partial(blocks: seq<Block>, body: string) {
    var all := BodyBlocks(body);
    |blocks| <= |all| && blocks == all[..|blocks|] && (|blocks| == |all| || (|blocks| > 0 && |blocks| % MAX_BATCH == 0))
  }

  /** The first lines of a body, but not all of them: what they spell, and how the body goes on. */
  lemma FirstLines(body: string, k: nat)
    requires 2 <= k < |SplitLines(body)|
    ensures
      var existing := JoinLines(SplitLines(body)[..k]);
      && existing != "" && existing + "\n" <= body && existing != body && |SplitLines(existing)| == k
  {
    var lines := SplitLines(body);
    JoinSplit(body);
    assert lines == lines[..k] + lines[k..];
    JoinAppend(lines[..k], lines[k..]);
    SplitJoin(lines[..k]);
    assert lines[..k] == lines[..1] + lines[1..k];
    JoinAppend(lines[..1], lines[1..k]);
    var existing := JoinLines(lines[..k]);
    assert body == (existing + "\n") + JoinLines(lines[k..]);
  }

  lemma PartialIsPrefix(blocks: seq<Block>, body: string)
    requires Partial(blocks, body)
    ensures Missing(blocks, body) == BodyBlocks(body)[|blocks|..] && blocks + Missing(blocks, body) == BodyBlocks(body)
    ensures IsLinePrefix(blocks, body)
  {
    var all, k := BodyBlocks(body), |blocks|;
    assert all == all[..k] + all[k..];
    if k < |all| {
      FirstLines(body, k);
      assert blocks == Paragraphs(SplitLines(body)[..k]);
      ParagraphsReadBack(SplitLines(body)[..k]);
    } else {
      assert blocks == all && all[k..] == [];
      BodyReadsBack(body);
    }
  }

  class NotionHost {
    /** The content of each page, by the create key it was filed under. */
    var pages: map<string, seq<Block>>

    constructor ()
      ensures pages == map[]
    {
      pages := map[];
    }

    /** A request that reports a failure may have been carried out. */
    method Create(key: string, children: seq<Block>) returns (ok: bool)
      requires key !in pages && |children| <= MAX_BATCH && forall i :: 0 <= i < |children| ==> Fits(children[i])
      modifies this
      ensures pages == old(pages) || pages == old(pages)[key := children]
      ensures ok ==> pages == old(pages)[key := children]
    {
      var reached: bool := Anything();
      ok := Anything();
      if reached {
        pages := pages[key := children];
      }
      ok := ok && reached;
    }

    method Append(key: string, batch: seq<Block>) returns (ok: bool)
      requires key in pages && |batch| <= MAX_BATCH && forall i :: 0 <= i < |batch| ==> Fits(batch[i])
      modifies this
      ensures pages == old(pages) || pages == old(pages)[key := old(pages)[key] + batch]
      ensures ok ==> pages == old(pages)[key := old(pages)[key] + batch]
    {
      var reached: bool := Anything();
      ok := Anything();
      if reached {
        pages := pages[key := pages[key] + batch];
      }
      ok := ok && reached;
    }

    method Find(key: string) returns (r: Result<bool, ErrorKind>)
      ensures r.Ok? ==> (r.value <==> key in pages)
    {
      var reached: bool := Anything();
      return if reached then Ok(key in pages) else Err(Transport);
    }

    /** One part of a page's content, and where the next one starts. */
    method Children(key: string, cursor: nat) returns (r: Result<(seq<Block>, Option<nat>), ErrorKind>)
      requires key in pages && cursor <= |pages[key]|
      ensures r.Ok? ==>
        var (results, next) := r.value;
        && cursor + |results| <= |pages[key]| && results == pages[key][cursor..cursor + |results|]
        && (if cursor + |results| < |pages[key]| then next == Some(cursor + |results|) && results != []
            else next == None)
    {
      var reached: bool := Anything();
      if !reached {
        return Err(Transport);
      }
      var all := pages[key];
      var size: nat := Anything();
      var end := if 0 < size && cursor + size < |all| then cursor + size else |all|;
      return Ok((all[cursor..end], if end < |all| then Some(end) else None));
    }
  }

  class NotionBoard {
    const host: NotionHost

    constructor (host: NotionHost)
      ensures this.host == host
    {
      this.host := host;
    }

    /** Read a page's content, part by part, until the host names no further one or stops advancing. */
    method ReadBlocks(key: string) returns (r: Result<seq<Block>, ErrorKind>)
      requires key in host.pages
      ensures r.Ok? ==> r.value == host.pages[key]
    {
      var blocks := [];
      var cursor: nat := 0;
      while true
        invariant cursor <= |host.pages[key]| && blocks == host.pages[key][..cursor]
        decreases |host.pages[key]| - cursor
      {
        var part :- host.Children(key, cursor);
        blocks := blocks + part.0;
        if part.1.None? || part.1.value == cursor {
          return Ok(blocks);
        }
        cursor := part.1.value;
      }
    }

    /** Append in batches; a failure leaves whole batches, the last of which may have been refused. */
    method AppendBlocks(key: string, blocks: seq<Block>) returns (ok: bool)
      requires key in host.pages && forall i :: 0 <= i < |blocks| ==> Fits(blocks[i])
      modifies host
      ensures host.pages.Keys == old(host.pages.Keys)
      ensures forall other :: other in host.pages && other != key ==> host.pages[other] == old(host.pages)[other]
      ensures exists n :: 0 <= n <= |blocks| && (n == |blocks| || n % MAX_BATCH == 0) &&
                          host.pages[key] == old(host.pages)[key] + blocks[..n]
      ensures ok ==> host.pages[key] == old(host.pages)[key] + blocks
    {
      var at := 0;
      assert blocks[..0] == [];
      while at < |blocks|
        invariant 0 <= at <= |blocks| && (at == |blocks| || at % MAX_BATCH == 0)
        invariant host.pages.Keys == old(host.pages.Keys)
        invariant forall other :: other in host.pages && other != key ==> host.pages[other] == old(host.pages)[other]
        invariant host.pages[key] == old(host.pages)[key] + blocks[..at]
      {
        var end := if at + MAX_BATCH < |blocks| then at + MAX_BATCH else |blocks|;
        assert blocks[..end] == blocks[..at] + blocks[at..end];
        assert old(host.pages)[key] + blocks[..end] == (old(host.pages)[key] + blocks[..at]) + blocks[at..end];
        var done := host.Append(key, blocks[at..end]);
        if !done {
          return false;
        }
        at := end;
      }
      assert blocks[..at] == blocks;
      return true;
    }

    /**
     * Bring a page up to the body: only missing lines are appended, and what is there stays. The
     * text reported is the body whenever something was appended, and what the page spells otherwise.
     */
    method AdoptExisting(key: string, body: string) returns (r: Result<string, ErrorKind>)
      requires key in host.pages
      modifies host
      ensures host.pages.Keys == old(host.pages.Keys)
      ensures forall other :: other in host.pages && other != key ==> host.pages[other] == old(host.pages)[other]
      ensures var missing := Missing(old(host.pages)[key], body);
        && (exists n :: 0 <= n <= |missing| && (n == |missing| || n % MAX_BATCH == 0) &&
                        host.pages[key] == old(host.pages)[key] + missing[..n])
        && (r.Ok? ==> host.pages[key] == old(host.pages)[key] + missing
                      && r.value == ReportedText(old(host.pages)[key], body))
    {
      var page := host.pages[key];
      ghost var missing := Missing(page, body);
      assert missing[..0] == [] && page + [] == page;
      var blocks :- ReadBlocks(key);
      var existing := BlocksToText(blocks);
      if existing == body || !(existing <= body) {
        return Ok(existing);
      }
      var written := if existing == "" then 0 else |SplitLines(existing)|;
      var all := BodyBlocks(body);
      if written >= |all| {
        return Ok(existing);
      }
      BodyReadsBack(body);
      var ok := AppendBlocks(key, all[written..]);
      return if ok then Ok(body) else Err(Transport);
    }

    /**
     * File a page for a body under a create key, or complete the one that is there. Whatever is cut
     * short, the page carries whole batches of the body's lines or all of them, so that any later
     * run that returns normally leaves exactly the body, and nothing else is touched.
     */
    method CreateWork(key: string, body: string) returns (r: Result<string, ErrorKind>)
      requires key in host.pages ==> Partial(host.pages[key], body)
      modifies host
      ensures forall other :: other != key ==> (other in host.pages <==> other in old(host.pages))
      ensures forall other :: other != key && other in host.pages ==> host.pages[other] == old(host.pages)[other]
      ensures key in old(host.pages) ==> key in host.pages && old(host.pages)[key] <= host.pages[key]
      ensures key in host.pages ==> Partial(host.pages[key], body)
      ensures r.Ok? ==>
        key in host.pages && host.pages[key] == BodyBlocks(body) && BlocksToText(host.pages[key]) == body
      ensures r.Ok? ==> r.value == body
    {
      BodyReadsBack(body);
      var found :- host.Find(key);
      if found {
        PartialIsPrefix(host.pages[key], body);
        r := AdoptExisting(key, body);
      } else {
        r := FileNew(key, body);
      }
    }

    method FileNew(key: string, body: string) returns (r: Result<string, ErrorKind>)
      requires key !in host.pages
      modifies host
      ensures forall other :: other != key ==> (other in host.pages <==> other in old(host.pages))
      ensures forall other :: other != key && other in host.pages ==> host.pages[other] == old(host.pages)[other]
      ensures key in host.pages ==> Partial(host.pages[key], body)
      ensures r.Ok? ==> key in host.pages && host.pages[key] == BodyBlocks(body) && r.value == body
    {
      var blocks := BodyBlocks(body);
      BodyReadsBack(body);
      var first := if |blocks| > MAX_BATCH then MAX_BATCH else |blocks|;
      var created := host.Create(key, blocks[..first]);
      if !created {
        return Err(Transport);
      }
      if |blocks| > MAX_BATCH {
        var ok := AppendBlocks(key, blocks[MAX_BATCH..]);
        assert forall n :: 0 <= n <= |blocks| - MAX_BATCH ==>
          blocks[..MAX_BATCH] + blocks[MAX_BATCH..][..n] == blocks[..MAX_BATCH + n];
        if !ok {
          return Err(Transport);
        }
      }
      var read :- ReadBlocks(key);
      return Ok(BlocksToText(read));
    }
  }
}
