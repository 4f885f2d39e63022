/**
 * The machine property of a Notion page, which holds the create key and the state record side by
 * side. The host replaces it wholesale, so every write of a record carries the key along.
 */
module NotionRecord {
  import opened Wrappers
  import opened Text
  import opened BoardState
  import opened ProviderErrors
  import M = CreateMarker
  import H = HiddenBlock
  import J = JsonText
  import R = StateRecord

  const MAX_RICH_TEXT := 2000

  /** The marker that is carried in front of the record, if the property has one. */
  function Carried(text: string): string {
    match M.CreateKeyOf(text)
    case Some(key) => M.Rendered(key)
    case None => ""
  }

  /** The property after a record is written into it. */
  function WithRecord(text: string, r: R.BoardRecord): string {
    Carried(text) + R.Block(R.ToJson(r))
  }

  lemma CreateKeyIsValid(text: string)
    ensures M.CreateKeyOf(text).Some? ==> M.ValidKey(M.CreateKeyOf(text).value)
  {
    M.ParsedKeysAreValid(text);
  }

  /** The key that a property carries is not lost by a write, whatever record is written. */
  lemma WriteKeepsKey(text: string, r: R.BoardRecord)
    requires M.CreateKeyOf(text).Some?
    ensures M.CreateKeyOf(WithRecord(text, r)) == M.CreateKeyOf(text)
  {
    var key := M.CreateKeyOf(text).value;
    CreateKeyIsValid(text);
    assert M.IsMarker(M.Rendered(key), key);
    M.ParseMarkerFirst(M.Rendered(key), key, R.Block(R.ToJson(r)));
  }

  /** And none appears where none was, if the record can be read back. */
  lemma WriteAddsNoKey(text: string, r: R.BoardRecord)
    requires M.CreateKeyOf(text).None? && !J.ArrowInside(R.ToJson(r))
    ensures M.CreateKeyOf(WithRecord(text, r)) == None
  {
    var block := R.Block(R.ToJson(r));
    assert WithRecord(text, r) == block;
    BlockEndsInBrace(r);
    M.NoMarkerBeforeBrace(block);
  }

  lemma FrontAndObject(front: string, j: string)
    requires front != [] && front[|front| - 1] == ' ' && !Arrow(front)
    requires j != [] && j[|j| - 1] == '}' && !Arrow(j + " --")
    ensures M.EndsInBrace(front + (j + " -->"))
  {
    var s := front + (j + " -->");
    forall k | ArrowAt(s, k)
      ensures k == |s| - 3
    {
      ArrowIsWithin(front, j + " -->", k);
      assert k - |front| <= |j| ==> ArrowAt(j + " --", k - |front|);
    }
  }

  lemma FrontHasNoArrow()
    ensures !Arrow(H.OPENER + (" " + (R.LABEL + " ")))
  {
    assert forall i :: 0 <= i < |R.LABEL| ==> R.LABEL[i] != '-';
  }

  lemma BlockEndsInBrace(r: R.BoardRecord)
    requires !J.ArrowInside(R.ToJson(r))
    ensures M.EndsInBrace(R.Block(R.ToJson(r)))
  {
    var j := J.Stringify(R.ToJson(r));
    var front := H.OPENER + (" " + (R.LABEL + " "));
    assert H.Behind("") == " -->";
    R.ObjectEnds(R.ToJson(r).members, " -->");
    R.ArrowOfObject(R.ToJson(r).members);
    FrontHasNoArrow();
    FrontAndObject(front, j);
    Associative(R.LABEL, " ", j + " -->");
    Associative(" ", R.LABEL + " ", j + " -->");
    Associative(H.OPENER, " " + (R.LABEL + " "), j + " -->");
  }

  /** A create marker opens no state block. */
  lemma CarriedOpensNothing(text: string)
    ensures H.NoOpening(R.LABEL, Carried(text))
  {
    if M.CreateKeyOf(text).Some? {
      var key := M.CreateKeyOf(text).value;
      CreateKeyIsValid(text);
      MarkerOpensNothing(key);
    }
  }

  lemma MarkerOpensNothing(key: string)
    requires M.ValidKey(key)
    ensures H.NoOpening(R.LABEL, M.Rendered(key))
  {
    var m := M.Rendered(key);
    assert M.IsMarker(m, key);
    M.MarkerOpensOnce(m, key);
    forall i | 0 <= i < |m|
      ensures !H.Opens(R.LABEL, m[i..])
    {
      if i == 0 {
        assert m[0..] == m;
        MarkerIsNoBlock(key);
      } else {
        assert m[i..][0] == m[i];
      }
    }
  }

  lemma MarkerIsNoBlock(key: string)
    requires M.ValidKey(key)
    ensures !H.Opens(R.LABEL, M.Rendered(key))
  {
    var labelled := M.LABEL + (key + (" " + M.CLOSER));
    Unsplit(M.OPENER, " " + labelled);
    TrimStartDrops(" ", labelled);
    assert labelled[7] == M.LABEL[7] == 'c' && R.LABEL[7] == 'b';
  }

  /** The record is read back from beside the key exactly when none of its strings contains `-->`. */
  lemma WrittenReadsBack(text: string, r: R.BoardRecord)
    requires R.Valid(r)
    ensures R.ParseRecord(WithRecord(text, r)) == Ok(Some(r)) <==> !J.ArrowInside(R.ToJson(r))
    ensures R.ParseRecord(WithRecord(text, r)).Err? <==> J.ArrowInside(R.ToJson(r))
  {
    CarriedOpensNothing(text);
    R.RecordRoundTrip(Carried(text), r, "");
    assert R.Block(R.ToJson(r)) + "" == R.Block(R.ToJson(r));
  }

  function HolderOf(existing: Option<R.BoardRecord>): Option<string> {
    if existing.Some? then Some(existing.value.runId) else None
  }

  /** What can be read of a record that was written is that record. */
  lemma ReadsWhatWasWritten(text: string, r: R.BoardRecord)
    requires r.schema == R.SCHEMA && R.ParseRecord(WithRecord(text, r)).Ok?
    ensures R.ParseRecord(WithRecord(text, r)) == Ok(Some(r))
  {
    CarriedOpensNothing(text);
    assert R.Block(R.ToJson(r)) + "" == R.Block(R.ToJson(r));
    R.ReadBackIsWritten(Carried(text), r, "");
  }

  /**
   * A page as the adapter sees it. Unless it is `alone`, others write between any two of its
   * requests; unless the host has `answered`, any of them may fail before or after it took effect.
   */
  class NotionPage {
    const id: string
    const alone: bool
    const answered: bool
    var column: State
    var text: string

    constructor (id: string, alone: bool, answered: bool, column: State, text: string)
      ensures this.id == id && this.alone == alone && this.answered == answered
      ensures this.column == column && this.text == text
    {
      this.id, this.alone, this.answered, this.column, this.text := id, alone, answered, column, text;
    }

    /** The key that the property carries is still there. */
    twostate predicate KeepsKey()
      reads this
    {
      M.CreateKeyOf(old(text)).Some? ==> M.CreateKeyOf(text) == M.CreateKeyOf(old(text))
    }

    /** Other runs of the same adapter may move the item and write their records. */
    method Others()
      modifies this
      ensures KeepsKey()
      ensures alone ==> text == old(text) && column == old(column)
    {
      var writes: nat := Anything();
      while !alone && writes > 0
        invariant KeepsKey()
        invariant alone ==> text == old(text) && column == old(column)
      {
        column := Anything();
        var other: R.BoardRecord := Anything();
        if M.CreateKeyOf(text).Some? {
          WriteKeepsKey(text, other);
        }
        text := WithRecord(text, other);
        writes := writes - 1;
      }
    }

    /** The property and the column, as they are when the host answers. */
    method Fetch() returns (r: Result<(State, string), ErrorKind>)
      modifies this
      ensures KeepsKey() && (alone ==> text == old(text) && column == old(column))
      ensures r == Ok((column, text)) || (r == Err(Transport) && !answered)
    {
      Others();
      var reached: bool := Anything();
      return if reached || answered then Ok((column, text)) else Err(Transport);
    }

    /**
     * Write a record. The property is replaced by the key that was read and the record, and only
     * if both fit; a request that reports a failure may have been carried out.
     */
    method WriteState(record: R.BoardRecord) returns (r: Result<(), ErrorKind>)
      modifies this
      ensures KeepsKey()
      ensures record.item != id || record.schema != R.SCHEMA ==> r.Err? && text == old(text) && column == old(column)
      ensures r.Ok? ==> |text| <= MAX_RICH_TEXT
      ensures r.Ok? && R.Valid(record) ==>
        (R.ParseRecord(text) == Ok(Some(record)) <==> !J.ArrowInside(R.ToJson(record)))
      ensures alone ==> column == old(column) && (text == old(text) || text == WithRecord(old(text), record))
      ensures alone && r.Ok? ==> text == WithRecord(old(text), record)
      ensures alone && |WithRecord(old(text), record)| > MAX_RICH_TEXT ==> r.Err? && text == old(text)
      ensures alone && answered && record.item == id && record.schema == R.SCHEMA ==>
        (r.Ok? <==> |WithRecord(old(text), record)| <= MAX_RICH_TEXT)
    {
      if record.item != id {
        return Err(Precondition);
      }
      var block := R.Render(record);
      if block.Err? {
        return Err(Unclassified);
      }
      var page :- Fetch();
      var written := Carried(page.1) + block.value;
      if |written| > MAX_RICH_TEXT {
        return Err(Precondition);
      }
      Others();
      var reached: bool := Anything();
      var reported: bool := Anything();
      if reached || answered {
        if M.CreateKeyOf(page.1).Some? {
          WriteKeepsKey(page.1, record);
        }
        if R.Valid(record) {
          WrittenReadsBack(page.1, record);
        }
        text := written;
      }
      return if answered || (reached && reported) then Ok(()) else Err(Transport);
    }

    /** The column is patched in a request of its own. */
    method PatchColumn(to: State) returns (r: Result<(), ErrorKind>)
      modifies this
      ensures KeepsKey()
      ensures r.Ok? ==> column == to
      ensures r == Ok(()) || (r == Err(Transport) && !answered)
      ensures alone ==> text == old(text) && (column == old(column) || column == to)
    {
      Others();
      var reached: bool := Anything();
      var reported: bool := Anything();
      if reached || answered {
        column := to;
      }
      return if answered || (reached && reported) then Ok(()) else Err(Transport);
    }

    /** A record that is present and cannot be read is an error, not an unclaimed item. */
    method ReadState() returns (r: Result<(State, Option<R.BoardRecord>), ErrorKind>)
      modifies this
      ensures KeepsKey() && (alone ==> text == old(text) && column == old(column))
      ensures r.Ok? ==> R.ParseRecord(text) == Ok(r.value.1) && column == r.value.0
      ensures r.Err? ==> (r == Err(Transport) && !answered) || (r == Err(Unclassified) && R.ParseRecord(text).Err?)
    {
      var page :- Fetch();
      var record := R.ParseRecord(page.1);
      return if record.Ok? then Ok((page.0, record.value)) else Err(Unclassified);
    }

    /**
     * Claim for a run: read, decide, write, and read again to see who won. A claim that is told it
     * won has its run on record. Alone, it wins exactly when the claim rule accepts, and then the
     * column and the record say so; refused, it leaves the page as it was. A claim that failed for
     * another reason than a lost request has changed nothing exactly if the record was unreadable.
     */
    method Claim(runId: string, now: string, takeoverNote: string) returns (r: Result<bool, ErrorKind>)
      modifies this
      ensures KeepsKey()
      ensures r == Ok(true) ==>
        R.ParseRecord(text).Ok? && R.ParseRecord(text).value.Some? && R.ParseRecord(text).value.value.runId == runId
      ensures alone && r.Ok? ==> R.ParseRecord(old(text)).Ok?
      ensures alone && r.Ok? ==>
        var existing := R.ParseRecord(old(text)).value;
        match DecideClaim(old(column), HolderOf(existing), runId)
        case Refuse => !r.value && text == old(text) && column == old(column)
        case Accept(takeoverFrom) =>
          var note := if takeoverFrom.Some? then Some(takeoverNote) else None;
          r.value && column == Claimed && text == WithRecord(old(text), R.ClaimRecord(existing, id, runId, now, note))
      ensures alone && r.Err? && r.error != Transport ==>
        (text == old(text) && column == old(column) <==> R.ParseRecord(old(text)).Err?)
    {
      var page :- ReadState();
      var decision := DecideClaim(page.0, HolderOf(page.1), runId);
      if decision.Refuse? {
        return Ok(false);
      }
      var _ :- PatchColumn(Claimed);
      var note := if decision.takeoverFrom.Some? then Some(takeoverNote) else None;
      r := RecordClaim(R.ClaimRecord(page.1, id, runId, now, note));
    }

    /** Write the claim's record, and believe only what is read back. */
    method RecordClaim(record: R.BoardRecord) returns (r: Result<bool, ErrorKind>)
      requires record.schema == R.SCHEMA
      modifies this
      ensures KeepsKey()
      ensures r == Ok(true) ==>
        && R.ParseRecord(text).Ok? && R.ParseRecord(text).value.Some?
        && R.ParseRecord(text).value.value.runId == record.runId
      ensures alone ==> column == old(column)
      ensures alone && r.Ok? ==> r.value && text == WithRecord(old(text), record)
    {
      var _ :- WriteState(record);
      ghost var written := text;
      var confirmed :- ReadState();
      if alone {
        ReadsWhatWasWritten(old(text), record);
      }
      return Ok(confirmed.1.Some? && confirmed.1.value.runId == record.runId);
    }

    /**
     * Move the item, and carry the run and the facts of its record forward. The record of the page
     * that was read is parsed only after the column was patched. So, alone: a move that is not in
     * the table changes nothing; one that is in the table, of a page whose record cannot be read,
     * fails after it has moved the column; and unless a request got lost, a move that failed has
     * changed nothing exactly if it is not in the table.
     */
    method Transition(to: State, runId: string, note: Option<string>, now: string) returns (r: Result<(), ErrorKind>)
      modifies this
      ensures KeepsKey()
      ensures alone && r.Ok? ==>
        && CanTransition(old(column), to) && column == to && R.ParseRecord(old(text)).Ok?
        && text == WithRecord(old(text), R.MoveRecord(R.ParseRecord(old(text)).value, id, runId, now, note))
      ensures alone && !CanTransition(old(column), to) ==> r.Err? && text == old(text) && column == old(column)
      ensures alone && CanTransition(old(column), to) && R.ParseRecord(old(text)).Err? ==>
        && text == old(text)
        && (column == to || (r == Err(Transport) && !answered && column == old(column)))
        && (r == Err(Unclassified) || (r == Err(Transport) && !answered))
      ensures alone && r.Err? && r.error != Transport ==>
        (text == old(text) && column == old(column) <==> !CanTransition(old(column), to))
      ensures alone && answered ==>
        (r.Ok? <==>
          && CanTransition(old(column), to) && R.ParseRecord(old(text)).Ok?
          && var moved := R.MoveRecord(R.ParseRecord(old(text)).value, id, runId, now, note);
             |WithRecord(old(text), moved)| <= MAX_RICH_TEXT)
    {
      var page :- Fetch();
      if !CanTransition(page.0, to) {
        return Err(Precondition);
      }
      var _ :- PatchColumn(to);
      var record := R.ParseRecord(page.1);
      if record.Err? {
        return Err(Unclassified);
      }
      r := WriteState(R.MoveRecord(record.value, id, runId, now, note));
    }
  }

  /** A record whose note contains `-->` makes any page it is written to unreadable. */
  lemma ArrowNoteIsCorrupt(text: string, r: R.BoardRecord)
    requires R.Valid(r) && r.note.Some? && Arrow(r.note.value)
    ensures R.ParseRecord(WithRecord(text, r)).Err?
  {
    R.ArrowInNote(r);
    WrittenReadsBack(text, r);
  }

  /**
   * The half move is real: with nobody else about and every request answered, a page whose record
   * has `-->` in its note is moved from `claimed` to `pr_open`, and the call throws.
   */
  method MoveOfACorruptPage(record: R.BoardRecord) returns (before: State, after: State, r: Result<(), ErrorKind>)
    requires R.Valid(record) && record.note == Some("-->")
    ensures before == Claimed && after == PrOpen && r == Err(Unclassified)
  {
    assert ArrowAt("-->", 0);
    ArrowNoteIsCorrupt("", record);
    var page := new NotionPage(record.item, true, true, Claimed, WithRecord("", record));
    before := page.column;
    r := page.Transition(PrOpen, record.runId, None, record.updatedAt);
    after := page.column;
  }
}
