/**
 * The run state record in its hidden block `<!-- takumi:boardstate:v1 {...} -->`: how it is
 * written into a text, found there again, and validated.
 */
module StateRecord {
  import opened Wrappers
  import opened HiddenBlock
  import opened JsonText
  import opened Text

  const SCHEMA := 1
  const LABEL := "takumi:boardstate:v1"
  const EPOCH := "1970-01-01T00:00:00.000Z"

  datatype Reviewed = Reviewed(digest: string, head: string, base: string, policy: string,
                               ruleset: string, reviewer: string, requirement: string, at: string)

  datatype Approval = Approval(approver: Option<string>, at: string, digest: string, ref: string, note: Option<string>)

  datatype BoardRecord = BoardRecord(
    schema: int,
    runId: string,
    item: string,
    baseBranch: Option<string>,
    deliveryRef: Option<string>,
    branch: Option<string>,
    reviewed: Option<Reviewed>,
    approval: Option<Approval>,
    reviewRound: nat,
    updatedAt: string,
    note: Option<string>)

  /** Why a block that is present is not a record. */
  datatype Corrupt = Empty | NotJson | NotAnObject | Schema | RunId | Item | Round | ReviewedBlock | ApprovalBlock

  // Writing: a field that is absent is left out of the object.

  type Field = (string, Option<Json>)

  function Present(fields: seq<Field>): (members: seq<Member>) {
    if fields == [] then []
    else
      var (key, value) := fields[|fields| - 1];
      var front := Present(fields[..|fields| - 1]);
      if value.Some? then front + [Member(key, value.value)] else front
  }

  function Written(s: string): Option<Json> {
    Some(Str(s))
  }

  function WrittenIfAny(s: Option<string>): Option<Json> {
    if s.Some? then Some(Str(s.value)) else None
  }

  function ReviewedFields(r: Reviewed): seq<Field> {
    [("digest", Written(r.digest)), ("head", Written(r.head)), ("base", Written(r.base)), ("policy", Written(r.policy)),
     ("ruleset", Written(r.ruleset)), ("reviewer", Written(r.reviewer)), ("requirement", Written(r.requirement)),
     ("at", Written(r.at))]
  }

  function ApprovalFields(a: Approval): seq<Field> {
    [("by", if a.approver.Some? then Written(a.approver.value) else Some(Null)), ("at", Written(a.at)),
     ("digest", Written(a.digest)),
     ("ref", Written(a.ref)), ("note", WrittenIfAny(a.note))]
  }

  function RecordFields(r: BoardRecord): seq<Field> {
    [("schema", Some(Num(r.schema as real))), ("runId", Written(r.runId)), ("item", Written(r.item)),
     ("baseBranch", WrittenIfAny(r.baseBranch)), ("deliveryRef", WrittenIfAny(r.deliveryRef)),
     ("branch", WrittenIfAny(r.branch)),
     ("reviewed", if r.reviewed.Some? then Some(Obj(Present(ReviewedFields(r.reviewed.value)))) else None),
     ("approval", if r.approval.Some? then Some(Obj(Present(ApprovalFields(r.approval.value)))) else None),
     ("reviewRound", Some(Num(r.reviewRound as real))), ("updatedAt", Written(r.updatedAt)),
     ("note", WrittenIfAny(r.note))]
  }

  function ToJson(r: BoardRecord): Json {
    Obj(Present(RecordFields(r)))
  }

  function Block(v: Json): string {
    Opening(LABEL, Put(v, Behind("")))
  }

  function Render(r: BoardRecord): Result<string, Corrupt> {
    if r.schema == SCHEMA then Ok(Block(ToJson(r))) else Err(Schema)
  }

  // Validating.

  function TextOf(members: seq<Member>, key: string): Option<string> {
    match Get(members, key)
    case Some(Str(s)) => Some(s)
    case _ => None
  }

  function ValidateReviewed(v: Json): Result<Reviewed, Corrupt> {
    match v
    case Obj(m) =>
      if TextOf(m, "digest").None? || TextOf(m, "head").None? then Err(ReviewedBlock)
      else Ok(Reviewed(
        TextOf(m, "digest").value, TextOf(m, "head").value, TextOf(m, "base").GetOr(""), TextOf(m, "policy").GetOr(""),
        TextOf(m, "ruleset").GetOr(""), TextOf(m, "reviewer").GetOr(""), TextOf(m, "requirement").GetOr(""),
        TextOf(m, "at").GetOr("")))
    case _ => Err(ReviewedBlock)
  }

  function ValidateApproval(v: Json): Result<Approval, Corrupt> {
    match v
    case Obj(m) =>
      if TextOf(m, "digest").None? then Err(ApprovalBlock)
      else Ok(Approval(
        TextOf(m, "by"), TextOf(m, "at").GetOr(""), TextOf(m, "digest").value, TextOf(m, "ref").GetOr(""),
        TextOf(m, "note")))
    case _ => Err(ApprovalBlock)
  }

  /** A whole number that is not negative, however it is written. */
  function RoundOf(members: seq<Member>): Option<nat> {
    match Get(members, "reviewRound")
    case Some(Num(n)) => if n >= 0.0 && n == n.Floor as real then Some(n.Floor) else None
    case _ => None
  }

  /** A block that is absent is none; one that is present must be readable. */
  function ReviewedOf(members: seq<Member>): Result<Option<Reviewed>, Corrupt> {
    match Get(members, "reviewed")
    case None => Ok(None)
    case Some(v) =>
      match ValidateReviewed(v)
      case Ok(block) => Ok(Some(block))
      case Err(e) => Err(e)
  }

  function ApprovalOf(members: seq<Member>): Result<Option<Approval>, Corrupt> {
    match Get(members, "approval")
    case None => Ok(None)
    case Some(v) =>
      match ValidateApproval(v)
      case Ok(block) => Ok(Some(block))
      case Err(e) => Err(e)
  }

  function Validate(members: seq<Member>): Result<BoardRecord, Corrupt> {
    if Get(members, "schema") != Some(Num(SCHEMA as real)) then Err(Schema)
    else if TextOf(members, "runId").GetOr("") == "" then Err(RunId)
    else if TextOf(members, "item").GetOr("") == "" then Err(Item)
    else if RoundOf(members).None? then Err(Round)
    else
      var reviewed :- ReviewedOf(members);
      var approval :- ApprovalOf(members);
      Ok(BoardRecord(
        SCHEMA, TextOf(members, "runId").value, TextOf(members, "item").value, TextOf(members, "baseBranch"),
        TextOf(members, "deliveryRef"), TextOf(members, "branch"), reviewed, approval, RoundOf(members).value,
        TextOf(members, "updatedAt").GetOr(EPOCH), TextOf(members, "note")))
  }

  function Read(payload: string): Result<BoardRecord, Corrupt> {
    var trimmed := Trim(payload);
    if trimmed == [] then Err(Empty)
    else match ParseJson(trimmed)
      case None => Err(NotJson)
      case Some(Obj(members)) => Validate(members)
      case Some(_) => Err(NotAnObject)
  }

  /** The record in the first block of a text, if there is a block. */
  function ParseRecord(s: string): Result<Option<BoardRecord>, Corrupt> {
    match FirstPayload(LABEL, s)
    case None => Ok(None)
    case Some(payload) =>
      match Read(payload)
      case Ok(r) => Ok(Some(r))
      case Err(e) => Err(e)
  }

  // The fields come back as they were written.

  lemma GetLast(members: seq<Member>, last: Member, key: string)
    ensures Get(members + [last], key) == if last.key == key then Some(last.value) else Get(members, key)
  {
    assert (members + [last])[..|members|] == members;
  }

  lemma {:induction false} GetAbsent(fields: seq<Field>, key: string)
    requires forall i :: 0 <= i < |fields| ==> fields[i].0 != key
    ensures Get(Present(fields), key) == None
  {
    if fields != [] {
      var front := fields[..|fields| - 1];
      GetAbsent(front, key);
      if fields[|fields| - 1].1.Some? {
        GetLast(Present(front), Member(fields[|fields| - 1].0, fields[|fields| - 1].1.value), key);
      }
    }
  }

  lemma {:induction false} GetPresent(fields: seq<Field>, i: nat)
    requires i < |fields| && forall j :: i < j < |fields| ==> fields[j].0 != fields[i].0
    requires forall j :: 0 <= j < i ==> fields[j].0 != fields[i].0
    ensures Get(Present(fields), fields[i].0) == fields[i].1
  {
    var front, last := fields[..|fields| - 1], fields[|fields| - 1];
    if last.1.Some? {
      GetLast(Present(front), Member(last.0, last.1.value), fields[i].0);
    }
    if i == |fields| - 1 {
      GetAbsent(front, last.0);
    } else {
      GetPresent(front, i);
    }
  }

  ghost predicate DistinctKeys(fields: seq<Field>) {
    forall i, j :: 0 <= i < j < |fields| ==> fields[i].0 != fields[j].0
  }

  lemma FieldsComeBack(fields: seq<Field>)
    requires DistinctKeys(fields)
    ensures forall i :: 0 <= i < |fields| ==> Get(Present(fields), fields[i].0) == fields[i].1
  {
    forall i | 0 <= i < |fields|
      ensures Get(Present(fields), fields[i].0) == fields[i].1
    {
      GetPresent(fields, i);
    }
  }

  lemma ReviewedComesBack(r: Reviewed)
    ensures ValidateReviewed(Obj(Present(ReviewedFields(r)))) == Ok(r)
  {
    var fields := ReviewedFields(r);
    FieldsComeBack(fields);
    var keys := ["digest", "head", "base", "policy", "ruleset", "reviewer", "requirement", "at"];
    assert forall i :: 0 <= i < 8 ==> fields[i].0 == keys[i];
    assert Get(Present(fields), keys[0]) == fields[0].1;
    assert Get(Present(fields), keys[1]) == fields[1].1;
    assert Get(Present(fields), keys[2]) == fields[2].1;
    assert Get(Present(fields), keys[3]) == fields[3].1;
    assert Get(Present(fields), keys[4]) == fields[4].1;
    assert Get(Present(fields), keys[5]) == fields[5].1;
    assert Get(Present(fields), keys[6]) == fields[6].1;
    assert Get(Present(fields), keys[7]) == fields[7].1;
  }

  lemma ApprovalComesBack(a: Approval)
    ensures ValidateApproval(Obj(Present(ApprovalFields(a)))) == Ok(a)
  {
    var fields := ApprovalFields(a);
    FieldsComeBack(fields);
    var keys := ["by", "at", "digest", "ref", "note"];
    assert forall i :: 0 <= i < 5 ==> fields[i].0 == keys[i];
    assert Get(Present(fields), keys[0]) == fields[0].1;
    assert Get(Present(fields), keys[1]) == fields[1].1;
    assert Get(Present(fields), keys[2]) == fields[2].1;
    assert Get(Present(fields), keys[3]) == fields[3].1;
    assert Get(Present(fields), keys[4]) == fields[4].1;
  }

  /** What every record that was read satisfies. */
  predicate Valid(r: BoardRecord) {
    r.schema == SCHEMA && r.runId != "" && r.item != ""
  }

  lemma RecordFieldsComeBack(r: BoardRecord)
    ensures
      var m, fields := Present(RecordFields(r)), RecordFields(r);
      && Get(m, "schema") == fields[0].1 && Get(m, "runId") == fields[1].1 && Get(m, "item") == fields[2].1
      && Get(m, "baseBranch") == fields[3].1 && Get(m, "deliveryRef") == fields[4].1 && Get(m, "branch") == fields[5].1
      && Get(m, "reviewed") == fields[6].1 && Get(m, "approval") == fields[7].1 && Get(m, "reviewRound") == fields[8].1
      && Get(m, "updatedAt") == fields[9].1 && Get(m, "note") == fields[10].1
  {
    var fields := RecordFields(r);
    RecordKeysDistinct(r);
    FieldsComeBack(fields);
    var m := Present(fields);
    assert Get(m, fields[0].0) == fields[0].1;
    assert Get(m, fields[1].0) == fields[1].1;
    assert Get(m, fields[2].0) == fields[2].1;
    assert Get(m, fields[3].0) == fields[3].1;
    assert Get(m, fields[4].0) == fields[4].1;
    assert Get(m, fields[5].0) == fields[5].1;
    assert Get(m, fields[6].0) == fields[6].1;
    assert Get(m, fields[7].0) == fields[7].1;
    assert Get(m, fields[8].0) == fields[8].1;
    assert Get(m, fields[9].0) == fields[9].1;
    assert Get(m, fields[10].0) == fields[10].1;
  }

  lemma RecordKeysDistinct(r: BoardRecord)
    ensures DistinctKeys(RecordFields(r))
  {
  }

  lemma BlocksComeBack(r: BoardRecord)
    ensures ReviewedOf(ToJson(r).members) == Ok(r.reviewed)
    ensures ApprovalOf(ToJson(r).members) == Ok(r.approval)
  {
    RecordFieldsComeBack(r);
    if r.reviewed.Some? {
      ReviewedComesBack(r.reviewed.value);
    }
    if r.approval.Some? {
      ApprovalComesBack(r.approval.value);
    }
  }

  lemma ScalarsComeBack(r: BoardRecord)
    ensures
      var m := ToJson(r).members;
      && Get(m, "schema") == Some(Num(r.schema as real)) && RoundOf(m) == Some(r.reviewRound)
      && TextOf(m, "runId") == Some(r.runId) && TextOf(m, "item") == Some(r.item)
      && TextOf(m, "baseBranch") == r.baseBranch && TextOf(m, "deliveryRef") == r.deliveryRef
      && TextOf(m, "branch") == r.branch && TextOf(m, "updatedAt") == Some(r.updatedAt) && TextOf(m, "note") == r.note
  {
    RecordFieldsComeBack(r);
  }

  /** Every valid record is read back from its own fields, and no other is. */
  lemma RecordComesBack(r: BoardRecord)
    ensures Validate(ToJson(r).members) == Ok(r) <==> Valid(r)
  {
    BlocksComeBack(r);
    ScalarsComeBack(r);
  }

  /** A text value of this key, and not an empty one. */
  ghost predicate Names(members: seq<Member>, key: string) {
    exists s :: Get(members, key) == Some(Str(s)) && s != ""
  }

  /** The block is an object that has text under each of the keys. */
  predicate Readable(block: Json, keys: set<string>) {
    block.Obj? && forall key <- keys :: TextOf(block.members, key).Some?
  }

  /**
   * What is accepted: this schema, a run, an item and a whole round, and blocks that are absent or
   * readable. A review or an approval that is present is never dropped: it is in the record or
   * the record is refused.
   */
  lemma ValidateExactlyWhen(members: seq<Member>)
    ensures Validate(members).Ok? <==>
      && Get(members, "schema") == Some(Num(1.0)) && Names(members, "runId") && Names(members, "item")
      && RoundOf(members).Some?
      && (Get(members, "reviewed").Some? ==> Readable(Get(members, "reviewed").value, {"digest", "head"}))
      && (Get(members, "approval").Some? ==> Readable(Get(members, "approval").value, {"digest"}))
    ensures Validate(members).Ok? ==>
      && (Validate(members).value.reviewed.Some? <==> Get(members, "reviewed").Some?)
      && (Validate(members).value.approval.Some? <==> Get(members, "approval").Some?)
  {
    TextNames(members, "runId");
    TextNames(members, "item");
  }

  lemma TextNames(members: seq<Member>, key: string)
    ensures Names(members, key) <==> TextOf(members, key).GetOr("") != ""
  {
  }

  lemma ValidatedIsValid(members: seq<Member>)
    ensures Validate(members).Ok? ==> Valid(Validate(members).value)
  {
  }

  /** Whatever is read satisfies what a record must satisfy, so it can be written again. */
  lemma ReadRecordsAreValid(s: string)
    ensures ParseRecord(s).Ok? && ParseRecord(s).value.Some? ==> Valid(ParseRecord(s).value.value)
  {
    if FirstPayload(LABEL, s).Some? {
      match ParseJson(Trim(FirstPayload(LABEL, s).value))
      case Some(Obj(members)) => ValidatedIsValid(members);
      case _ =>
    }
  }

  lemma ToJsonPrints(r: BoardRecord)
    ensures Printable(ToJson(r))
  {
    PresentPrints(RecordFields(r));
    if r.reviewed.Some? {
      PresentPrints(ReviewedFields(r.reviewed.value));
    }
    if r.approval.Some? {
      PresentPrints(ApprovalFields(r.approval.value));
    }
  }

  lemma {:induction false} PresentPrints(fields: seq<Field>)
    ensures (forall i :: 0 <= i < |fields| && fields[i].1.Some? ==> Printable(fields[i].1.value)) ==>
      Printable(Obj(Present(fields)))
  {
    if fields != [] {
      PresentPrints(fields[..|fields| - 1]);
    }
  }

  /** A text has no record exactly when it has no closed block; a block that cannot be read is an error. */
  lemma NoRecordExactlyWhen(s: string)
    ensures ParseRecord(s) == Ok(None) <==> !HasBlock(LABEL, s)
  {
    PayloadExactlyWhen(LABEL, s);
  }

  // Writing a record and reading it back.

  lemma ObjectEnds(members: seq<Member>, w: string)
    ensures
      var j := Stringify(Obj(members));
      |j| >= 2 && j[0] == '{' && j[|j| - 1] == '}' && Put(Obj(members), w) == j + w
  {
    PutAppends(Obj(members), "", w);
    assert "" + w == w;
    if members != [] {
      assert "}" + "" == "" + "}";
      PutMembersAppends(members, "", "}");
    }
  }

  lemma LabelIsPlain()
    ensures Plain(LABEL)
  {
  }

  lemma PayloadOfRecord(prefix: string, r: BoardRecord, suffix: string)
    requires r.schema == SCHEMA && NoOpening(LABEL, prefix)
    ensures FirstPayload(LABEL, prefix + (Render(r).value + suffix)) == UpToArrow(Stringify(ToJson(r)) + Behind(suffix))
  {
    LabelIsPlain();
    ObjectEnds(ToJson(r).members, Behind(""));
    BlockFound(LABEL, prefix, Stringify(ToJson(r)), suffix);
  }

  lemma ReadTrimmed(payload: string, members: seq<Member>)
    requires Trim(payload) != [] && ParseJson(Trim(payload)) == Some(Obj(members))
    ensures Read(payload) == Validate(members)
  {
  }

  lemma WholeIsRead(members: seq<Member>)
    requires Printable(Obj(members))
    ensures Read(Stringify(Obj(members)) + " ") == Validate(members)
  {
    var text := Stringify(Obj(members));
    ObjectEnds(members, "");
    assert (text + " ")[..|text|] == text;
    TrimWhole(text + " ");
    StringifyParses(Obj(members));
    ReadTrimmed(text + " ", members);
  }

  lemma CutIsCorrupt(members: seq<Member>, p: string)
    requires Printable(Obj(members)) && p < Stringify(Obj(members))
    ensures Read(p).Err?
  {
    ObjectEnds(members, "");
    TrimCut(Stringify(Obj(members)), p);
    TruncatedDoesNotParse(members, Trim(p));
  }

  /** The object's text contains an arrow exactly when one of its strings does; none reaches over its end. */
  lemma ArrowOfObject(members: seq<Member>)
    ensures Arrow(Stringify(Obj(members))) <==> ArrowInside(Obj(members))
    ensures Arrow(Stringify(Obj(members)) + " --") <==> ArrowInside(Obj(members))
  {
    ObjectEnds(members, " --");
    ArrowPut(Obj(members), "");
    ArrowPut(Obj(members), " --");
    assert !Arrow("") && !Arrow(" --");
  }

  /**
   * A record written into any text that does not already open a block is read back unchanged if
   * and only if none of the strings written contains `-->`; otherwise it is reported as corrupt.
   */
  lemma RecordRoundTrip(prefix: string, r: BoardRecord, suffix: string)
    requires Valid(r) && NoOpening(LABEL, prefix)
    ensures ParseRecord(prefix + (Render(r).value + suffix)) == Ok(Some(r)) <==> !ArrowInside(ToJson(r))
    ensures ParseRecord(prefix + (Render(r).value + suffix)).Err? <==> ArrowInside(ToJson(r))
  {
    var j := Stringify(ToJson(r));
    PayloadOfRecord(prefix, r, suffix);
    ToJsonPrints(r);
    ArrowOfObject(ToJson(r).members);
    if ArrowInside(ToJson(r)) {
      FirstArrowInside(j, Behind(suffix));
      CutIsCorrupt(ToJson(r).members, UpToArrow(j + Behind(suffix)).value);
    } else {
      FirstArrowBehind(j, suffix);
      WholeIsRead(ToJson(r).members);
      RecordComesBack(r);
    }
  }

  /** Whatever can be read of a block that was written is the record that was written. */
  lemma ReadBackIsWritten(prefix: string, r: BoardRecord, suffix: string)
    requires r.schema == SCHEMA && NoOpening(LABEL, prefix)
    requires ParseRecord(prefix + (Render(r).value + suffix)).Ok?
    ensures ParseRecord(prefix + (Render(r).value + suffix)) == Ok(Some(r))
  {
    if Valid(r) {
      RecordRoundTrip(prefix, r, suffix);
    } else {
      InvalidIsNotRead(prefix, r, suffix);
    }
  }

  /** A record without a run or an item is not read back, so writing one is noticed. */
  lemma InvalidIsNotRead(prefix: string, r: BoardRecord, suffix: string)
    requires r.schema == SCHEMA && !Valid(r) && NoOpening(LABEL, prefix)
    ensures ParseRecord(prefix + (Render(r).value + suffix)).Err?
  {
    var j := Stringify(ToJson(r));
    PayloadOfRecord(prefix, r, suffix);
    ToJsonPrints(r);
    ArrowOfObject(ToJson(r).members);
    if ArrowInside(ToJson(r)) {
      FirstArrowInside(j, Behind(suffix));
      CutIsCorrupt(ToJson(r).members, UpToArrow(j + Behind(suffix)).value);
    } else {
      FirstArrowBehind(j, suffix);
      WholeIsRead(ToJson(r).members);
      ScalarsComeBack(r);
    }
  }

  // Carrying a record forward, and choosing the newest.

  /** What a writer sets; everything else it carries forward. */
  datatype Update = Update(runId: string, item: string, note: Option<string>, reviewRound: Option<nat>, at: string)

  function CarryForward(existing: Option<BoardRecord>, u: Update): BoardRecord {
    var carried :=
      existing.GetOr(BoardRecord(SCHEMA, u.runId, u.item, None, None, None, None, None, 0, EPOCH, None));
    carried.(schema := SCHEMA, runId := u.runId, item := u.item,
             reviewRound := u.reviewRound.GetOr(carried.reviewRound),
             updatedAt := u.at, note := if u.note.Some? then u.note else carried.note)
  }

  /** The record that a claim writes: what it does not own is carried forward. */
  function ClaimRecord(
    existing: Option<BoardRecord>, id: string, runId: string, now: string, note: Option<string>): BoardRecord
  {
    CarryForward(existing, Update(runId, id, note, Some(0), now))
  }

  /** The record that a transition writes: it stays with the run that has it. */
  function MoveRecord(
    existing: Option<BoardRecord>, id: string, runId: string, now: string, note: Option<string>): BoardRecord
  {
    var owner := if existing.Some? then existing.value.runId else runId;
    CarryForward(existing, Update(owner, id, note, None, now))
  }

  /** One rewrite of the record by an adapter, in the text that it keeps around the block. */
  datatype Rewrite = Rewrite(update: Update, prefix: string, suffix: string)

  /** Each rewrite reads the text, carries its record forward and writes it into a text of its own. */
  function Rewritten(text: string, rewrites: seq<Rewrite>): Result<string, Corrupt> {
    if rewrites == [] then Ok(text)
    else
      var before :- Rewritten(text, rewrites[..|rewrites| - 1]);
      var existing :- ParseRecord(before);
      var last := rewrites[|rewrites| - 1];
      var block :- Render(CarryForward(existing, last.update));
      Ok(last.prefix + (block + last.suffix))
  }

  predicate SameFacts(a: BoardRecord, b: BoardRecord) {
    && a.reviewed == b.reviewed && a.approval == b.approval && a.branch == b.branch
    && a.baseBranch == b.baseBranch && a.deliveryRef == b.deliveryRef
  }

  ghost predicate Harmless(w: Rewrite) {
    && NoOpening(LABEL, w.prefix) && w.update.runId != "" && w.update.item != ""
    && !Arrow(w.update.runId) && !Arrow(w.update.item) && !Arrow(w.update.at)
    && (w.update.note.Some? ==> !Arrow(w.update.note.value))
  }

  lemma {:induction false} PresentArrow(fields: seq<Field>)
    ensures ArrowInside(Obj(Present(fields))) <==>
      exists i :: 0 <= i < |fields| && fields[i].1.Some? && (Arrow(fields[i].0) || ArrowInside(fields[i].1.value))
  {
    if fields != [] {
      var front, last := fields[..|fields| - 1], fields[|fields| - 1];
      PresentArrow(front);
      if last.1.Some? {
        var members := Present(front);
        var all := members + [Member(last.0, last.1.value)];
        assert forall i :: 0 <= i < |members| ==> all[i] == members[i];
        assert all[|members|] == Member(last.0, last.1.value);
        assert ArrowInside(Obj(all)) <==> ArrowInside(Obj(members)) || Arrow(last.0) || ArrowInside(last.1.value);
      }
    }
  }

  /** So a note is enough to make a record unreadable, and exactly those with `-->` in them do. */
  lemma NoteCanCorrupt(prefix: string, r: BoardRecord, note: string, suffix: string)
    requires Valid(r) && NoOpening(LABEL, prefix) && !ArrowInside(ToJson(r))
    ensures ParseRecord(prefix + (Render(r.(note := Some(note))).value + suffix)).Err? <==> Arrow(note)
  {
    var noted := r.(note := Some(note));
    var a, b := RecordFields(r), RecordFields(noted);
    RecordRoundTrip(prefix, noted, suffix);
    PresentArrow(a);
    PresentArrow(b);
    RecordKeysHaveNoArrow(noted);
    assert forall i :: 0 <= i < 10 ==> a[i] == b[i];
    assert b[10].1.Some? && (ArrowInside(b[10].1.value) <==> Arrow(note));
  }

  lemma ArrowInNote(r: BoardRecord)
    requires r.note.Some? && Arrow(r.note.value)
    ensures ArrowInside(ToJson(r))
  {
    var fields := RecordFields(r);
    PresentArrow(fields);
    assert fields[10].1.Some? && ArrowInside(fields[10].1.value);
  }

  /** A harmless update of a record that can be written gives one that can be written. */
  lemma CarriedHasNoArrow(r: BoardRecord, u: Update)
    requires !ArrowInside(ToJson(r))
    requires !Arrow(u.runId) && !Arrow(u.item) && !Arrow(u.at) && (u.note.Some? ==> !Arrow(u.note.value))
    ensures !ArrowInside(ToJson(CarryForward(Some(r), u)))
  {
    var a, b := RecordFields(r), RecordFields(CarryForward(Some(r), u));
    PresentArrow(a);
    PresentArrow(b);
    RecordKeysHaveNoArrow(r);
    RecordKeysHaveNoArrow(CarryForward(Some(r), u));
    forall i | 0 <= i < 11 && b[i].1.Some?
      ensures !ArrowInside(b[i].1.value)
    {
      if a[i] == b[i] {
        assert !ArrowInside(a[i].1.value);
      }
    }
  }

  lemma RecordKeysHaveNoArrow(r: BoardRecord)
    ensures forall i :: 0 <= i < 11 ==> !Arrow(RecordFields(r)[i].0)
  {
  }

  /**
   * The digest of what a review covered, the approval and the branch survive any number of
   * rewrites by adapters that neither open a block of their own nor write `-->`.
   */
  lemma {:induction false} ReviewSurvivesRewrites(text: string, r: BoardRecord, rewrites: seq<Rewrite>)
    requires ParseRecord(text) == Ok(Some(r)) && !ArrowInside(ToJson(r))
    requires forall i :: 0 <= i < |rewrites| ==> Harmless(rewrites[i])
    ensures
      var after := Rewritten(text, rewrites);
      && after.Ok? && ParseRecord(after.value).Ok? && ParseRecord(after.value).value.Some?
      && SameFacts(r, ParseRecord(after.value).value.value)
      && !ArrowInside(ToJson(ParseRecord(after.value).value.value))
  {
    if rewrites != [] {
      var last := rewrites[|rewrites| - 1];
      ReviewSurvivesRewrites(text, r, rewrites[..|rewrites| - 1]);
      var current := ParseRecord(Rewritten(text, rewrites[..|rewrites| - 1]).value).value.value;
      CarriedHasNoArrow(current, last.update);
      RecordRoundTrip(last.prefix, CarryForward(Some(current), last.update), last.suffix);
    }
  }

  /** How a text is read; the reader in use is `ParseRecord`. */
  type Reader = string -> Result<Option<BoardRecord>, Corrupt>

  predicate HasRecord(text: string, read: Reader) {
    read(text).Ok? && read(text).value.Some?
  }

  /** The date of the record in a text, where there is a record and the clock can read its date. */
  function DateIn(text: string, read: Reader, date: string -> Option<int>): Option<int> {
    if HasRecord(text, read) then date(read(text).value.value.updatedAt) else None
  }

  /** A comparison with a date that cannot be read does not succeed. */
  predicate NotBefore(a: Option<int>, b: Option<int>) {
    a.Some? && b.Some? && a.value >= b.value
  }

  /** The latest of the first `n` dates, and the last one of those. */
  ghost predicate IsLatest(texts: seq<string>, n: nat, read: Reader, date: string -> Option<int>, k: int) {
    && 0 <= k < n <= |texts| && DateIn(texts[k], read, date).Some?
    && (forall j :: 0 <= j < n && DateIn(texts[j], read, date).Some? ==>
          if j <= k then NotBefore(DateIn(texts[k], read, date), DateIn(texts[j], read, date))
          else !NotBefore(DateIn(texts[j], read, date), DateIn(texts[k], read, date)))
  }

  /** The first of the first `n` texts with a record. */
  ghost predicate IsFirst(texts: seq<string>, n: nat, read: Reader, k: int) {
    0 <= k < n <= |texts| && HasRecord(texts[k], read) && forall j :: 0 <= j < k ==> !HasRecord(texts[j], read)
  }

  /**
   * Which text's record is chosen. A first record whose date cannot be read is never replaced, as
   * no comparison with it succeeds; otherwise the latest date wins, and unreadable ones are skipped.
   */
  ghost predicate IsNewest(texts: seq<string>, n: nat, read: Reader, date: string -> Option<int>, k: int) {
    && 0 <= k < n <= |texts| && HasRecord(texts[k], read)
    && exists f :: IsFirst(texts, n, read, f) &&
                   if DateIn(texts[f], read, date).None? then k == f else IsLatest(texts, n, read, date, k)
  }

  /** One more text: it is chosen if it has the first record, or one that is not before the chosen one. */
  lemma NewestStep(texts: seq<string>, n: nat, read: Reader, date: string -> Option<int>, k: int)
    requires n < |texts| && IsNewest(texts, n, read, date, k)
    ensures IsNewest(texts, n + 1, read, date,
                     if NotBefore(DateIn(texts[n], read, date), DateIn(texts[k], read, date)) then n else k)
  {
    var f :| IsFirst(texts, n, read, f) &&
             if DateIn(texts[f], read, date).None? then k == f else IsLatest(texts, n, read, date, k);
    assert IsFirst(texts, n + 1, read, f);
  }

  /** The newest record, unless a text is corrupt: then the first corrupt one is reported. */
  method NewestRecord(texts: seq<string>, read: Reader, date: string -> Option<int>)
    returns (r: Result<Option<BoardRecord>, Corrupt>)
    ensures r.Ok? <==> forall j :: 0 <= j < |texts| ==> read(texts[j]).Ok?
    ensures r.Err? ==> exists k ::
      0 <= k < |texts| && read(texts[k]) == r && forall j :: 0 <= j < k ==> read(texts[j]).Ok?
    ensures r == Ok(None) ==> forall j :: 0 <= j < |texts| ==> !HasRecord(texts[j], read)
    ensures r.Ok? && r.value.Some? ==> exists k :: IsNewest(texts, |texts|, read, date, k) && read(texts[k]) == r
  {
    var newest: Option<BoardRecord> := None;
    ghost var at := 0;
    for i := 0 to |texts|
      invariant forall j :: 0 <= j < i ==> read(texts[j]).Ok?
      invariant newest.None? ==> forall j :: 0 <= j < i ==> !HasRecord(texts[j], read)
      invariant newest.Some? ==> 0 <= at < i && read(texts[at]) == Ok(newest) && IsNewest(texts, i, read, date, at)
    {
      var record := read(texts[i]);
      if record.Err? {
        return Err(record.error);
      }
      if newest.Some? {
        NewestStep(texts, i, read, date, at);
      }
      if record.value.Some? {
        if newest.None? || NotBefore(date(record.value.value.updatedAt), date(newest.value.updatedAt)) {
          assert newest.None? ==> IsFirst(texts, i + 1, read, i);
          newest, at := record.value, i;
        }
      }
    }
    return Ok(newest);
  }
}