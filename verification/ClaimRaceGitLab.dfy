/**
 * Claiming on GitLab, where labels and notes cannot be written conditionally.
 *
 * A claim is six requests: read the item, read the record, swap the label, write this run's
 * note, read the item again, read the notes again. Any number of runs do this at once, in any
 * interleaving; a run that was told it owns the item goes on writing its note, and people may
 * move the label meanwhile. Time stamps are each run's own, chosen before the note lands.
 */
module ClaimRaceGitLab {
  import opened Wrappers
  import opened BoardState

  type Run = string

  datatype Note = Note(run: Run, stamp: int)

  /** One page of notes is all a read sees; notes are listed oldest first. */
  const PAGE_SIZE := 100

  function Visible(notes: seq<Note>): seq<Note> {
    if |notes| <= PAGE_SIZE then notes else notes[..PAGE_SIZE]
  }

  // --- The verdict -----------------------------------------------------------------------

  function Newest(notes: seq<Note>): int
    requires notes != []
  {
    if |notes| == 1 then notes[0].stamp
    else
      var rest := Newest(notes[1..]);
      if notes[0].stamp > rest then notes[0].stamp else rest
  }

  function At(notes: seq<Note>, stamp: int): seq<Note> {
    if notes == [] then []
    else (if notes[0].stamp == stamp then [notes[0]] else []) + At(notes[1..], stamp)
  }

  datatype Verdict = Won | Lost(tie: bool)

  function ClaimVerdict(notes: seq<Note>, run: Run): Verdict {
    if notes == [] then Lost(false)
    else
      var winners := At(notes, Newest(notes));
      if |winners| == 1 && winners[0].run == run then Won else Lost(|winners| > 1)
  }

  /** What "uniquely this run's" means: one note of the run, later than every other note. */
  ghost predicate UniquelyNewest(notes: seq<Note>, run: Run) {
    exists i :: 0 <= i < |notes| && notes[i].run == run && LaterThanOthers(notes, i)
  }

  ghost predicate LaterThanOthers(notes: seq<Note>, i: int)
    requires 0 <= i < |notes|
  {
    forall j :: 0 <= j < |notes| && j != i ==> notes[j].stamp < notes[i].stamp
  }

  lemma {:induction false} NewestIsMaximum(notes: seq<Note>)
    requires notes != []
    ensures forall j :: 0 <= j < |notes| ==> notes[j].stamp <= Newest(notes)
    ensures exists j :: 0 <= j < |notes| && notes[j].stamp == Newest(notes)
  {
    if |notes| == 1 {
      assert notes[0].stamp == Newest(notes);
    } else {
      NewestIsMaximum(notes[1..]);
      var j :| 0 <= j < |notes[1..]| && notes[1..][j].stamp == Newest(notes[1..]);
      assert notes[j + 1].stamp == Newest(notes[1..]);
      if notes[0].stamp > Newest(notes[1..]) {
        assert notes[0].stamp == Newest(notes);
      }
      forall k | 0 <= k < |notes|
        ensures notes[k].stamp <= Newest(notes)
      {
        if k > 0 {
          assert notes[k] == notes[1..][k - 1];
        }
      }
    }
  }

  /** Every note with that stamp is found, in order; with two of them there are two winners. */
  lemma {:induction false} AtFindsAll(notes: seq<Note>, stamp: int, i: nat)
    requires i < |notes| && notes[i].stamp == stamp
    ensures |At(notes, stamp)| >= 1
    ensures (forall j :: 0 <= j < |notes| && j != i ==> notes[j].stamp != stamp) ==> At(notes, stamp) == [notes[i]]
    ensures (exists j :: 0 <= j < |notes| && j != i && notes[j].stamp == stamp) ==> |At(notes, stamp)| >= 2
  {
    var rest := notes[1..];
    if i > 0 {
      AtFindsAll(rest, stamp, i - 1);
      if forall j :: 0 <= j < |notes| && j != i ==> notes[j].stamp != stamp {
        assert forall j :: 0 <= j < |rest| && j != i - 1 ==> rest[j] == notes[j + 1];
      }
      if j :| 0 < j < |notes| && j != i && notes[j].stamp == stamp {
        assert rest[j - 1] == notes[j];
      }
    } else {
      if j :| 0 < j < |notes| && notes[j].stamp == stamp {
        assert rest[j - 1] == notes[j];
        AtFindsAll(rest, stamp, j - 1);
      }
      if forall j :: 0 <= j < |notes| && j != i ==> notes[j].stamp != stamp {
        AtFindsNone(rest, stamp);
      }
    }
  }

  lemma {:induction false} AtFindsNone(notes: seq<Note>, stamp: int)
    requires forall j :: 0 <= j < |notes| ==> notes[j].stamp != stamp
    ensures At(notes, stamp) == []
  {
    if notes != [] {
      AtFindsNone(notes[1..], stamp);
    }
  }

  /** The verdict is a yes exactly when the newest note is uniquely this run's. */
  lemma VerdictExactlyWhen(notes: seq<Note>, run: Run)
    ensures ClaimVerdict(notes, run).Won? <==> UniquelyNewest(notes, run)
  {
    if notes != [] {
      NewestIsMaximum(notes);
      var top :| 0 <= top < |notes| && notes[top].stamp == Newest(notes);
      AtFindsAll(notes, Newest(notes), top);
      if LaterThanOthers(notes, top) {
        if UniquelyNewest(notes, run) {
          var i :| 0 <= i < |notes| && notes[i].run == run && LaterThanOthers(notes, i);
          assert i == top;
        }
      } else {
        var j :| 0 <= j < |notes| && j != top && notes[j].stamp >= notes[top].stamp;
        assert notes[j].stamp == Newest(notes);
      }
    }
  }

  /** Two notes sharing the newest stamp refuse everybody. */
  lemma TieRefusesEveryone(notes: seq<Note>, i: nat, j: nat, run: Run)
    requires i < j < |notes| && notes[i].stamp == notes[j].stamp
    requires forall k :: 0 <= k < |notes| ==> notes[k].stamp <= notes[i].stamp
    ensures ClaimVerdict(notes, run).Lost?
  {
    VerdictExactlyWhen(notes, run);
  }

  // --- The race --------------------------------------------------------------------------

  /** How far one run got with its claim. */
  datatype Pc = Idle | SawState(state: State) | Decided | Labelled | Noted | Rechecked | Done(won: bool)

  /** When a run's claim wrote its note, and under which stamp. */
  datatype Write = Write(time: nat, stamp: int)

  /**
   * `slotted`: a run needs the item's slot to take any step of its claim. `quiet`: once a run has
   * won, only the holder of the slot moves the item to a state that can be claimed, and it does not
   * leave the item in one when it releases the slot. `time`, `wrote` and `judged` are history.
   */
  datatype Sys = Sys(
    column: State, notes: seq<Note>, pcs: map<Run, Pc>,
    slotted: bool, quiet: bool, holder: Option<Run>,
    time: nat, wrote: map<Run, Write>, judged: map<Run, nat>)

  datatype Action =
    | Acquire(run: Run)
    | Release(run: Run)
    | ReadItem(run: Run)
    | ReadRecord(run: Run)
    | PutLabel(run: Run)
    | WriteNote(run: Run, stamp: int)
    | Recheck(run: Run)
    | ReadVerdict(run: Run)
    | Progress(run: Run, stamp: int, column: State)
    | Meddle(column: State)

  /** The run named by the newest visible note; among equal stamps the later note. */
  function Holder(notes: seq<Note>): Option<Run> {
    if notes == [] then None
    else
      var last := notes[|notes| - 1];
      if last.stamp >= Newest(notes) then Some(last.run) else Holder(notes[..|notes| - 1])
  }

  /** The index of this run's own note among the visible ones, or the end. */
  function Own(notes: seq<Note>, run: Run): (i: nat)
    ensures i <= |notes|
    ensures i < |notes| ==> notes[i].run == run
    ensures i == |notes| ==> forall k :: 0 <= k < |notes| ==> notes[k].run != run
  {
    if notes == [] then 0
    else if notes[0].run == run then 0
    else 1 + Own(notes[1..], run)
  }

  /** Replace this run's note when it can be seen, and add one otherwise. */
  function Upsert(notes: seq<Note>, run: Run, stamp: int): seq<Note> {
    var i := Own(Visible(notes), run);
    if i < |Visible(notes)| then notes[i := Note(run, stamp)] else notes + [Note(run, stamp)]
  }

  /** The states in which the claim rule may accept an item. */
  predicate Open(state: State) {
    state == Ready || state == PrOpen || state == FixNeeded
  }

  predicate AnyWon(pcs: map<Run, Pc>) {
    exists r <- pcs.Keys :: pcs[r] == Done(true)
  }

  predicate MayStep(s: Sys, run: Run, pc: Pc) {
    run in s.pcs && s.pcs[run] == pc && (s.slotted ==> s.holder == Some(run))
  }

  function Go(s: Sys, run: Run, pc: Pc): Sys {
    s.(pcs := s.pcs[run := pc], time := s.time + 1)
  }

  /** One request, or `None` when it is not its turn. */
  function Next(s: Sys, a: Action): Option<Sys> {
    match a
    case Acquire(r) =>
      if s.slotted && s.holder.None? && r in s.pcs && s.pcs[r] == Idle then
        Some(s.(holder := Some(r), time := s.time + 1))
      else None
    case Release(r) =>
      if s.holder == Some(r) && r in s.pcs && s.pcs[r].Done? && (s.quiet && s.pcs[r].won ==> !Open(s.column)) then
        Some(s.(holder := None, time := s.time + 1))
      else None
    case ReadItem(r) =>
      if MayStep(s, r, Idle) then Some(Go(s, r, SawState(s.column))) else None
    case ReadRecord(r) =>
      if r in s.pcs && s.pcs[r].SawState? && MayStep(s, r, s.pcs[r]) then
        var decision := DecideClaim(s.pcs[r].state, Holder(Visible(s.notes)), r);
        Some(Go(s, r, if decision.Accept? then Decided else Done(false)))
      else None
    case PutLabel(r) =>
      if MayStep(s, r, Decided) then Some(Go(s, r, Labelled).(column := Claimed)) else None
    case WriteNote(r, stamp) =>
      if MayStep(s, r, Labelled) then
        Some(Go(s, r, Noted).(notes := Upsert(s.notes, r, stamp), wrote := s.wrote[r := Write(s.time, stamp)]))
      else None
    case Recheck(r) =>
      if MayStep(s, r, Noted) then Some(Go(s, r, if s.column == Claimed then Rechecked else Done(false))) else None
    case ReadVerdict(r) =>
      if MayStep(s, r, Rechecked) then
        Some(Go(s, r, Done(ClaimVerdict(Visible(s.notes), r).Won?)).(judged := s.judged[r := s.time]))
      else None
    case Progress(r, stamp, column) =>
      // An owner's later writes replace its note; its own clock does not run backwards.
      if r in s.pcs && s.pcs[r] == Done(true) && (s.quiet && Open(column) ==> s.holder == Some(r)) &&
         (forall n <- s.notes :: n.run == r ==> n.stamp <= stamp) then
        Some(s.(notes := Upsert(s.notes, r, stamp), column := column, time := s.time + 1))
      else None
    case Meddle(column) =>
      if s.quiet && Open(column) && AnyWon(s.pcs) then None
      else Some(s.(column := column, time := s.time + 1))
  }

  function Exec(s: Sys, actions: seq<Action>): Option<Sys>
    decreases |actions|
  {
    if actions == [] then Some(s)
    else
      match Exec(s, actions[..|actions| - 1])
      case None => None
      case Some(m) => Next(m, actions[|actions| - 1])
  }

  /** Nobody has started; old runs may have left notes, at most one a run. */
  ghost predicate Init(s: Sys) {
    && (forall r :: r in s.pcs ==> s.pcs[r] == Idle)
    && s.wrote == map[] && s.judged == map[] && s.time == 0 && s.holder == None
    && OnePerRun(Visible(s.notes))
  }

  ghost predicate OnePerRun(notes: seq<Note>) {
    forall i, j :: 0 <= i < j < |notes| ==> notes[i].run != notes[j].run
  }

  ghost predicate HasVisible(s: Sys, r: Run) {
    exists i :: 0 <= i < |Visible(s.notes)| && Visible(s.notes)[i].run == r
  }

  ghost predicate IsWinner(s: Sys, r: Run) {
    r in s.pcs && s.pcs[r] == Done(true)
  }

  /** Whether the claim of `r` has written its note by now. */
  predicate HasWritten(pc: Pc) {
    pc == Noted || pc == Rechecked || pc == Done(true)
  }

  ghost predicate NotesInv(s: Sys) {
    && OnePerRun(Visible(s.notes))
    && (forall r :: r in s.pcs && HasWritten(s.pcs[r]) ==> r in s.wrote)
    && (forall r :: r in s.wrote ==>
      s.wrote[r].time < s.time && r in s.pcs && (HasWritten(s.pcs[r]) || s.pcs[r] == Done(false)))
    && NotesMatch(Visible(s.notes), s.wrote, s.pcs)
  }

  /** A run's note in sight bears the stamp that its claim wrote, or a later one if it won. */
  ghost predicate NotesMatch(v: seq<Note>, wrote: map<Run, Write>, pcs: map<Run, Pc>)
    requires forall r :: r in wrote ==> r in pcs
  {
    forall r, i :: r in wrote && 0 <= i < |v| && v[i].run == r ==>
      v[i].stamp >= wrote[r].stamp && (pcs[r] != Done(true) ==> v[i].stamp == wrote[r].stamp)
  }

  ghost predicate WinnersInv(s: Sys) {
    && (forall r :: r in s.judged ==> s.judged[r] < s.time)
    && (forall r :: IsWinner(s, r) ==> r in s.judged && r in s.wrote && HasVisible(s, r))
    && (forall a, b :: IsWinner(s, a) && b in s.wrote && Outdid(s, a, b) ==> s.wrote[b].stamp < s.wrote[a].stamp)
  }

  /** `b`'s note had landed, in sight, when winner `a` read its verdict. */
  ghost predicate Outdid(s: Sys, a: Run, b: Run)
    requires IsWinner(s, a) && b in s.wrote
  {
    a in s.judged && a in s.wrote && a != b && s.wrote[b].time < s.judged[a] && HasVisible(s, b)
  }

  /** An upsert changes at most this run's own visible note, or shows one more at the end. */
  lemma UpsertVisible(notes: seq<Note>, run: Run, stamp: int)
    requires OnePerRun(Visible(notes))
    ensures var v, w := Visible(notes), Visible(Upsert(notes, run, stamp));
      && OnePerRun(w) && |v| <= |w| <= |v| + 1
      && (forall i :: 0 <= i < |v| ==> w[i] == if v[i].run == run then Note(run, stamp) else v[i])
      && (|w| > |v| ==> w[|v|] == Note(run, stamp) && forall i :: 0 <= i < |v| ==> v[i].run != run)
  {
    var v := Visible(notes);
    var i := Own(v, run);
    if i < |v| {
      assert Visible(notes[i := Note(run, stamp)]) == v[i := Note(run, stamp)];
    } else if |notes| < PAGE_SIZE {
      assert Visible(notes + [Note(run, stamp)]) == v + [Note(run, stamp)];
    } else {
      assert Visible(notes + [Note(run, stamp)]) == v;
    }
  }

  lemma NotesMatchAfterWrite(
    v: seq<Note>, w: seq<Note>, r: Run, note: Write, wrote: map<Run, Write>, pcs: map<Run, Pc>, pc: Pc)
    requires (forall q :: q in wrote ==> q in pcs) && NotesMatch(v, wrote, pcs)
    requires |v| <= |w| <= |v| + 1 && forall i :: 0 <= i < |v| ==>
      w[i] == if v[i].run == r then Note(r, note.stamp) else v[i]
    requires |w| > |v| ==> w[|v|] == Note(r, note.stamp)
    ensures NotesMatch(w, wrote[r := note], pcs[r := pc])
  {
  }

  lemma NotesKeptByWrite(s: Sys, r: Run, stamp: int, s': Sys)
    requires NotesInv(s) && Next(s, WriteNote(r, stamp)) == Some(s')
    ensures NotesInv(s')
  {
    UpsertVisible(s.notes, r, stamp);
    NotesMatchAfterWrite(Visible(s.notes), Visible(s'.notes), r, Write(s.time, stamp), s.wrote, s.pcs, Noted);
  }

  lemma NotesKeptByProgress(s: Sys, r: Run, stamp: int, column: State, s': Sys)
    requires NotesInv(s) && WinnersInv(s) && Next(s, Progress(r, stamp, column)) == Some(s')
    ensures NotesInv(s')
  {
    UpsertVisible(s.notes, r, stamp);
    assert IsWinner(s, r);
    forall q, i | q in s'.wrote && 0 <= i < |Visible(s'.notes)| && Visible(s'.notes)[i].run == q
      ensures Visible(s'.notes)[i].stamp >= s'.wrote[q].stamp
      ensures s'.pcs[q] != Done(true) ==> Visible(s'.notes)[i].stamp == s'.wrote[q].stamp
    {
      assert i < |Visible(s.notes)|;
      assert Visible(s.notes)[i] in s.notes;
    }
  }

  /** A step that only takes one run a step further along its claim. */
  ghost predicate OnlyMoves(s: Sys, r: Run, s': Sys)
    requires r in s'.pcs
  {
    && r in s.pcs && s'.pcs == s.pcs[r := s'.pcs[r]] && s'.time == s.time + 1
    && s'.notes == s.notes && s'.wrote == s.wrote && s'.judged == s.judged
    && s.pcs[r] != Done(true) && s'.pcs[r] != Done(true)
    && (HasWritten(s.pcs[r]) ==> HasWritten(s'.pcs[r]) || s'.pcs[r] == Done(false))
    && (HasWritten(s'.pcs[r]) ==> HasWritten(s.pcs[r]))
    && (s.pcs[r] == Done(false) ==> s'.pcs[r] == Done(false))
  }

  lemma NotesKeptByMove(s: Sys, r: Run, s': Sys)
    requires NotesInv(s) && r in s'.pcs && OnlyMoves(s, r, s')
    ensures NotesInv(s')
  {
  }

  lemma WinnersKeptByMove(s: Sys, r: Run, s': Sys)
    requires WinnersInv(s) && r in s'.pcs && OnlyMoves(s, r, s')
    ensures WinnersInv(s')
  {
    assert forall b :: HasVisible(s', b) <==> HasVisible(s, b);
    assert forall b :: IsWinner(s', b) <==> IsWinner(s, b);
    forall a, b | IsWinner(s', a) && b in s'.wrote && Outdid(s', a, b)
      ensures s'.wrote[b].stamp < s'.wrote[a].stamp
    {
      assert IsWinner(s, a) && Outdid(s, a, b);
    }
  }

  lemma WinnersKeptIdly(s: Sys, s': Sys)
    requires WinnersInv(s) && s'.pcs == s.pcs && s'.time == s.time + 1
    requires s'.notes == s.notes && s'.wrote == s.wrote && s'.judged == s.judged
    ensures WinnersInv(s')
  {
    assert forall b :: HasVisible(s', b) <==> HasVisible(s, b);
    assert forall b :: IsWinner(s', b) <==> IsWinner(s, b);
    forall a, b | IsWinner(s', a) && b in s'.wrote && Outdid(s', a, b)
      ensures s'.wrote[b].stamp < s'.wrote[a].stamp
    {
      assert IsWinner(s, a) && Outdid(s, a, b);
    }
  }

  lemma NotesKeptIdly(s: Sys, s': Sys)
    requires NotesInv(s) && s'.pcs == s.pcs && s'.time == s.time + 1
    requires s'.notes == s.notes && s'.wrote == s.wrote && s'.judged == s.judged
    ensures NotesInv(s')
  {
  }

  lemma NotesKeptByVerdict(s: Sys, r: Run, s': Sys)
    requires NotesInv(s) && Next(s, ReadVerdict(r)) == Some(s')
    ensures NotesInv(s')
  {
  }

  lemma MoveKept(s: Sys, r: Run, s': Sys)
    requires NotesInv(s) && WinnersInv(s) && r in s'.pcs && OnlyMoves(s, r, s')
    ensures NotesInv(s') && WinnersInv(s')
  {
    NotesKeptByMove(s, r, s');
    WinnersKeptByMove(s, r, s');
  }

  lemma IdleKept(s: Sys, s': Sys)
    requires NotesInv(s) && WinnersInv(s) && s'.pcs == s.pcs && s'.time == s.time + 1
    requires s'.notes == s.notes && s'.wrote == s.wrote && s'.judged == s.judged
    ensures NotesInv(s') && WinnersInv(s')
  {
    NotesKeptIdly(s, s');
    WinnersKeptIdly(s, s');
  }

  lemma WinnersKeptByVerdict(s: Sys, r: Run, s': Sys)
    requires NotesInv(s) && WinnersInv(s) && Next(s, ReadVerdict(r)) == Some(s')
    ensures WinnersInv(s')
  {
    var v := Visible(s.notes);
    VerdictExactlyWhen(v, r);
    if ClaimVerdict(v, r).Won? {
      var i :| 0 <= i < |v| && v[i].run == r && LaterThanOthers(v, i);
      assert HasVisible(s', r);
      forall b | b in s'.wrote && Outdid(s', r, b)
        ensures s'.wrote[b].stamp < s'.wrote[r].stamp
      {
        var j :| 0 <= j < |v| && v[j].run == b;
        assert v[j].stamp < v[i].stamp;
      }
    }
    forall a, b | IsWinner(s', a) && b in s'.wrote && Outdid(s', a, b)
      ensures s'.wrote[b].stamp < s'.wrote[a].stamp
    {
      if a != r {
        assert IsWinner(s, a);
        assert HasVisible(s, b);
        assert Outdid(s, a, b);
      }
    }
  }

  /** Other runs' visibility does not depend on what `r` writes; what is visible stays so. */
  lemma UpsertKeepsSight(s: Sys, r: Run, stamp: int, s': Sys)
    requires NotesInv(s) && s'.notes == Upsert(s.notes, r, stamp)
    ensures forall b :: b != r ==> (HasVisible(s, b) <==> HasVisible(s', b))
    ensures HasVisible(s, r) ==> HasVisible(s', r)
  {
    UpsertVisible(s.notes, r, stamp);
    var v, w := Visible(s.notes), Visible(s'.notes);
    forall b
      ensures b != r ==> (HasVisible(s, b) <==> HasVisible(s', b))
      ensures HasVisible(s, b) ==> HasVisible(s', b)
    {
      if HasVisible(s, b) {
        var i :| 0 <= i < |v| && v[i].run == b;
        assert w[i].run == b;
      }
      if HasVisible(s', b) && b != r {
        var i :| 0 <= i < |w| && w[i].run == b;
        assert v[i].run == b;
      }
    }
  }

  lemma WinnersKeptByUpsert(s: Sys, r: Run, stamp: int, s': Sys)
    requires NotesInv(s) && WinnersInv(s) && s'.notes == Upsert(s.notes, r, stamp)
    requires s'.judged == s.judged && s'.time == s.time + 1
    requires (s'.wrote == s.wrote && IsWinner(s, r)) ||
      (s'.wrote == s.wrote[r := Write(s.time, stamp)] && !IsWinner(s, r))
    requires forall q :: IsWinner(s', q) <==> IsWinner(s, q)
    ensures WinnersInv(s')
  {
    UpsertKeepsSight(s, r, stamp, s');
    forall a, b | IsWinner(s', a) && b in s'.wrote && Outdid(s', a, b)
      ensures s'.wrote[b].stamp < s'.wrote[a].stamp
    {
      assert IsWinner(s, a);
      if b != r || s'.wrote == s.wrote {
        assert HasVisible(s, b);
        assert Outdid(s, a, b);
      }
    }
  }

  lemma WriteKept(s: Sys, r: Run, stamp: int, s': Sys)
    requires NotesInv(s) && WinnersInv(s) && Next(s, WriteNote(r, stamp)) == Some(s')
    ensures NotesInv(s') && WinnersInv(s')
  {
    NotesKeptByWrite(s, r, stamp, s');
    WinnersKeptByUpsert(s, r, stamp, s');
  }

  lemma ProgressKept(s: Sys, r: Run, stamp: int, column: State, s': Sys)
    requires NotesInv(s) && WinnersInv(s) && Next(s, Progress(r, stamp, column)) == Some(s')
    ensures NotesInv(s') && WinnersInv(s')
  {
    NotesKeptByProgress(s, r, stamp, column, s');
    WinnersKeptByUpsert(s, r, stamp, s');
  }

  lemma VerdictKept(s: Sys, r: Run, s': Sys)
    requires NotesInv(s) && WinnersInv(s) && Next(s, ReadVerdict(r)) == Some(s')
    ensures NotesInv(s') && WinnersInv(s')
  {
    NotesKeptByVerdict(s, r, s');
    WinnersKeptByVerdict(s, r, s');
  }

  lemma Kept(s: Sys, a: Action, s': Sys)
    requires NotesInv(s) && WinnersInv(s) && Next(s, a) == Some(s')
    ensures NotesInv(s') && WinnersInv(s')
  {
    match a
    case WriteNote(r, stamp) => WriteKept(s, r, stamp, s');
    case Progress(r, stamp, column) => ProgressKept(s, r, stamp, column, s');
    case ReadVerdict(r) => VerdictKept(s, r, s');
    case Acquire(r) => IdleKept(s, s');
    case Release(r) => IdleKept(s, s');
    case Meddle(column) => IdleKept(s, s');
    case _ =>
      StepMoves(s, a, s');
      MoveKept(s, a.run, s');
  }

  lemma StepMoves(s: Sys, a: Action, s': Sys)
    requires Next(s, a) == Some(s') && (a.ReadItem? || a.ReadRecord? || a.PutLabel? || a.Recheck?)
    ensures a.run in s'.pcs && OnlyMoves(s, a.run, s')
  {
  }

  lemma {:induction false} Reachable(s0: Sys, actions: seq<Action>, s: Sys)
    requires Init(s0) && Exec(s0, actions) == Some(s)
    ensures NotesInv(s) && WinnersInv(s)
    decreases |actions|
  {
    if actions != [] {
      var n := |actions| - 1;
      var m := Exec(s0, actions[..n]).value;
      Reachable(s0, actions[..n], m);
      Kept(m, actions[n], s);
    }
  }

  /**
   * However the requests of any number of claims interleave, two runs are both told that they
   * own the item only if the note of one landed after the other had read its verdict. In
   * particular two claims whose notes both land before either verdict never both win, whatever
   * their stamps are, and with equal stamps neither does.
   */
  lemma BothWinOnlyByLateWrite(s0: Sys, actions: seq<Action>, s: Sys, a: Run, b: Run)
    requires Init(s0) && Exec(s0, actions) == Some(s)
    requires a != b && IsWinner(s, a) && IsWinner(s, b)
    ensures a in s.wrote && b in s.wrote && a in s.judged && b in s.judged
    ensures s.wrote[b].time >= s.judged[a] || s.wrote[a].time >= s.judged[b]
  {
    Reachable(s0, actions, s);
    if s.wrote[b].time < s.judged[a] && s.wrote[a].time < s.judged[b] {
      assert Outdid(s, a, b) && Outdid(s, b, a);
    }
  }

  /** A winner's stamp beats, strictly, every claim whose note it could see; equal stamps beat nobody. */
  lemma WinnerBeatsWhatItSaw(s0: Sys, actions: seq<Action>, s: Sys, a: Run, b: Run)
    requires Init(s0) && Exec(s0, actions) == Some(s)
    requires a != b && IsWinner(s, a) && b in s.wrote && HasVisible(s, b)
    ensures a in s.judged && a in s.wrote
    ensures s.wrote[b].time < s.judged[a] ==> s.wrote[b].stamp < s.wrote[a].stamp
  {
    Reachable(s0, actions, s);
    if s.wrote[b].time < s.judged[a] {
      assert Outdid(s, a, b);
    }
  }

  // --- Under the slot --------------------------------------------------------------------

  /** In the middle of a claim. */
  predicate Midway(pc: Pc) {
    pc != Idle && !pc.Done?
  }

  /** Refused, or about to be. */
  predicate LeftOut(pc: Pc) {
    pc == Idle || pc == Done(false) || (pc.SawState? && !Open(pc.state))
  }

  ghost predicate SlotInv(s: Sys) {
    && s.slotted && s.quiet
    && (forall r :: r in s.pcs && Midway(s.pcs[r]) ==> s.holder == Some(r))
    && (forall a :: IsWinner(s, a) && Open(s.column) ==> s.holder == Some(a))
    && (forall a, b :: IsWinner(s, a) && b in s.pcs && b != a ==> LeftOut(s.pcs[b]))
  }

  lemma SlotKept(s: Sys, a: Action, s': Sys)
    requires SlotInv(s) && Next(s, a) == Some(s')
    ensures SlotInv(s')
  {
    match a
    case Meddle(column) => SlotKeptAside(s, s');
    case Acquire(r) => SlotKeptAside(s, s');
    case Release(r) => SlotKeptAside(s, s');
    case Progress(r, stamp, column) => SlotKeptAside(s, s');
    case ReadVerdict(r) => SlotKeptByVerdict(s, r, s');
    case _ => SlotKeptByMove(s, a.run, s');
  }

  lemma SlotKeptAside(s: Sys, s': Sys)
    requires SlotInv(s) && s'.pcs == s.pcs && s'.slotted && s'.quiet
    requires s'.holder == s.holder || s.holder.None? || forall r :: r in s.pcs && s.holder == Some(r) ==> s.pcs[r].Done?
    requires forall r :: IsWinner(s, r) && Open(s'.column) ==> s'.holder == Some(r)
    ensures SlotInv(s')
  {
    assert forall q :: IsWinner(s', q) <==> IsWinner(s, q);
  }

  /** The one run that holds the slot moves on; where another has won, it can only be refused. */
  lemma SlotKeptByMove(s: Sys, r: Run, s': Sys)
    requires SlotInv(s) && r in s.pcs && r in s'.pcs && s'.pcs == s.pcs[r := s'.pcs[r]]
    requires s'.slotted && s'.quiet && s'.holder == s.holder == Some(r)
    requires s'.pcs[r] != Done(true) && s.pcs[r] != Done(true)
    requires s'.column == s.column || (s'.column == Claimed && s.pcs[r] == Decided)
    requires s.pcs[r] == Idle ==> s'.pcs[r] == SawState(s.column)
    requires s.pcs[r].SawState? && !Open(s.pcs[r].state) ==> s'.pcs[r] == Done(false)
    requires s.pcs[r] == Done(false) ==> s'.pcs[r] == Done(false)
    ensures SlotInv(s')
  {
    assert forall q :: IsWinner(s', q) <==> IsWinner(s, q);
  }

  lemma SlotKeptByVerdict(s: Sys, r: Run, s': Sys)
    requires SlotInv(s) && Next(s, ReadVerdict(r)) == Some(s')
    ensures SlotInv(s')
  {
    assert forall q :: q != r ==> (IsWinner(s', q) <==> IsWinner(s, q));
    forall q | q in s.pcs && q != r
      ensures !IsWinner(s, q) && (s.pcs[q] == Idle || s.pcs[q] == Done(false))
    {
      if IsWinner(s, q) {
        assert false;
      }
    }
  }

  lemma {:induction false} SlotReachable(s0: Sys, actions: seq<Action>, s: Sys)
    requires Init(s0) && s0.slotted && s0.quiet && Exec(s0, actions) == Some(s)
    ensures SlotInv(s)
    decreases |actions|
  {
    if actions != [] {
      var n := |actions| - 1;
      var m := Exec(s0, actions[..n]).value;
      SlotReachable(s0, actions[..n], m);
      SlotKept(m, actions[n], s);
    }
  }

  /**
   * When every claim is made under the item's slot, one run wins at most, however the winner moves
   * the item while it holds the slot and whoever closes it later; only an item that the winner has
   * left open, or that somebody opens again, can be won a second time.
   */
  lemma SlotAdmitsOneWinner(s0: Sys, actions: seq<Action>, s: Sys, a: Run, b: Run)
    requires Init(s0) && s0.slotted && s0.quiet && Exec(s0, actions) == Some(s)
    requires IsWinner(s, a) && IsWinner(s, b)
    ensures a == b
  {
    SlotReachable(s0, actions, s);
  }

  /**
   * Without the slot the residual window is real: the second run's note lands after the first
   * has read its verdict, and both are told that they own the item.
   */
  lemma LateWriteLetsBothWin()
    ensures exists s0: Sys, actions, s ::
      Init(s0) && Exec(s0, actions) == Some(s) && IsWinner(s, "a") && IsWinner(s, "b")
  {
    var s0 := Sys(Ready, [], map["a" := Idle, "b" := Idle], false, true, None, 0, map[], map[]);
    var t1, s1 := BothSwapTheLabel(s0);
    var t2, s2 := OneClaims(s0, t1, s1, "a", 1);
    var t3, s3 := OneClaims(s0, t2, s2, "b", 2);
    assert IsWinner(s3, "a") && IsWinner(s3, "b");
  }

  lemma BothSwapTheLabel(s0: Sys) returns (t: seq<Action>, s: Sys)
    requires s0 == Sys(Ready, [], map["a" := Idle, "b" := Idle], false, true, None, 0, map[], map[])
    ensures Exec(s0, t) == Some(s) && s.column == Claimed && s.notes == [] && !s.slotted
    ensures s.pcs == map["a" := Labelled, "b" := Labelled]
  {
    t, s := OneReads(s0, [], s0, "a");
    t, s := OneReads(s0, t, s, "b");
    t, s := OneIsAccepted(s0, t, s, "a");
    t, s := OneIsAccepted(s0, t, s, "b");
    t, s := OneLabels(s0, t, s, "a");
    t, s := OneLabels(s0, t, s, "b");
  }

  // One request each, and the whole state behind it.

  lemma OneReads(s0: Sys, t0: seq<Action>, m: Sys, r: Run) returns (t: seq<Action>, s: Sys)
    requires Exec(s0, t0) == Some(m) && MayStep(m, r, Idle)
    ensures Exec(s0, t) == Some(s) && s == Go(m, r, SawState(m.column))
  {
    t, s := Extend(s0, t0, m, ReadItem(r));
  }

  lemma OneIsAccepted(s0: Sys, t0: seq<Action>, m: Sys, r: Run) returns (t: seq<Action>, s: Sys)
    requires Exec(s0, t0) == Some(m) && r in m.pcs && m.pcs[r].SawState? && MayStep(m, r, m.pcs[r])
    requires DecideClaim(m.pcs[r].state, Holder(Visible(m.notes)), r).Accept?
    ensures Exec(s0, t) == Some(s) && s == Go(m, r, Decided)
  {
    t, s := Extend(s0, t0, m, ReadRecord(r));
  }

  lemma OneLabels(s0: Sys, t0: seq<Action>, m: Sys, r: Run) returns (t: seq<Action>, s: Sys)
    requires Exec(s0, t0) == Some(m) && MayStep(m, r, Decided)
    ensures Exec(s0, t) == Some(s) && s == Go(m, r, Labelled).(column := Claimed)
  {
    t, s := Extend(s0, t0, m, PutLabel(r));
  }

  lemma OneWrites(s0: Sys, t0: seq<Action>, m: Sys, r: Run, stamp: int) returns (t: seq<Action>, s: Sys)
    requires Exec(s0, t0) == Some(m) && MayStep(m, r, Labelled) && |m.notes| < PAGE_SIZE
    requires forall n :: n in m.notes ==> n.run != r
    ensures Exec(s0, t) == Some(s)
    ensures s == Go(m, r, Noted).(notes := m.notes + [Note(r, stamp)], wrote := m.wrote[r := Write(m.time, stamp)])
  {
    t, s := Extend(s0, t0, m, WriteNote(r, stamp));
  }

  lemma OneRechecks(s0: Sys, t0: seq<Action>, m: Sys, r: Run) returns (t: seq<Action>, s: Sys)
    requires Exec(s0, t0) == Some(m) && MayStep(m, r, Noted) && m.column == Claimed
    ensures Exec(s0, t) == Some(s) && s == Go(m, r, Rechecked)
  {
    t, s := Extend(s0, t0, m, Recheck(r));
  }

  lemma OneIsTold(s0: Sys, t0: seq<Action>, m: Sys, r: Run) returns (t: seq<Action>, s: Sys)
    requires Exec(s0, t0) == Some(m) && MayStep(m, r, Rechecked) && ClaimVerdict(Visible(m.notes), r).Won?
    ensures Exec(s0, t) == Some(s) && s == Go(m, r, Done(true)).(judged := m.judged[r := m.time])
  {
    t, s := Extend(s0, t0, m, ReadVerdict(r));
  }

  lemma OneAcquires(s0: Sys, t0: seq<Action>, m: Sys, r: Run) returns (t: seq<Action>, s: Sys)
    requires Exec(s0, t0) == Some(m) && m.slotted && m.holder.None? && r in m.pcs && m.pcs[r] == Idle
    ensures Exec(s0, t) == Some(s) && s == m.(holder := Some(r), time := m.time + 1)
  {
    t, s := Extend(s0, t0, m, Acquire(r));
  }

  lemma OneOpens(s0: Sys, t0: seq<Action>, m: Sys, a: Run, stamp: int) returns (t: seq<Action>, s: Sys)
    requires Exec(s0, t0) == Some(m) && !m.quiet && m.notes == [Note(a, stamp)] && IsWinner(m, a)
    ensures Exec(s0, t) == Some(s) && s == m.(column := PrOpen, time := m.time + 1)
  {
    t, s := Extend(s0, t0, m, Progress(a, stamp, PrOpen));
    assert m.notes[0 := Note(a, stamp)] == m.notes;
  }

  lemma OneReleases(s0: Sys, t0: seq<Action>, m: Sys, a: Run) returns (t: seq<Action>, s: Sys)
    requires Exec(s0, t0) == Some(m) && !m.quiet && m.holder == Some(a) && IsWinner(m, a)
    ensures Exec(s0, t) == Some(s) && s == m.(holder := None, time := m.time + 1)
  {
    t, s := Extend(s0, t0, m, Release(a));
  }

  /** The rest of a claim, undisturbed, with a stamp later than all on the item. */
  lemma OneClaims(s0: Sys, t0: seq<Action>, m: Sys, r: Run, stamp: int) returns (t: seq<Action>, s: Sys)
    requires Exec(s0, t0) == Some(m) && MayStep(m, r, Labelled) && m.column == Claimed && |m.notes| < PAGE_SIZE
    requires forall n :: n in m.notes ==> n.run != r && n.stamp < stamp
    ensures Exec(s0, t) == Some(s) && Aside(m, s) && s.column == Claimed && s.notes == m.notes + [Note(r, stamp)]
    ensures s.pcs == m.pcs[r := Done(true)]
  {
    t, s := OneWrites(s0, t0, m, r, stamp);
    assert LaterThanOthers(s.notes, |m.notes|);
    VerdictExactlyWhen(s.notes, r);
    t, s := OneConfirms(s0, t, s, r);
  }

  /** The slot is as it was, and so is what `quiet` asks of it. */
  predicate Aside(m: Sys, s: Sys) {
    s.slotted == m.slotted && s.quiet == m.quiet && s.holder == m.holder
  }

  lemma OneConfirms(s0: Sys, t0: seq<Action>, m: Sys, r: Run) returns (t: seq<Action>, s: Sys)
    requires Exec(s0, t0) == Some(m) && MayStep(m, r, Noted) && m.column == Claimed
    requires ClaimVerdict(Visible(m.notes), r).Won?
    ensures Exec(s0, t) == Some(s) && Aside(m, s) && s.column == m.column && s.notes == m.notes
    ensures s.pcs == m.pcs[r := Done(true)]
  {
    t, s := OneRechecks(s0, t0, m, r);
    t, s := OneIsTold(s0, t, s, r);
  }

  lemma OneDecides(s0: Sys, t0: seq<Action>, m: Sys, r: Run) returns (t: seq<Action>, s: Sys)
    requires Exec(s0, t0) == Some(m) && MayStep(m, r, Idle)
    requires DecideClaim(m.column, Holder(Visible(m.notes)), r).Accept?
    ensures Exec(s0, t) == Some(s) && Aside(m, s) && s.column == Claimed && s.notes == m.notes
    ensures s.pcs == m.pcs[r := Labelled]
  {
    t, s := OneReads(s0, t0, m, r);
    t, s := OneIsAccepted(s0, t, s, r);
    t, s := OneLabels(s0, t, s, r);
  }

  /** Under the slot, whatever the claim rule accepts can be won: here a takeover in flight succeeds too. */
  lemma SlottedClaimSucceeds(s0: Sys, t0: seq<Action>, m: Sys, r: Run, stamp: int)
    returns (t: seq<Action>, s: Sys)
    requires Exec(s0, t0) == Some(m) && m.slotted && m.holder.None? && r in m.pcs && m.pcs[r] == Idle
    requires DecideClaim(m.column, Holder(Visible(m.notes)), r).Accept? && |m.notes| < PAGE_SIZE
    requires forall n :: n in m.notes ==> n.run != r && n.stamp < stamp
    ensures Exec(s0, t) == Some(s) && s.slotted && s.quiet == m.quiet && s.holder == Some(r)
    ensures s.column == Claimed && s.notes == m.notes + [Note(r, stamp)] && s.pcs == m.pcs[r := Done(true)]
  {
    t, s := OneAcquires(s0, t0, m, r);
    t, s := OneDecides(s0, t, s, r);
    t, s := OneClaims(s0, t, s, r, stamp);
  }

  lemma SecondClaimWins(s0: Sys, t0: seq<Action>, m: Sys, a: Run, b: Run, stamp: int)
    returns (t: seq<Action>, s: Sys)
    requires Exec(s0, t0) == Some(m) && m.slotted && !m.quiet && m.notes == [Note(a, stamp)] && m.holder == Some(a)
    requires IsWinner(m, a) && a != b && b in m.pcs && m.pcs[b] == Idle
    ensures Exec(s0, t) == Some(s) && IsWinner(s, a) && IsWinner(s, b)
  {
    t, s := LeftOpen(s0, t0, m, a, stamp);
    t, s := SlottedClaimSucceeds(s0, t, s, b, stamp + 1);
  }

  /** So an item that its winner leaves in `pr_open` when it releases the slot can be won a second time. */
  lemma LeftOpenIsWonTwice(a: Run, b: Run) returns (s0: Sys, t: seq<Action>, s: Sys)
    requires a != b
    ensures Init(s0) && s0.slotted && Exec(s0, t) == Some(s) && IsWinner(s, a) && IsWinner(s, b)
  {
    s0 := Sys(Ready, [], map[a := Idle, b := Idle], true, false, None, 0, map[], map[]);
    t, s := SlottedClaimSucceeds(s0, [], s0, a, 1);
    assert s.notes == [Note(a, 1)];
    t, s := SecondClaimWins(s0, t, s, a, b, 1);
  }

  lemma LeftOpen(s0: Sys, t0: seq<Action>, m: Sys, a: Run, stamp: int) returns (t: seq<Action>, s: Sys)
    requires Exec(s0, t0) == Some(m) && !m.quiet && m.notes == [Note(a, stamp)] && m.holder == Some(a) && IsWinner(m, a)
    ensures Exec(s0, t) == Some(s) && s.slotted == m.slotted && !s.quiet && s.holder == None && s.pcs == m.pcs
    ensures s.column == PrOpen && s.notes == m.notes && Holder(Visible(s.notes)) == Some(a)
  {
    t, s := OneOpens(s0, t0, m, a, stamp);
    t, s := OneReleases(s0, t, s, a);
  }

  lemma Extend(s0: Sys, actions: seq<Action>, m: Sys, a: Action) returns (longer: seq<Action>, s: Sys)
    requires Exec(s0, actions) == Some(m) && Next(m, a).Some?
    ensures longer == actions + [a] && Next(m, a) == Some(s) && Exec(s0, longer) == Some(s)
  {
    longer, s := actions + [a], Next(m, a).value;
    assert longer[..|longer| - 1] == actions;
  }
}
