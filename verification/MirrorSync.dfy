/**
 * Whether a projection follows the primary: what becomes of a copy that is there, call by call and
 * by a rebuild. Mirrors are reliable here, so their contents are what the calls project.
 */
module MirrorSync {
  import opened Wrappers
  import opened BoardState
  import opened ProviderErrors
  import opened FakeBoard
  import opened MirrorProjection
  import opened Mirroring
  import M = CreateMarker

  // One copy.

  /** Where a copy gets when it is projected in state `to`: the mirror's own table decides. */
  function Moved(s: State, to: State): State {
    if s == to || CanTransition(s, to) then to else s
  }

  /** A copy says one state only. */
  lemma SaysOne(c: Contents, meta: string, p: string, s: State, s': State)
    requires Sound(c, meta) && CopySays(c, meta, p, s)
    ensures CopySays(c, meta, p, s') <==> s == s'
  {
    var i :| 0 <= i < |c.items| && Copies(c.items[i], meta, p) && c.items[i].state == s;
    if CopySays(c, meta, p, s') {
      var j :| 0 <= j < |c.items| && Copies(c.items[j], meta, p) && c.items[j].state == s';
      assert i == j;
    }
  }

  /** A copy that is there is found again. */
  lemma CopyIsFound(c: Contents, t: Target, meta: string, p: string, spec: Spec, i: nat)
    requires Sound(c, meta) && i < |c.items| && Copies(c.items[i], meta, p) && spec.key == Some(MirrorKey(meta, p))
    ensures Found(c, t, spec) == (c, if t.canCreate then Some(c.items[i].id) else None)
  {
    assert CopyAt(c, meta, p, c.items[i].id);
    CacheHit(c, meta, p, c.items[i].id, spec);
    IndexIsUnique(c, i);
  }

  lemma SettledMoves(c: Contents, i: nat, to: State)
    requires UniqueIds(c) && i < |c.items|
    ensures
      var c' := Settled(c, c.items[i].id, to).0;
      && |c'.items| == |c.items| && c'.items[i] == c.items[i].(state := Moved(c.items[i].state, to))
      && (Moved(c.items[i].state, to) == c.items[i].state ==> c' == c)
  {
    IndexIsUnique(c, i);
  }

  /** A copy that is there is moved if the table allows it. */
  lemma CopyIsMoved(c: Contents, t: Target, meta: string, item: Item, to: State, s: State)
    requires Sound(c, meta) && CopySays(c, meta, item.id, s)
    ensures CopySays(ProjectedItem(c, t, meta, item, to).0, meta, item.id, if t.canCreate then Moved(s, to) else s)
    ensures !t.canCreate || Moved(s, to) == s ==> ProjectedItem(c, t, meta, item, to).0 == c
  {
    var i :| 0 <= i < |c.items| && Copies(c.items[i], meta, item.id) && c.items[i].state == s;
    CopyIsFound(c, t, meta, item.id, CopySpec(meta, item.id, item.title, item.body, to, TagsFor(t, item)), i);
    SettledMoves(c, i, to);
    if t.canCreate {
      var c' := Settled(c, c.items[i].id, to).0;
      assert Copies(c'.items[i], meta, item.id) && c'.items[i].state == Moved(s, to);
    }
  }

  /** A new copy is filed in the state that it is projected for. */
  lemma CopyIsFiled(c: Contents, t: Target, meta: string, item: Item, to: State)
    requires Sound(c, meta) && t.canCreate && M.ValidKey(MirrorKey(meta, item.id))
    requires forall i :: 0 <= i < |c.items| ==> !Copies(c.items[i], meta, item.id)
    ensures CopySays(ProjectedItem(c, t, meta, item, to).0, meta, item.id, to)
  {
    var spec := CopySpec(meta, item.id, item.title, item.body, to, TagsFor(t, item));
    var c' := Creating(c, spec).0;
    CreatingKeeps(c, spec);
    NewItemCarries(c, spec);
    assert c'.items[|c.items|] == NewItem(c, spec);
    IndexIsUnique(c', |c.items|);
    assert Copies(c'.items[|c.items|], meta, item.id);
  }

  lemma OtherCopyStays(c: Contents, t: Target, meta: string, item: Item, to: State, q: string, s: State)
    requires Sound(c, meta) && Unmarked(item.body, meta) && q != item.id
    ensures CopySays(ProjectedItem(c, t, meta, item, to).0, meta, q, s) <==> CopySays(c, meta, q, s)
  {
    var c' := ProjectedItem(c, t, meta, item, to).0;
    ProjectedExtends(c, t, meta, item, to);
    if CopySays(c', meta, q, s) {
      var i :| 0 <= i < |c'.items| && Copies(c'.items[i], meta, q) && c'.items[i].state == s;
      OthersUntouched(c, t, meta, item, to, q, i);
    }
    if CopySays(c, meta, q, s) {
      var i :| 0 <= i < |c.items| && Copies(c.items[i], meta, q) && c.items[i].state == s;
      assert c'.items[i].body == c.items[i].body;
      OthersUntouched(c, t, meta, item, to, q, i);
    }
  }

  /**
   * After an item is projected in its state, the copy says that state exactly if the mirror took the
   * item as it stood.
   */
  lemma ProjectedSaysExactlyWhen(c: Contents, t: Target, meta: string, item: Item)
    requires Sound(c, meta) && Unmarked(item.body, meta) && t.canCreate
    ensures CopySays(ProjectedItem(c, t, meta, item, item.state).0, meta, item.id, item.state) <==>
      Takes(c, t, meta, item)
  {
    if M.ValidKey(MirrorKey(meta, item.id)) {
      if i :| 0 <= i < |c.items| && Copies(c.items[i], meta, item.id) {
        var s := c.items[i].state;
        assert CopySays(c, meta, item.id, s);
        CopyIsMoved(c, t, meta, item, item.state, s);
        SoundProjects(c, t, meta, item, item.state);
        SaysOne(ProjectedItem(c, t, meta, item, item.state).0, meta, item.id, Moved(s, item.state), item.state);
        assert Accepts(c, meta, item.id, item.state) <==> Moved(s, item.state) == item.state;
      } else {
        CopyIsFiled(c, t, meta, item, item.state);
      }
    }
  }

  lemma SoundProjects(c: Contents, t: Target, meta: string, item: Item, to: State)
    requires Sound(c, meta) && Unmarked(item.body, meta)
    ensures Sound(ProjectedItem(c, t, meta, item, to).0, meta)
  {
    var spec := CopySpec(meta, item.id, item.title, item.body, to, TagsFor(t, item));
    SoundCreates(c, meta, item.id, item.title, item.body, to, TagsFor(t, item));
    var (c', id) := Found(c, t, spec);
    if id.Some? {
      SoundActs(c', meta, On(id.value, Transition(to)));
    }
  }

  // Call by call.

  lemma RemarkKeepsItems(c: Contents, t: Target, meta: string, p: string, state: State, body: string, runId: string,
                         i: nat)
    requires UniqueIds(c) && i < |c.items|
    ensures
      var c' := ProjectedRemark(c, t, meta, p, state, body, runId);
      i < |c'.items| && c'.items[i] == c.items[i]
  {
    CreatingKeeps(c, CopySpec(meta, p, "mirror of " + p, "", state, []));
  }

  lemma RemarkKeepsCopies(c: Contents, t: Target, meta: string, p: string, state: State, body: string, runId: string,
                          q: string, s: State)
    requires Sound(c, meta) && CopySays(c, meta, q, s)
    ensures Sound(ProjectedRemark(c, t, meta, p, state, body, runId), meta)
    ensures CopySays(ProjectedRemark(c, t, meta, p, state, body, runId), meta, q, s)
  {
    SoundRemark(c, t, meta, p, state, body, runId);
    var i :| 0 <= i < |c.items| && Copies(c.items[i], meta, q) && c.items[i].state == s;
    RemarkKeepsItems(c, t, meta, p, state, body, runId, i);
  }

  /** What a copy of `p` that says `s` says after the call. */
  function CopyStep(t: Target, s: State, pc: Contents, call: Call, p: string): State {
    var r := Perform(pc, call).1;
    if r.Err? || !t.canCreate then s
    else match call
      case CreateWork(_) => if r.value.Created? && r.value.item.id == p then Moved(s, r.value.item.state) else s
      case On(id, Transition(to)) => if id == p then Moved(s, to) else s
      case _ => s
  }

  lemma CopyEvolves(c: Contents, t: Target, meta: string, pc: Contents, call: Call, p: string, s: State)
    requires Sound(c, meta) && Projectable(pc, meta) && Honest(call, meta) && CopySays(c, meta, p, s)
    ensures Sound(Projected(c, t, meta, pc, call), meta)
    ensures CopySays(Projected(c, t, meta, pc, call), meta, p, CopyStep(t, s, pc, call, p))
  {
    StaysProjectable(pc, call, meta);
    var (pc', r) := Perform(pc, call);
    if r.Ok? {
      match call
      case CreateWork(spec) =>
        CreatedIsThere(pc, spec);
        ItemEvolves(c, t, meta, r.value.item, r.value.item.state, p, s);
      case On(id, Transition(to)) =>
        StillThere(pc, call);
        ItemEvolves(c, t, meta, pc'.items[IndexOf(pc'.items, id).value], to, p, s);
      case On(id, Remark(body, runId)) =>
        StillThere(pc, call);
        RemarkKeepsCopies(c, t, meta, id, pc'.items[IndexOf(pc'.items, id).value].state, body, runId, p, s);
      case _ =>
    }
  }

  lemma ItemEvolves(c: Contents, t: Target, meta: string, item: Item, to: State, p: string, s: State)
    requires Sound(c, meta) && Unmarked(item.body, meta) && CopySays(c, meta, p, s)
    ensures Sound(ProjectedItem(c, t, meta, item, to).0, meta)
    ensures CopySays(ProjectedItem(c, t, meta, item, to).0, meta, p,
                     if t.canCreate && item.id == p then Moved(s, to) else s)
  {
    SoundProjects(c, t, meta, item, to);
    if item.id == p {
      CopyIsMoved(c, t, meta, item, to, s);
    } else {
      OtherCopyStays(c, t, meta, item, to, p, s);
    }
  }

  predicate Has(pc: Contents, p: string) {
    IndexOf(pc.items, p).Some?
  }

  function StateIn(pc: Contents, p: string): State
    requires Has(pc, p)
  {
    pc.items[IndexOf(pc.items, p).value].state
  }

  /** The call is a claim of `p`, and it succeeds. */
  predicate Claims(pc: Contents, call: Call, p: string) {
    call.On? && call.id == p && call.action.Claim? && Perform(pc, call).1 == Ok(Taken(true))
  }

  /** The call files `p`, for the first time or again. */
  predicate Files(pc: Contents, call: Call, p: string) {
    call.CreateWork? && Perform(pc, call).1.Ok? && Perform(pc, call).1.value.Created? &&
    Perform(pc, call).1.value.item.id == p
  }

  /** Where the call leaves an item of the primary, and what it answers about it if it is filed again. */
  lemma PrimaryStep(pc: Contents, call: Call, p: string)
    requires UniqueIds(pc) && Has(pc, p)
    ensures
      var (pc', r) := Perform(pc, call);
      && Has(pc', p)
      && (if Claims(pc, call, p) then StateIn(pc, p) != Claimed && StateIn(pc', p) == Claimed
          else if call.On? && call.id == p && call.action.Transition? && r.Ok? then
            CanTransition(StateIn(pc, p), call.action.to) && StateIn(pc', p) == call.action.to
          else StateIn(pc', p) == StateIn(pc, p))
      && (Files(pc, call, p) ==> r.value.item.state == StateIn(pc, p))
  {
    var i := IndexOf(pc.items, p).value;
    PerformKeeps(pc, call);
    var pc' := Perform(pc, call).0;
    assert pc'.items[i].id == p;
    IndexIsUnique(pc', i);
    match call
    case CreateWork(spec) => PrimaryRefiles(pc, spec, p);
    case ListWork(_) =>
    case On(id, action) =>
      if Has(pc, id) {
        ActingOn(pc, IndexOf(pc.items, id).value, action, i);
      }
  }

  /** What an action on the `k`-th item does to the state of the `i`-th. */
  lemma ActingOn(pc: Contents, k: nat, action: Action, i: nat)
    requires k < |pc.items| && i < |pc.items|
    ensures
      var (pc', r) := Acting(pc, k, action);
      && |pc'.items| == |pc.items|
      && (if k == i && action.Claim? && r == Ok(Taken(true)) then
            pc.items[i].state != Claimed && pc'.items[i].state == Claimed
          else if k == i && action.Transition? && r.Ok? then
            CanTransition(pc.items[i].state, action.to) && pc'.items[i].state == action.to
          else pc'.items[i].state == pc.items[i].state)
  {
  }

  lemma PrimaryRefiles(pc: Contents, spec: Spec, p: string)
    requires UniqueIds(pc) && Has(pc, p)
    ensures
      var (pc', r) := Creating(pc, spec);
      && (forall i :: 0 <= i < |pc.items| ==> i < |pc'.items| && pc'.items[i] == pc.items[i])
      && (r.Ok? && r.value.item.id == p ==> r.value.item.state == StateIn(pc, p))
  {
    CreatingKeeps(pc, spec);
    var (pc', r) := Creating(pc, spec);
    var i := IndexOf(pc.items, p).value;
    if r.Ok? && pc' != pc {
      assert pc.items[i].id != ItemId(pc.itemSeq + 1);
    } else if r.Ok? {
      IndexIsUnique(pc, FirstCarrying(pc.items, spec.key.value).value);
    }
  }

  /** The call files `p` again while the primary shows it as claimed. */
  predicate Revives(pc: Contents, call: Call, p: string) {
    Files(pc, call, p) && Has(pc, p) && StateIn(pc, p) == Claimed
  }

  /** The call projects a state of `p`: it files the item, or moves it. */
  predicate ProjectsState(pc: Contents, call: Call, p: string) {
    || Files(pc, call, p)
    || (call.On? && call.id == p && call.action.Transition? && Perform(pc, call).1.Ok?)
  }

  /** The copy says what the primary says. */
  ghost predicate InSync(c: Contents, meta: string, pc: Contents, p: string) {
    Has(pc, p) && CopySays(c, meta, p, StateIn(pc, p))
  }

  /**
   * After a call that projects a state of an item, the copy says what the primary says exactly if
   * the mirror, as it stood before, takes the item as it is now.
   */
  lemma CallSaysExactlyWhen(c: Contents, t: Target, meta: string, pc: Contents, call: Call, p: string)
    requires Sound(c, meta) && Projectable(pc, meta) && Honest(call, meta) && t.canCreate && ProjectsState(pc, call, p)
    ensures
      var pc' := Perform(pc, call).0;
      Has(pc', p) &&
      (InSync(Projected(c, t, meta, pc, call), meta, pc', p) <==>
       Takes(c, t, meta, pc'.items[IndexOf(pc'.items, p).value]))
  {
    StaysProjectable(pc, call, meta);
    var (pc', r) := Perform(pc, call);
    match call
    case CreateWork(spec) =>
      CreatedIsThere(pc, spec);
      var i :| 0 <= i < |pc'.items| && pc'.items[i] == r.value.item;
      IndexIsUnique(pc', i);
      ProjectedSaysExactlyWhen(c, t, meta, r.value.item);
    case On(id, Transition(to)) =>
      StillThere(pc, call);
      PrimaryMoved(pc, id, to);
      ProjectedSaysExactlyWhen(c, t, meta, pc'.items[IndexOf(pc'.items, id).value]);
  }

  lemma PrimaryMoved(pc: Contents, id: string, to: State)
    requires UniqueIds(pc) && Perform(pc, On(id, Transition(to))).1.Ok?
    ensures Has(Perform(pc, On(id, Transition(to))).0, id) && StateIn(Perform(pc, On(id, Transition(to))).0, id) == to
  {
    PrimaryStep(pc, On(id, Transition(to)), id);
  }

  /** A copy that follows the primary goes on following it, call by call, exactly until a claim. */
  lemma FollowsExactlyUntilClaimed(c: Contents, t: Target, meta: string, pc: Contents, call: Call, p: string)
    requires Sound(c, meta) && Projectable(pc, meta) && Honest(call, meta) && t.canCreate && InSync(c, meta, pc, p)
    ensures InSync(Projected(c, t, meta, pc, call), meta, Perform(pc, call).0, p) <==> !Claims(pc, call, p)
  {
    var s := StateIn(pc, p);
    CopyEvolves(c, t, meta, pc, call, p, s);
    PrimaryStep(pc, call, p);
    var c', pc' := Projected(c, t, meta, pc, call), Perform(pc, call).0;
    SaysOne(c', meta, p, CopyStep(t, s, pc, call, p), StateIn(pc', p));
  }

  /** The primary has left `ready`, and the copy still says it. */
  ghost predicate Stranded(c: Contents, meta: string, pc: Contents, p: string) {
    Has(pc, p) && StateIn(pc, p) != Ready && CopySays(c, meta, p, Ready)
  }

  /** The first claim strands the copy. */
  lemma ClaimStrands(c: Contents, t: Target, meta: string, pc: Contents, call: Call, p: string)
    requires Sound(c, meta) && Projectable(pc, meta) && Has(pc, p) && CopySays(c, meta, p, Ready) && Claims(pc, call, p)
    ensures Stranded(Projected(c, t, meta, pc, call), meta, Perform(pc, call).0, p)
  {
    CopyEvolves(c, t, meta, pc, call, p, Ready);
    PrimaryStep(pc, call, p);
  }

  /** And no call brings it back but filing the item again while it is `claimed`. */
  lemma StrandedExactlyUntilRefiled(c: Contents, t: Target, meta: string, pc: Contents, call: Call, p: string)
    requires Sound(c, meta) && Projectable(pc, meta) && Honest(call, meta) && t.canCreate && Stranded(c, meta, pc, p)
    ensures Stranded(Projected(c, t, meta, pc, call), meta, Perform(pc, call).0, p) <==>
      !Revives(pc, call, p)
  {
    CopyEvolves(c, t, meta, pc, call, p, Ready);
    PrimaryStep(pc, call, p);
    SaysOne(Projected(c, t, meta, pc, call), meta, p, CopyStep(t, Ready, pc, call, p), Ready);
  }

  // Over runs of calls.

  lemma {:induction false} RunKeeps(c: Contents, t: Target, meta: string, pc: Contents, calls: seq<Call>)
    requires Sound(c, meta) && Projectable(pc, meta) && forall i :: 0 <= i < |calls| ==> Honest(calls[i], meta)
    ensures Sound(ProjectedRun(c, t, meta, pc, calls), meta) && Projectable(After(pc, calls), meta)
    decreases |calls|
  {
    if calls != [] {
      var n := |calls| - 1;
      RunKeeps(c, t, meta, pc, calls[..n]);
      var m, mc := After(pc, calls[..n]), ProjectedRun(c, t, meta, pc, calls[..n]);
      StaysProjectable(m, calls[n], meta);
      SoundCall(mc, t, meta, m, calls[n]);
    }
  }

  lemma SoundCall(c: Contents, t: Target, meta: string, pc: Contents, call: Call)
    requires Sound(c, meta) && Projectable(pc, meta) && Honest(call, meta)
    ensures Sound(Projected(c, t, meta, pc, call), meta)
  {
    StaysProjectable(pc, call, meta);
    var (pc', r) := Perform(pc, call);
    if r.Ok? {
      match call
      case CreateWork(spec) =>
        CreatedIsThere(pc, spec);
        SoundProjects(c, t, meta, r.value.item, r.value.item.state);
      case On(id, Transition(to)) =>
        StillThere(pc, call);
        SoundProjects(c, t, meta, pc'.items[IndexOf(pc'.items, id).value], to);
      case On(id, Remark(body, runId)) =>
        SoundRemark(c, t, meta, id, pc'.items[IndexOf(pc'.items, id).value].state, body, runId);
      case _ =>
    }
  }

  lemma SoundRemark(c: Contents, t: Target, meta: string, p: string, state: State, body: string, runId: string)
    requires Sound(c, meta)
    ensures Sound(ProjectedRemark(c, t, meta, p, state, body, runId), meta)
  {
    NoTextUnmarked(meta);
    SoundCreates(c, meta, p, "mirror of " + p, "", state, []);
    var (found, id) := Found(c, t, CopySpec(meta, p, "mirror of " + p, "", state, []));
    if id.Some? {
      SoundActs(found, meta, On(id.value, Remark(body, runId)));
    }
  }

  /** A copy that follows the primary does so over any run in which the item is not claimed. */
  lemma {:induction false} FollowsUnclaimedRun(
    c: Contents, t: Target, meta: string, pc: Contents, calls: seq<Call>, p: string)
    requires Sound(c, meta) && Projectable(pc, meta) && forall i :: 0 <= i < |calls| ==> Honest(calls[i], meta)
    requires t.canCreate && InSync(c, meta, pc, p)
    requires forall i :: 0 <= i < |calls| ==> !Claims(After(pc, calls[..i]), calls[i], p)
    ensures InSync(ProjectedRun(c, t, meta, pc, calls), meta, After(pc, calls), p)
    decreases |calls|
  {
    if calls != [] {
      var n := |calls| - 1;
      assert forall i :: 0 <= i < n ==> calls[..n][..i] == calls[..i];
      FollowsUnclaimedRun(c, t, meta, pc, calls[..n], p);
      RunKeeps(c, t, meta, pc, calls[..n]);
      FollowsExactlyUntilClaimed(ProjectedRun(c, t, meta, pc, calls[..n]), t, meta, After(pc, calls[..n]), calls[n], p);
    }
  }

  /** A copy that is left behind in `ready` stays there over any run that does not file the claimed item again. */
  lemma {:induction false} StrandedOverRun(
    c: Contents, t: Target, meta: string, pc: Contents, calls: seq<Call>, p: string)
    requires Sound(c, meta) && Projectable(pc, meta) && forall i :: 0 <= i < |calls| ==> Honest(calls[i], meta)
    requires t.canCreate && Stranded(c, meta, pc, p)
    requires forall i :: 0 <= i < |calls| ==> !Revives(After(pc, calls[..i]), calls[i], p)
    ensures Stranded(ProjectedRun(c, t, meta, pc, calls), meta, After(pc, calls), p)
    decreases |calls|
  {
    if calls != [] {
      var n := |calls| - 1;
      assert forall i :: 0 <= i < n ==> calls[..n][..i] == calls[..i];
      StrandedOverRun(c, t, meta, pc, calls[..n], p);
      RunKeeps(c, t, meta, pc, calls[..n]);
      var mc, m := ProjectedRun(c, t, meta, pc, calls[..n]), After(pc, calls[..n]);
      StrandedExactlyUntilRefiled(mc, t, meta, m, calls[n], p);
    }
  }

  // Rebuilding.

  /** The items of a primary, as a rebuild reads them. */
  ghost predicate Rebuildable(items: seq<Item>, meta: string) {
    && (forall i :: 0 <= i < |items| ==> Unmarked(items[i].body, meta))
    && (forall i, j :: 0 <= i < j < |items| ==> items[i].id != items[j].id)
  }

  /** Projecting the item changes nothing any more. */
  ghost predicate AtRest(c: Contents, t: Target, meta: string, item: Item) {
    t.canCreate && M.ValidKey(MirrorKey(meta, item.id)) ==>
      exists s :: CopySays(c, meta, item.id, s) && Moved(s, item.state) == s
  }

  lemma AtRestStays(c: Contents, t: Target, meta: string, item: Item)
    requires Sound(c, meta) && AtRest(c, t, meta, item)
    ensures ProjectedItem(c, t, meta, item, item.state).0 == c
  {
    if t.canCreate && M.ValidKey(MirrorKey(meta, item.id)) {
      var s :| CopySays(c, meta, item.id, s) && Moved(s, item.state) == s;
      CopyIsMoved(c, t, meta, item, item.state, s);
    }
  }

  lemma ComesToRest(c: Contents, t: Target, meta: string, item: Item)
    requires Sound(c, meta)
    ensures AtRest(ProjectedItem(c, t, meta, item, item.state).0, t, meta, item)
  {
    if t.canCreate && M.ValidKey(MirrorKey(meta, item.id)) {
      var c' := ProjectedItem(c, t, meta, item, item.state).0;
      if i :| 0 <= i < |c.items| && Copies(c.items[i], meta, item.id) {
        assert CopySays(c, meta, item.id, c.items[i].state);
        CopyIsMoved(c, t, meta, item, item.state, c.items[i].state);
        assert CopySays(c', meta, item.id, Moved(c.items[i].state, item.state));
      } else {
        CopyIsFiled(c, t, meta, item, item.state);
      }
    }
  }

  /** After `n` items: those are at rest and say their state if they were taken; the rest is as before. */
  ghost predicate RebuiltTo(c: Contents, r: Contents, t: Target, meta: string, items: seq<Item>, n: nat)
    requires n <= |items|
  {
    && Sound(r, meta)
    && (forall j :: 0 <= j < n ==> AtRest(r, t, meta, items[j]))
    && (forall j :: 0 <= j < n ==> (CopySays(r, meta, items[j].id, items[j].state) <==> Takes(c, t, meta, items[j])))
    && (forall j :: n <= j < |items| ==> (Takes(r, t, meta, items[j]) <==> Takes(c, t, meta, items[j])))
  }

  lemma {:induction false} Rebuilds(c: Contents, t: Target, meta: string, items: seq<Item>, n: nat)
    requires Sound(c, meta) && Rebuildable(items, meta) && t.canCreate && n <= |items|
    ensures RebuiltTo(c, Resynced(c, t, meta, items[..n]), t, meta, items, n)
    decreases n
  {
    if n > 0 {
      Rebuilds(c, t, meta, items, n - 1);
      assert items[..n][..n - 1] == items[..n - 1] && items[..n][n - 1] == items[n - 1];
      RebuildsOne(c, Resynced(c, t, meta, items[..n - 1]), t, meta, items, n - 1);
    } else {
      assert items[..0] == [];
    }
  }

  lemma RebuildsOne(c: Contents, r: Contents, t: Target, meta: string, items: seq<Item>, n: nat)
    requires Rebuildable(items, meta) && t.canCreate && n < |items| && RebuiltTo(c, r, t, meta, items, n)
    ensures RebuiltTo(c, ProjectedItem(r, t, meta, items[n], items[n].state).0, t, meta, items, n + 1)
  {
    var r' := ProjectedItem(r, t, meta, items[n], items[n].state).0;
    SoundProjects(r, t, meta, items[n], items[n].state);
    ProjectedSaysExactlyWhen(r, t, meta, items[n]);
    ComesToRest(r, t, meta, items[n]);
    TakingOne(r, t, meta, items, n);
    forall j | 0 <= j < n
      ensures AtRest(r', t, meta, items[j])
      ensures CopySays(r', meta, items[j].id, items[j].state) <==> CopySays(r, meta, items[j].id, items[j].state)
    {
      OtherCopyStays(r, t, meta, items[n], items[n].state, items[j].id, items[j].state);
      if M.ValidKey(MirrorKey(meta, items[j].id)) {
        var s :| CopySays(r, meta, items[j].id, s) && Moved(s, items[j].state) == s;
        OtherCopyStays(r, t, meta, items[n], items[n].state, items[j].id, s);
      }
    }
  }

  /** A rebuild repairs exactly the items that the mirror takes as it stands. */
  lemma ResyncRepairsExactly(c: Contents, t: Target, meta: string, pc: Contents, p: string)
    requires Sound(c, meta) && Projectable(pc, meta) && t.canCreate && Has(pc, p)
    ensures InSync(Resynced(c, t, meta, pc.items), meta, pc, p) <==>
      Takes(c, t, meta, pc.items[IndexOf(pc.items, p).value])
  {
    Rebuilds(c, t, meta, pc.items, |pc.items|);
    assert pc.items[..|pc.items|] == pc.items;
  }

  /** A stranded copy is repaired only while the item is `claimed`. */
  lemma StrandedIsRebuiltExactlyWhen(c: Contents, t: Target, meta: string, pc: Contents, p: string)
    requires Sound(c, meta) && Projectable(pc, meta) && t.canCreate && Stranded(c, meta, pc, p)
    ensures InSync(Resynced(c, t, meta, pc.items), meta, pc, p) <==> StateIn(pc, p) == Claimed
  {
    ResyncRepairsExactly(c, t, meta, pc, p);
    var i :| 0 <= i < |c.items| && Copies(c.items[i], meta, p) && c.items[i].state == Ready;
    assert Accepts(c, meta, p, StateIn(pc, p)) <==> CanTransition(Ready, StateIn(pc, p));
  }

  /** And a second rebuild changes nothing. */
  lemma ResyncTwice(c: Contents, t: Target, meta: string, items: seq<Item>)
    requires Sound(c, meta) && Rebuildable(items, meta)
    ensures Resynced(Resynced(c, t, meta, items), t, meta, items) == Resynced(c, t, meta, items)
  {
    if t.canCreate {
      Rebuilds(c, t, meta, items, |items|);
      assert items[..|items|] == items;
      RestingStays(Resynced(c, t, meta, items), t, meta, items);
    } else {
      NothingFiled(c, t, meta, items);
      NothingFiled(Resynced(c, t, meta, items), t, meta, items);
    }
  }

  lemma {:induction false} RestingStays(c: Contents, t: Target, meta: string, items: seq<Item>)
    requires Sound(c, meta) && forall j :: 0 <= j < |items| ==> AtRest(c, t, meta, items[j])
    ensures Resynced(c, t, meta, items) == c
    decreases |items|
  {
    if items != [] {
      RestingStays(c, t, meta, items[..|items| - 1]);
      AtRestStays(c, t, meta, items[|items| - 1]);
    }
  }

  lemma {:induction false} NothingFiled(c: Contents, t: Target, meta: string, items: seq<Item>)
    requires !t.canCreate
    ensures Resynced(c, t, meta, items) == c
    decreases |items|
  {
    if items != [] {
      NothingFiled(c, t, meta, items[..|items| - 1]);
    }
  }

  // A run.

  const EMPTY := Contents([], 0, map[], 0, map[])
  const FILING := CreateWork(Spec("title", "body", None, None, []))

  function ClaimCall(id: string): Call {
    On(id, Claim("run", ""))
  }

  function ReviewCall(id: string): Call {
    On(id, Transition(PrOpen))
  }

  /** An item is filed, claimed and put under review. */
  function Delivery(id: string): seq<Call> {
    [FILING, ClaimCall(id), ReviewCall(id)]
  }

  /** On an empty board, and an empty mirror that can hold the copy, that strands the copy. */
  lemma DeliveryStrands(meta: string, t: Target)
    requires t.canCreate && M.ValidKey(MirrorKey(meta, ItemId(1)))
    ensures
      var c, pc := ProjectedRun(EMPTY, t, meta, EMPTY, Delivery(ItemId(1))), After(EMPTY, Delivery(ItemId(1)));
      Stranded(c, meta, pc, ItemId(1)) && StateIn(pc, ItemId(1)) == PrOpen && |pc.items| == 1
  {
    DeliveryIsHonest(meta);
    Filed(meta, t);
    var c, pc := Projected(EMPTY, t, meta, EMPTY, FILING), Perform(EMPTY, FILING).0;
    SoundCall(EMPTY, t, meta, EMPTY, FILING);
    StaysProjectable(EMPTY, FILING, meta);
    ClaimThenReview(c, t, meta, pc, ItemId(1));
    RunOfThree(EMPTY, t, meta, EMPTY, FILING, ClaimCall(ItemId(1)), ReviewCall(ItemId(1)));
  }

  lemma DeliveryIsHonest(meta: string)
    ensures Honest(FILING, meta)
  {
    PlainBodyUnmarked(meta);
  }

  lemma RunOfThree(c: Contents, t: Target, meta: string, pc: Contents, x: Call, y: Call, z: Call)
    ensures
      var pc1 := Perform(pc, x).0;
      var c1 := Projected(c, t, meta, pc, x);
      var pc2 := Perform(pc1, y).0;
      var c2 := Projected(c1, t, meta, pc1, y);
      && After(pc, [x, y, z]) == Perform(pc2, z).0
      && ProjectedRun(c, t, meta, pc, [x, y, z]) == Projected(c2, t, meta, pc2, z)
  {
    RunOfOneMore(c, t, meta, pc, [], x);
    RunOfOneMore(c, t, meta, pc, [x], y);
    RunOfOneMore(c, t, meta, pc, [x, y], z);
    assert [] + [x] == [x] && [x] + [y] == [x, y] && [x, y] + [z] == [x, y, z];
  }

  lemma RunOfOneMore(c: Contents, t: Target, meta: string, pc: Contents, calls: seq<Call>, call: Call)
    ensures After(pc, calls + [call]) == Perform(After(pc, calls), call).0
    ensures ProjectedRun(c, t, meta, pc, calls + [call]) ==
      Projected(ProjectedRun(c, t, meta, pc, calls), t, meta, After(pc, calls), call)
  {
    assert (calls + [call])[..|calls|] == calls;
  }

  lemma ClaimThenReview(c: Contents, t: Target, meta: string, pc: Contents, p: string)
    requires Sound(c, meta) && Projectable(pc, meta) && t.canCreate && Has(pc, p) && CopySays(c, meta, p, Ready)
    requires Claims(pc, ClaimCall(p), p)
    ensures
      var pc1 := Perform(pc, ClaimCall(p)).0;
      var c1 := Projected(c, t, meta, pc, ClaimCall(p));
      var pc2 := Perform(pc1, ReviewCall(p)).0;
      && Stranded(Projected(c1, t, meta, pc1, ReviewCall(p)), meta, pc2, p)
      && StateIn(pc2, p) == PrOpen && |pc2.items| == |pc.items|
  {
    var claim, review := ClaimCall(p), ReviewCall(p);
    var c1, pc1 := Projected(c, t, meta, pc, claim), Perform(pc, claim).0;
    ClaimStrands(c, t, meta, pc, claim, p);
    PrimaryStep(pc, claim, p);
    SoundCall(c, t, meta, pc, claim);
    StaysProjectable(pc, claim, meta);
    StrandedExactlyUntilRefiled(c1, t, meta, pc1, review, p);
    PrimaryStep(pc1, review, p);
    PerformKeeps(pc, claim);
    PerformKeeps(pc1, review);
  }

  lemma PlainBodyUnmarked(meta: string)
    ensures Unmarked("body", meta)
  {
    M.NoOpenerNoMarker("body");
  }

  lemma Filed(meta: string, t: Target)
    requires t.canCreate && M.ValidKey(MirrorKey(meta, ItemId(1)))
    ensures
      var pc := Perform(EMPTY, FILING).0;
      && CopySays(Projected(EMPTY, t, meta, EMPTY, FILING), meta, ItemId(1), Ready)
      && pc.items == [Item(ItemId(1), "title", "body", Ready, [])] && Has(pc, ItemId(1))
      && Claims(pc, ClaimCall(ItemId(1)), ItemId(1))
  {
    var item := Item(ItemId(1), "title", "body", Ready, []);
    assert "body" + "" == "body";
    assert NewItem(EMPTY, Spec("title", "body", None, None, [])) == item;
    CopyIsFiled(EMPTY, t, meta, item, Ready);
  }

  /**
   * So a reliable mirror, in sync when the item was filed, still shows `ready` when the item is under
   * review, and a rebuild counts the item as failed.
   */
  method DeliveryOnAMirror(meta: string) returns (item: State, copy: State, report: seq<(nat, nat)>)
    requires M.ValidKey(MirrorKey(meta, ItemId(1)))
    ensures item == PrOpen && copy == Ready && report == [(0, 1)]
  {
    var board := NewMirrored(meta);
    Deliver(board);
    item, copy := Compare(board);
    report := Rebuild(board);
  }

  /** An empty primary with one empty mirror. */
  method NewMirrored(meta: string) returns (board: MirroringBoard)
    ensures fresh(board) && fresh(board.primary) && fresh(board.Boards())
    ensures board.Valid() && OneMirror(board) && board.meta == meta
    ensures board.primary.Now() == EMPTY && board.mirrors[0].board.Now() == EMPTY
  {
    var primary := new Board([]);
    var projection := new Board([]);
    var mirror := new Mirror(Target("mirror", true, true, true), projection);
    board := new MirroringBoard(meta, primary, true, [mirror]);
    assert board.mirrors[0] == mirror;
  }

  /** What primary and mirror say of the item. */
  method Compare(board: MirroringBoard) returns (item: State, copy: State)
    requires board.Valid() && OneMirror(board) && |board.primary.items| == 1
    requires Stranded(board.mirrors[0].board.Now(), board.meta, board.primary.Now(), ItemId(1))
    requires StateIn(board.primary.Now(), ItemId(1)) == PrOpen
    ensures item == PrOpen && copy == Ready
    ensures !Takes(board.mirrors[0].board.Now(), board.mirrors[0].target, board.meta, board.primary.items[0])
  {
    item := board.primary.items[0].state;
    assert board.MirrorOk(board.mirrors[0]);
    copy := StateOfCopy(board.mirrors[0].board, board.meta, ItemId(1), Ready);
    var m := board.mirrors[0];
    StrandedIsNotTaken(m.board.Now(), m.target, board.meta, board.primary.Now(), ItemId(1));
  }

  /** A board with one reliable mirror that can hold copies, and a primary that can be read. */
  ghost predicate OneMirror(board: MirroringBoard) {
    |board.mirrors| == 1 && board.mirrors[0].target.reliable && board.mirrors[0].target.canCreate && board.steady
  }

  method Deliver(board: MirroringBoard)
    requires board.Valid() && OneMirror(board) && M.ValidKey(MirrorKey(board.meta, ItemId(1)))
    requires board.primary.Now() == EMPTY && board.mirrors[0].board.Now() == EMPTY
    modifies board`ids, board.primary, board.Boards()
    ensures board.Valid() && Projectable(board.primary.Now(), board.meta)
    ensures Stranded(board.mirrors[0].board.Now(), board.meta, board.primary.Now(), ItemId(1))
    ensures StateIn(board.primary.Now(), ItemId(1)) == PrOpen && |board.primary.items| == 1
  {
    DeliveryStrands(board.meta, board.mirrors[0].target);
    DeliveryIsHonest(board.meta);
    RunKeeps(EMPTY, board.mirrors[0].target, board.meta, EMPTY, Delivery(ItemId(1)));
    var _, _ := board.Serve(Delivery(ItemId(1)));
  }

  method Rebuild(board: MirroringBoard) returns (report: seq<(nat, nat)>)
    requires board.Valid() && OneMirror(board) && Projectable(board.primary.Now(), board.meta)
    requires |board.primary.items| == 1
    requires !Takes(board.mirrors[0].board.Now(), board.mirrors[0].target, board.meta, board.primary.items[0])
    modifies board`ids, board.Boards()
    ensures report == [(0, 1)]
  {
    var r;
    ghost var taken;
    r, taken := board.Resync();
    assert taken[0] == {};
    report := r.value;
  }

  method StateOfCopy(board: Board, meta: string, p: string, ghost s: State) returns (state: State)
    requires Sound(board.Now(), meta) && CopySays(board.Now(), meta, p, s)
    ensures state == s
  {
    var i := FirstCarrying(board.items, MirrorKey(meta, p));
    assert i.Some?;
    assert CopySays(board.Now(), meta, p, board.items[i.value].state);
    SaysOne(board.Now(), meta, p, s, board.items[i.value].state);
    return board.items[i.value].state;
  }

  lemma StrandedIsNotTaken(c: Contents, t: Target, meta: string, pc: Contents, p: string)
    requires Sound(c, meta) && Stranded(c, meta, pc, p) && StateIn(pc, p) != Claimed
    ensures !Takes(c, t, meta, pc.items[IndexOf(pc.items, p).value])
  {
    var i :| 0 <= i < |c.items| && Copies(c.items[i], meta, p) && c.items[i].state == Ready;
  }
}
