/**
 * The board that decides, with its projections: every call goes to the primary first, and what it
 * did is then projected onto each mirror.
 */
module Mirroring {
  import opened Wrappers
  import opened BoardState
  import opened ProviderErrors
  import opened FakeBoard
  import opened MirrorProjection
  import M = CreateMarker

  /** A request was carried out and answered, or (unless the mirror is reliable) some part of that. */
  ghost predicate Asked(c: Contents, call: Call, c': Contents, r: Result<Answer, ErrorKind>, reliable: bool) {
    || (c', r) == Perform(c, call)
    || (!reliable && r.Err? && (c' == c || c' == Perform(c, call).0))
  }

  /** The copy of `p` is there and in this state. */
  ghost predicate CopySays(c: Contents, meta: string, p: string, state: State) {
    exists i :: 0 <= i < |c.items| && Copies(c.items[i], meta, p) && c.items[i].state == state
  }

  /** Nothing that was there has changed. */
  ghost predicate Kept(c: Contents, c': Contents) {
    |c.items| <= |c'.items| && forall i :: 0 <= i < |c.items| ==> c'.items[i] == c.items[i]
  }

  /** Nothing that was there has changed, but for the state of the copy of `p`. */
  ghost predicate OthersKept(c: Contents, c': Contents, meta: string, p: string) {
    && |c.items| <= |c'.items|
    && forall i :: 0 <= i < |c.items| ==>
         c'.items[i] == if Copies(c.items[i], meta, p) then c.items[i].(state := c'.items[i].state) else c.items[i]
  }

  lemma CopyIndex(c: Contents, meta: string, p: string, id: string)
    requires UniqueIds(c) && CopyAt(c, meta, p, id)
    ensures IndexOf(c.items, id).Some? && Copies(c.items[IndexOf(c.items, id).value], meta, p)
  {
    var i :| 0 <= i < |c.items| && c.items[i].id == id && Copies(c.items[i], meta, p);
    IndexIsUnique(c, i);
  }

  /** Filing a copy keeps what holds of the mirror, and what is answered is the copy. */
  lemma CreateKeeps(ids: IdMap, t: Target, c: Contents, meta: string, p: string, title: string, body: string,
                    state: State, tags: seq<string>)
    requires Sound(c, meta) && Accurate(ids, t, c, meta) && Unmarked(body, meta)
    ensures
      var (c', r) := Creating(c, CopySpec(meta, p, title, body, state, tags));
      && Sound(c', meta) && Accurate(ids, t, c', meta) && Kept(c, c')
      && (r.Ok? ==> r.value.Created? && CopyAt(c', meta, p, r.value.item.id))
  {
    var spec := CopySpec(meta, p, title, body, state, tags);
    SoundCreates(c, meta, p, title, body, state, tags);
    CreatingKeeps(c, spec);
    AccurateStays(ids, t, c, Creating(c, spec).0, meta);
    if Creating(c, spec).1.Ok? {
      CreatedIsCopy(c, meta, p, title, body, state, tags);
    }
  }

  /** So does moving it, which changes no other item. */
  lemma MoveKeeps(ids: IdMap, t: Target, c: Contents, meta: string, p: string, id: string, state: State)
    requires Sound(c, meta) && Accurate(ids, t, c, meta) && CopyAt(c, meta, p, id)
    ensures
      var (c', r) := Perform(c, On(id, Transition(state)));
      && Sound(c', meta) && Accurate(ids, t, c', meta) && OthersKept(c, c', meta, p)
      && (r.Ok? ==> CopySays(c', meta, p, state))
  {
    var call := On(id, Transition(state));
    CopyIndex(c, meta, p, id);
    SoundActs(c, meta, call);
    PerformKeeps(c, call);
    AccurateStays(ids, t, c, Perform(c, call).0, meta);
    var i := IndexOf(c.items, id).value;
    assert Copies(Perform(c, call).0.items[i], meta, p);
  }

  lemma RemarkKeeps(ids: IdMap, t: Target, c: Contents, meta: string, id: string, body: string, runId: string)
    requires Sound(c, meta) && Accurate(ids, t, c, meta)
    ensures
      var c' := Perform(c, On(id, Remark(body, runId))).0;
      Sound(c', meta) && Accurate(ids, t, c', meta)
  {
    SoundActs(c, meta, On(id, Remark(body, runId)));
    PerformKeeps(c, On(id, Remark(body, runId)));
    AccurateStays(ids, t, c, Perform(c, On(id, Remark(body, runId))).0, meta);
  }

  lemma NoTextUnmarked(meta: string)
    ensures Unmarked("", meta)
  {
    assert M.ParseCreateMarkers("") == [];
  }

  lemma CreatedIsThere(pc: Contents, spec: Spec)
    requires Perform(pc, CreateWork(spec)).1.Ok?
    ensures
      var (pc', r) := Perform(pc, CreateWork(spec));
      r.value.Created? && r.value.item in pc'.items
  {
    var existing := if spec.key.Some? then FirstCarrying(pc.items, spec.key.value) else None;
    if existing.Some? {
      assert pc.items[existing.value] in pc.items;
    } else {
      assert Perform(pc, CreateWork(spec)).0.items[|pc.items|] == NewItem(pc, spec);
    }
  }

  lemma StillThere(pc: Contents, call: Call)
    requires call.On? && Perform(pc, call).1.Ok?
    ensures IndexOf(Perform(pc, call).0.items, call.id).Some?
  {
    var i := IndexOf(pc.items, call.id).value;
    assert Perform(pc, call).0.items[i].id == call.id;
  }

  /** Projecting one item leaves the copies of the others as they were. */
  lemma SaysStays(c: Contents, c': Contents, meta: string, p: string, q: string, state: State)
    requires Sound(c, meta) && OthersKept(c, c', meta, q) && p != q && CopySays(c, meta, p, state)
    ensures CopySays(c', meta, p, state)
  {
    var i :| 0 <= i < |c.items| && Copies(c.items[i], meta, p) && c.items[i].state == state;
    assert !Copies(c.items[i], meta, q);
    assert c'.items[i] == c.items[i];
  }

  class Mirror {
    const target: Target
    const board: Board

    constructor (target: Target, board: Board)
      ensures this.target == target && this.board == board
    {
      this.target, this.board := target, board;
    }

    method Ask(call: Call) returns (r: Result<Answer, ErrorKind>)
      modifies board
      ensures Asked(old(board.Now()), call, board.Now(), r, target.reliable)
    {
      var reached: bool := Anything();
      var answered: bool := Anything();
      if !target.reliable && !reached {
        return Err(Transport);
      }
      r := board.Do(call);
      if !target.reliable && !answered {
        r := Err(Transport);
      }
    }
  }

  class MirroringBoard {
    const meta: string
    const primary: Board
    /** The primary answers whenever it is read. */
    const steady: bool
    const mirrors: seq<Mirror>
    /** Where the copies are: for a primary item and a mirror, the id of the copy. */
    var ids: IdMap

    ghost predicate Apart()
    {
      && (forall i :: 0 <= i < |mirrors| ==> mirrors[i].board != primary)
      && (forall i, j :: 0 <= i < j < |mirrors| ==>
            mirrors[i].board != mirrors[j].board && mirrors[i].target.name != mirrors[j].target.name)
    }

    function Boards(): set<object> {
      set i | 0 <= i < |mirrors| :: mirrors[i].board
    }

    ghost predicate MirrorOk(m: Mirror)
      reads `ids, m.board
    {
      Sound(m.board.Now(), meta) && Accurate(ids, m.target, m.board.Now(), meta)
    }

    ghost predicate Valid()
      reads `ids, Boards()
    {
      Apart() && forall i :: 0 <= i < |mirrors| ==> MirrorOk(mirrors[i])
    }

    /** No mirror but the `k`-th has changed. */
    twostate predicate OnlyMirror(k: nat)
      reads Boards()
    {
      forall i :: 0 <= i < |mirrors| && i != k ==> mirrors[i].board.Now() == old(mirrors[i].board.Now())
    }

    constructor (meta: string, primary: Board, steady: bool, mirrors: seq<Mirror>)
      requires forall i :: 0 <= i < |mirrors| ==> mirrors[i].board != primary && Sound(mirrors[i].board.Now(), meta)
      requires forall i, j :: 0 <= i < j < |mirrors| ==>
        mirrors[i].board != mirrors[j].board && mirrors[i].target.name != mirrors[j].target.name
      ensures Valid() && this.meta == meta && this.primary == primary && this.steady == steady
      ensures this.mirrors == mirrors && ids == map[]
    {
      this.meta, this.primary, this.steady, this.mirrors, ids := meta, primary, steady, mirrors, map[];
    }

    /** The id map of an earlier run, or any part of it. */
    method LoadIdMap(loaded: IdMap)
      requires Valid() && forall i :: 0 <= i < |mirrors| ==>
        Accurate(loaded, mirrors[i].target, mirrors[i].board.Now(), meta)
      modifies `ids
      ensures Valid() && ids == loaded
    {
      ids := loaded;
    }

    /** File the copy of an item on a mirror, or find it by its key; the map remembers where it is. */
    method FileCopy(k: nat, p: string, title: string, body: string, state: State, tags: seq<string>)
      returns (id: Option<string>)
      requires Valid() && k < |mirrors| && Unmarked(body, meta)
      modifies `ids, mirrors[k].board
      ensures Valid()
      ensures Kept(old(mirrors[k].board.Now()), mirrors[k].board.Now())
      ensures id.Some? ==> CopyAt(mirrors[k].board.Now(), meta, p, id.value)
      ensures mirrors[k].target.reliable ==>
        (mirrors[k].board.Now(), id) ==
        Found(old(mirrors[k].board.Now()), mirrors[k].target, CopySpec(meta, p, title, body, state, tags))
    {
      var m := mirrors[k];
      ghost var c := m.board.Now();
      if !m.target.canCreate {
        return None;
      }
      var spec := CopySpec(meta, p, title, body, state, tags);
      CreateKeeps(ids, m.target, c, meta, p, title, body, state, tags);
      var r := m.Ask(CreateWork(spec));
      if r.Err? {
        return None;
      }
      Remember(k, p, r.value.item.id);
      return Some(r.value.item.id);
    }

    method Remember(k: nat, p: string, id: string)
      requires Valid() && k < |mirrors| && mirrors[k].target.canCreate && CopyAt(mirrors[k].board.Now(), meta, p, id)
      modifies `ids
      ensures Valid()
    {
      var name := mirrors[k].target.name;
      ids := ids[(p, name) := id];
      forall i | 0 <= i < |mirrors|
        ensures MirrorOk(mirrors[i])
      {
        assert old(MirrorOk(mirrors[i]));
      }
    }

    /** The copy of an item on a mirror, as it is remembered unless it is to be asserted again. */
    method EnsureCopy(k: nat, p: string, title: string, body: string, state: State, tags: seq<string>, reassert: bool)
      returns (id: Option<string>)
      requires Valid() && k < |mirrors| && Unmarked(body, meta)
      modifies `ids, mirrors[k].board
      ensures Valid()
      ensures Kept(old(mirrors[k].board.Now()), mirrors[k].board.Now())
      ensures id.Some? ==> CopyAt(mirrors[k].board.Now(), meta, p, id.value)
      ensures mirrors[k].target.reliable ==>
        (mirrors[k].board.Now(), id) ==
        Found(old(mirrors[k].board.Now()), mirrors[k].target, CopySpec(meta, p, title, body, state, tags))
    {
      var key := (p, mirrors[k].target.name);
      if key in ids && !reassert {
        assert MirrorOk(mirrors[k]);
        CacheHit(mirrors[k].board.Now(), meta, p, ids[key], CopySpec(meta, p, title, body, state, tags));
        return Some(ids[key]);
      }
      id := FileCopy(k, p, title, body, state, tags);
    }

    /** The copy exists and says the state, or the mirror could not take it; then that is all that is said. */
    method ProjectItem(k: nat, item: Item, state: State, reassert: bool) returns (ok: bool)
      requires Valid() && k < |mirrors| && Unmarked(item.body, meta)
      modifies `ids, mirrors[k].board
      ensures Valid() && OnlyMirror(k)
      ensures OthersKept(old(mirrors[k].board.Now()), mirrors[k].board.Now(), meta, item.id)
      ensures ok ==> CopySays(mirrors[k].board.Now(), meta, item.id, state)
      ensures mirrors[k].target.reliable ==>
        (mirrors[k].board.Now(), ok) == ProjectedItem(old(mirrors[k].board.Now()), mirrors[k].target, meta, item, state)
    {
      var m := mirrors[k];
      var id := EnsureCopy(k, item.id, item.title, item.body, state, TagsFor(m.target, item), reassert);
      if id.None? {
        return false;
      }
      ok := SetState(k, item.id, id.value, state);
    }

    /** Read the copy, and move it if it says something else. */
    method SetState(k: nat, p: string, id: string, state: State) returns (ok: bool)
      requires Valid() && k < |mirrors| && CopyAt(mirrors[k].board.Now(), meta, p, id)
      modifies mirrors[k].board
      ensures Valid()
      ensures OthersKept(old(mirrors[k].board.Now()), mirrors[k].board.Now(), meta, p)
      ensures ok ==> CopySays(mirrors[k].board.Now(), meta, p, state)
      ensures mirrors[k].target.reliable ==>
        (mirrors[k].board.Now(), ok) == Settled(old(mirrors[k].board.Now()), id, state)
    {
      var m := mirrors[k];
      ghost var c := m.board.Now();
      CopyIndex(c, meta, p, id);
      var current := m.Ask(On(id, GetWork));
      assert m.board.Now() == c;
      if current.Err? {
        return false;
      }
      if current.value.item.state == state {
        return true;
      }
      MoveKeeps(ids, m.target, c, meta, p, id, state);
      var moved := m.Ask(On(id, Transition(state)));
      return moved.Ok?;
    }

    /** An item as the primary returned it, projected onto every mirror. */
    method ProjectOntoAll(item: Item, state: State)
      requires Valid() && Unmarked(item.body, meta)
      modifies `ids, Boards()
      ensures Valid()
      ensures forall i :: 0 <= i < |mirrors| && mirrors[i].target.reliable ==>
        mirrors[i].board.Now() == ProjectedItem(old(mirrors[i].board.Now()), mirrors[i].target, meta, item, state).0
    {
      for k := 0 to |mirrors|
        invariant Valid()
        invariant forall i :: 0 <= i < k && mirrors[i].target.reliable ==>
          mirrors[i].board.Now() == ProjectedItem(old(mirrors[i].board.Now()), mirrors[i].target, meta, item, state).0
        invariant forall i :: k <= i < |mirrors| ==> mirrors[i].board.Now() == old(mirrors[i].board.Now())
      {
        assert mirrors[k].board in Boards();
        var _ := ProjectItem(k, item, state, false);
      }
    }

    /** A read of the primary may fail, unless it is steady. */
    method ReadPrimary(id: string) returns (r: Result<Item, ErrorKind>)
      ensures steady ==> r != Err(Transport)
      ensures r == Err(Transport) || match IndexOf(primary.items, id)
        case Some(i) => r == Ok(primary.items[i])
        case None => r == Err(NotFound)
    {
      var reached: bool := Anything();
      if !reached && !steady {
        return Err(Transport);
      }
      var i := IndexOf(primary.items, id);
      return if i.Some? then Ok(primary.items[i.value]) else Err(NotFound);
    }

    /** Put a comment on the copy; the state is read from the primary when the mirror is new to the item. */
    method ProjectRemark(k: nat, p: string, body: string, runId: string) returns (readable: bool)
      requires Valid() && k < |mirrors| && IndexOf(primary.items, p).Some?
      modifies `ids, mirrors[k].board
      ensures Valid() && OnlyMirror(k)
      ensures steady ==> readable
      ensures readable && mirrors[k].target.reliable ==>
        var state := primary.items[IndexOf(primary.items, p).value].state;
        mirrors[k].board.Now() ==
          ProjectedRemark(old(mirrors[k].board.Now()), mirrors[k].target, meta, p, state, body, runId)
    {
      var m := mirrors[k];
      ghost var truth := primary.items[IndexOf(primary.items, p).value].state;
      var key := (p, m.target.name);
      var state := Ready;
      if key !in ids {
        var item := ReadPrimary(p);
        if item.Err? {
          return false;
        }
        state := item.value.state;
      } else {
        assert MirrorOk(m);
        CacheHit(m.board.Now(), meta, p, ids[key], CopySpec(meta, p, "mirror of " + p, "", state, []));
        CacheHit(m.board.Now(), meta, p, ids[key], CopySpec(meta, p, "mirror of " + p, "", truth, []));
      }
      NoTextUnmarked(meta);
      var id := EnsureCopy(k, p, "mirror of " + p, "", state, [], false);
      if id.Some? {
        AddRemark(k, id.value, body, runId);
      }
      return true;
    }

    method AddRemark(k: nat, id: string, body: string, runId: string)
      requires Valid() && k < |mirrors|
      modifies mirrors[k].board
      ensures Valid()
      ensures mirrors[k].target.reliable ==>
        mirrors[k].board.Now() == Perform(old(mirrors[k].board.Now()), On(id, Remark(body, runId))).0
    {
      var m := mirrors[k];
      ghost var c := m.board.Now();
      RemarkKeeps(ids, m.target, c, meta, id, body, runId);
      var _ := m.Ask(On(id, Remark(body, runId)));
    }

    method RemarkOntoAll(p: string, body: string, runId: string) returns (readable: bool)
      requires Valid() && IndexOf(primary.items, p).Some?
      modifies `ids, Boards()
      ensures Valid()
      ensures steady ==> readable
      ensures readable ==> forall i :: 0 <= i < |mirrors| && mirrors[i].target.reliable ==>
        mirrors[i].board.Now() == ProjectedRemark(old(mirrors[i].board.Now()), mirrors[i].target, meta, p,
                                                  primary.items[IndexOf(primary.items, p).value].state, body, runId)
    {
      ghost var state := primary.items[IndexOf(primary.items, p).value].state;
      for k := 0 to |mirrors|
        invariant Valid() && primary.items == old(primary.items)
        invariant forall i :: 0 <= i < k && mirrors[i].target.reliable ==>
          mirrors[i].board.Now() ==
            ProjectedRemark(old(mirrors[i].board.Now()), mirrors[i].target, meta, p, state, body, runId)
        invariant forall i :: k <= i < |mirrors| ==> mirrors[i].board.Now() == old(mirrors[i].board.Now())
      {
        assert mirrors[k].board in Boards();
        var ok := ProjectRemark(k, p, body, runId);
        if !ok {
          return false;
        }
      }
      return true;
    }

    /** What the call projects takes another read of the primary. */
    predicate RereadsPrimary(call: Call) {
      call.On? && (call.action.Transition? || call.action.Remark?)
    }

    /**
     * Any call. The primary does exactly what it would do alone, whatever the mirrors do; the caller
     * gets exactly the primary's answer, unless the call needs the primary to be read again and it
     * cannot be. A reliable mirror then holds what the call projects, whatever the id map remembered.
     */
    method Do(call: Call) returns (r: Result<Answer, ErrorKind>, readable: bool)
      requires Valid() && Projectable(primary.Now(), meta) && Honest(call, meta)
      modifies `ids, primary, Boards()
      ensures Valid() && Projectable(primary.Now(), meta)
      ensures primary.Now() == Perform(old(primary.Now()), call).0
      ensures r == if readable then Perform(old(primary.Now()), call).1 else Err(Transport)
      ensures steady || !RereadsPrimary(call) || Perform(old(primary.Now()), call).1.Err? ==> readable
      ensures readable ==> forall i :: 0 <= i < |mirrors| && mirrors[i].target.reliable ==>
        mirrors[i].board.Now() ==
          Projected(old(mirrors[i].board.Now()), mirrors[i].target, meta, old(primary.Now()), call)
    {
      StaysProjectable(primary.Now(), call, meta);
      r := primary.Do(call);
      assert Valid();
      readable := true;
      if r.Ok? {
        readable := Project(call, r.value, old(primary.Now()));
        if !readable {
          r := Err(Transport);
        }
      }
    }

    /** What the primary just did, projected. */
    method Project(call: Call, answer: Answer, ghost pc: Contents) returns (readable: bool)
      requires Valid() && Projectable(primary.Now(), meta)
      requires Perform(pc, call) == (primary.Now(), Ok(answer))
      modifies `ids, Boards()
      ensures Valid()
      ensures steady || !RereadsPrimary(call) ==> readable
      ensures readable ==> forall i :: 0 <= i < |mirrors| && mirrors[i].target.reliable ==>
        mirrors[i].board.Now() == Projected(old(mirrors[i].board.Now()), mirrors[i].target, meta, pc, call)
    {
      match call
      case CreateWork(spec) =>
        CreatedIsThere(pc, spec);
        ProjectOntoAll(answer.item, answer.item.state);
        return true;
      case On(id, Transition(to)) =>
        var item := ReadPrimary(id);
        StillThere(pc, call);
        if item.Err? {
          return false;
        }
        ProjectOntoAll(item.value, to);
        return true;
      case On(id, Remark(body, runId)) =>
        StillThere(pc, call);
        readable := RemarkOntoAll(id, body, runId);
      case _ =>
        return true;
    }

    /** Any part of the id map may be lost between two calls. */
    method Forget()
      requires Valid()
      modifies `ids
      ensures Valid()
    {
      var lost: set<(string, string)> := Anything();
      LoadIdMap(ids - lost);
    }

    /** Each call got its true answer or, only where the primary had to be read again, an error. */
    ghost predicate Answered(calls: seq<Call>, truth: seq<Result<Answer, ErrorKind>>,
                             answers: seq<Result<Answer, ErrorKind>>)
    {
      |answers| == |truth| == |calls| && forall i :: 0 <= i < |calls| ==>
        answers[i] == truth[i] || (answers[i] == Err(Transport) && RereadsPrimary(calls[i]) && !steady)
    }

    lemma AnsweredStep(calls: seq<Call>, call: Call, truth: seq<Result<Answer, ErrorKind>>,
                       answers: seq<Result<Answer, ErrorKind>>, its: Result<Answer, ErrorKind>,
                       r: Result<Answer, ErrorKind>)
      requires Answered(calls, truth, answers)
      requires r == its || (r == Err(Transport) && RereadsPrimary(call) && !steady)
      ensures Answered(calls + [call], truth + [its], answers + [r])
    {
    }

    /**
     * A run of calls, with parts of the id map forgotten at any point. The primary ends as if it had
     * been alone, and each caller got its answer or, only where the primary had to be read again, an
     * error. If it could always be read again, which is what `alone` says and what a steady one is,
     * every caller got its answer and each reliable mirror ends with contents that depend on the calls
     * only.
     */
    method Serve(calls: seq<Call>) returns (answers: seq<Result<Answer, ErrorKind>>, alone: bool)
      requires Valid() && Projectable(primary.Now(), meta)
      requires forall i :: 0 <= i < |calls| ==> Honest(calls[i], meta)
      modifies `ids, primary, Boards()
      ensures Valid() && primary.Now() == After(old(primary.Now()), calls)
      ensures steady || (forall i :: 0 <= i < |calls| ==> !RereadsPrimary(calls[i])) ==> alone
      ensures alone ==> answers == Answers(old(primary.Now()), calls)
      ensures Answered(calls, Answers(old(primary.Now()), calls), answers)
      ensures alone ==> forall i :: 0 <= i < |mirrors| && mirrors[i].target.reliable ==>
        mirrors[i].board.Now() ==
          ProjectedRun(old(mirrors[i].board.Now()), mirrors[i].target, meta, old(primary.Now()), calls)
    {
      answers, alone := [], true;
      ghost var pc := primary.Now();
      for n := 0 to |calls|
        invariant Valid() && Projectable(primary.Now(), meta) && primary.Now() == After(pc, calls[..n])
        invariant steady || (forall i :: 0 <= i < n ==> !RereadsPrimary(calls[i])) ==> alone
        invariant alone ==> answers == Answers(pc, calls[..n])
        invariant Answered(calls[..n], Answers(pc, calls[..n]), answers)
        invariant alone ==> forall i :: 0 <= i < |mirrors| && mirrors[i].target.reliable ==>
          mirrors[i].board.Now() == ProjectedRun(old(mirrors[i].board.Now()), mirrors[i].target, meta, pc, calls[..n])
      {
        Forget();
        ghost var before := primary.Now();
        var r, readable := Do(calls[n]);
        assert calls[..n + 1][..n] == calls[..n] && calls[..n + 1] == calls[..n] + [calls[n]];
        AnsweredStep(calls[..n], calls[n], Answers(pc, calls[..n]), answers, Perform(before, calls[n]).1, r);
        answers, alone := answers + [r], alone && readable;
      }
      assert calls[..|calls|] == calls;
    }

    /**
     * Project every item of the primary onto every mirror, trusting no id that is remembered. For
     * each mirror every item is counted once, as projected or as failed, and those counted as
     * projected are the ones in `taken`: their copies end in the primary's state. On a reliable
     * mirror these are exactly the items that it takes as it stands. It fails only if the primary
     * cannot be listed.
     */
    method Resync() returns (r: Result<seq<(nat, nat)>, ErrorKind>, ghost taken: seq<set<nat>>)
      requires Valid() && Projectable(primary.Now(), meta)
      modifies `ids, Boards()
      ensures Valid() && (steady ==> r.Ok?) && |taken| == |mirrors|
      ensures r.Ok? ==> |r.value| == |mirrors| && forall k :: 0 <= k < |mirrors| ==>
        Counted(mirrors[k].board.Now(), meta, primary.items, |primary.items|, r.value[k], taken[k])
      ensures r.Ok? ==> forall k, j :: 0 <= k < |mirrors| && mirrors[k].target.reliable && 0 <= j < |primary.items| ==>
        (j in taken[k] <==> Takes(old(mirrors[k].board.Now()), mirrors[k].target, meta, primary.items[j]))
      ensures r.Ok? ==> forall k :: 0 <= k < |mirrors| && mirrors[k].target.reliable ==>
        mirrors[k].board.Now() == Resynced(old(mirrors[k].board.Now()), mirrors[k].target, meta, primary.items)
      ensures r.Err? ==> r == Err(Transport) && forall k :: 0 <= k < |mirrors| ==>
        mirrors[k].board.Now() == old(mirrors[k].board.Now())
    {
      var reached: bool := Anything();
      taken := seq(|mirrors|, _ => {});
      if !reached && !steady {
        return Err(Transport), taken;
      }
      EveryItemIsListed(primary.items);
      assert primary.items[..|primary.items|] == primary.items;
      ghost var before := Contained();
      var report;
      report, taken := ResyncItems(before, InStates(primary.items, ALL_STATES));
      return Ok(report), taken;
    }

    /** What the mirrors hold. */
    ghost function Contained(): (held: seq<Contents>)
      reads Boards()
      ensures |held| == |mirrors| && forall k :: 0 <= k < |mirrors| ==> held[k] == mirrors[k].board.Now()
    {
      seq(|mirrors|, k requires 0 <= k < |mirrors| reads Boards() => mirrors[k].board.Now())
    }

    method ResyncItems(ghost before: seq<Contents>, items: seq<Item>)
      returns (report: seq<(nat, nat)>, ghost taken: seq<set<nat>>)
      requires Valid() && Projectable(primary.Now(), meta) && items == primary.items && before == Contained()
      modifies `ids, Boards()
      ensures Valid() && |report| == |taken| == |mirrors|
      ensures forall k :: 0 <= k < |mirrors| ==>
        Reported(before[k], mirrors[k].board.Now(), mirrors[k].target, meta, items, |items|, report[k], taken[k])
    {
      report, taken := seq(|mirrors|, _ => (0, 0)), seq(|mirrors|, _ => {});
      for j := 0 to |items|
        invariant Valid() && primary.Now() == old(primary.Now())
        invariant |report| == |taken| == |mirrors|
        invariant forall k :: 0 <= k < |mirrors| ==>
          Reported(before[k], mirrors[k].board.Now(), mirrors[k].target, meta, items, j, report[k], taken[k])
      {
        report, taken := ResyncItem(before, items, j, report, taken);
      }
    }

    method ResyncItem(ghost before: seq<Contents>, items: seq<Item>, j: nat, report: seq<(nat, nat)>,
        ghost taken: seq<set<nat>>)
      returns (report': seq<(nat, nat)>, ghost taken': seq<set<nat>>)
      requires Valid() && Projectable(primary.Now(), meta) && items == primary.items && j < |items|
      requires |before| == |report| == |taken| == |mirrors|
      requires forall k :: 0 <= k < |mirrors| ==>
        Reported(before[k], mirrors[k].board.Now(), mirrors[k].target, meta, items, j, report[k], taken[k])
      modifies `ids, Boards()
      ensures Valid() && |report'| == |taken'| == |mirrors|
      ensures forall k :: 0 <= k < |mirrors| ==>
        Reported(before[k], mirrors[k].board.Now(), mirrors[k].target, meta, items, j + 1, report'[k], taken'[k])
    {
      report', taken' := report, taken;
      for k := 0 to |mirrors|
        invariant Valid() && primary.Now() == old(primary.Now())
        invariant |report'| == |taken'| == |mirrors|
        invariant forall i :: 0 <= i < |mirrors| ==>
          Reported(before[i], mirrors[i].board.Now(), mirrors[i].target, meta, items, if i < k then j + 1 else j,
                   report'[i], taken'[i])
      {
        assert mirrors[k].board in Boards();
        var counted;
        ghost var ofThese;
        counted, ofThese := ResyncOne(k, before[k], items, j, report'[k], taken'[k]);
        report', taken' := report'[k := counted], taken'[k := ofThese];
      }
    }

    method ResyncOne(k: nat, ghost before: Contents, items: seq<Item>, j: nat, report: (nat, nat),
        ghost taken: set<nat>)
      returns (report': (nat, nat), ghost taken': set<nat>)
      requires Valid() && Projectable(primary.Now(), meta) && items == primary.items && j < |items|
      requires k < |mirrors|
      requires Reported(before, mirrors[k].board.Now(), mirrors[k].target, meta, items, j, report, taken)
      modifies `ids, mirrors[k].board
      ensures Valid() && OnlyMirror(k)
      ensures Reported(before, mirrors[k].board.Now(), mirrors[k].target, meta, items, j + 1, report', taken')
    {
      ghost var c := mirrors[k].board.Now();
      assert MirrorOk(mirrors[k]);
      var ok := ProjectItem(k, items[j], items[j].state, true);
      report' := if ok then (report.0 + 1, report.1) else (report.0, report.1 + 1);
      taken' := if ok then taken + {j} else taken;
      ReportedStep(before, c, mirrors[k].board.Now(), ok, mirrors[k].target, meta, items, j, report, taken);
    }
  }

  /** Of the first `n` items, the mirror has copies in the right state of those in `taken`. */
  ghost predicate Carried(c: Contents, meta: string, items: seq<Item>, n: nat, taken: set<nat>) {
    forall j :: j in taken ==> j < n && j < |items| && CopySays(c, meta, items[j].id, items[j].state)
  }

  /** The report of a mirror counts each of the first `n` items once. */
  ghost predicate Counted(c: Contents, meta: string, items: seq<Item>, n: nat, report: (nat, nat), taken: set<nat>) {
    report.0 + report.1 == n && report.0 == |taken| && Carried(c, meta, items, n, taken)
  }

  /** Of the first `n` items, `taken` are those that the mirror took as it was when it held `before`. */
  ghost predicate TookAll(
    before: Contents, c: Contents, t: Target, meta: string, items: seq<Item>, n: nat, taken: set<nat>)
  {
    && (forall j :: 0 <= j < n && j < |items| ==> (j in taken <==> Takes(before, t, meta, items[j])))
    && (forall j :: n <= j < |items| ==> (Takes(c, t, meta, items[j]) <==> Takes(before, t, meta, items[j])))
  }

  /** The report of a mirror after `n` items: counted, and for a reliable mirror complete. */
  ghost predicate Reported(before: Contents, c: Contents, t: Target, meta: string, items: seq<Item>, n: nat,
                           report: (nat, nat), taken: set<nat>) {
    && Counted(c, meta, items, n, report, taken)
    && (t.reliable ==> TookAll(before, c, t, meta, items, n, taken))
    && (t.reliable && n <= |items| ==> c == Resynced(before, t, meta, items[..n]))
  }

  lemma ReportedStep(before: Contents, c: Contents, c': Contents, ok: bool, t: Target, meta: string,
                     items: seq<Item>, j: nat, report: (nat, nat), taken: set<nat>)
    requires Sound(c, meta) && j < |items| && Unmarked(items[j].body, meta)
    requires forall i :: 0 <= i < |items| && i != j ==> items[i].id != items[j].id
    requires Reported(before, c, t, meta, items, j, report, taken)
    requires OthersKept(c, c', meta, items[j].id) && (ok ==> CopySays(c', meta, items[j].id, items[j].state))
    requires t.reliable ==> (c', ok) == ProjectedItem(c, t, meta, items[j], items[j].state)
    ensures
      Reported(before, c', t, meta, items, j + 1, if ok then (report.0 + 1, report.1) else (report.0, report.1 + 1),
               if ok then taken + {j} else taken)
  {
    CountedStep(c, c', ok, meta, items, j, report, taken);
    if t.reliable {
      ResyncedStep(before, t, meta, items, j);
      TookAllStep(before, c, c', ok, t, meta, items, j, taken);
    }
  }

  lemma ResyncedStep(before: Contents, t: Target, meta: string, items: seq<Item>, j: nat)
    requires j < |items|
    ensures Resynced(before, t, meta, items[..j + 1]) ==
      ProjectedItem(Resynced(before, t, meta, items[..j]), t, meta, items[j], items[j].state).0
  {
    assert items[..j + 1][..j] == items[..j];
  }

  lemma TookAllStep(before: Contents, c: Contents, c': Contents, ok: bool, t: Target, meta: string,
                    items: seq<Item>, j: nat, taken: set<nat>)
    requires Sound(c, meta) && j < |items| && Unmarked(items[j].body, meta)
    requires forall i :: 0 <= i < |items| && i != j ==> items[i].id != items[j].id
    requires TookAll(before, c, t, meta, items, j, taken) && forall i :: i in taken ==> i < j
    requires (c', ok) == ProjectedItem(c, t, meta, items[j], items[j].state)
    ensures TookAll(before, c', t, meta, items, j + 1, if ok then taken + {j} else taken)
  {
    TakingOne(c, t, meta, items, j);
    TookStep(seq(|items|, i requires 0 <= i < |items| => Takes(before, t, meta, items[i])),
             seq(|items|, i requires 0 <= i < |items| => Takes(c, t, meta, items[i])),
             seq(|items|, i requires 0 <= i < |items| => Takes(c', t, meta, items[i])), ok, j, taken);
  }

  lemma CountedStep(c: Contents, c': Contents, ok: bool, meta: string, items: seq<Item>, j: nat,
                    report: (nat, nat), taken: set<nat>)
    requires Sound(c, meta) && j < |items|
    requires forall i :: 0 <= i < |items| && i != j ==> items[i].id != items[j].id
    requires Counted(c, meta, items, j, report, taken)
    requires OthersKept(c, c', meta, items[j].id) && (ok ==> CopySays(c', meta, items[j].id, items[j].state))
    ensures
      Counted(c', meta, items, j + 1, if ok then (report.0 + 1, report.1) else (report.0, report.1 + 1),
              if ok then taken + {j} else taken)
  {
    assert j !in taken;
    CarriedStep(c, c', ok, meta, items, j, taken);
  }

  lemma CarriedStep(c: Contents, c': Contents, ok: bool, meta: string, items: seq<Item>, j: nat, taken: set<nat>)
    requires Sound(c, meta) && j < |items| && Carried(c, meta, items, j, taken)
    requires forall i :: 0 <= i < |items| && i != j ==> items[i].id != items[j].id
    requires OthersKept(c, c', meta, items[j].id) && (ok ==> CopySays(c', meta, items[j].id, items[j].state))
    ensures Carried(c', meta, items, j + 1, if ok then taken + {j} else taken)
  {
    forall i | i in taken
      ensures CopySays(c', meta, items[i].id, items[i].state)
    {
      SaysStays(c, c', meta, items[i].id, items[j].id, items[i].state);
    }
  }

  lemma TookStep(before: seq<bool>, now: seq<bool>, next: seq<bool>, ok: bool, j: nat, taken: set<nat>)
    requires |before| == |now| == |next| && j < |now| && forall i :: i in taken ==> i < j
    requires forall i :: 0 <= i < j ==> (i in taken <==> before[i])
    requires forall i :: j <= i < |now| ==> now[i] == before[i]
    requires (forall i :: 0 <= i < |now| && i != j ==> next[i] == now[i]) && ok == now[j]
    ensures forall i :: 0 <= i < j + 1 ==> (i in (if ok then taken + {j} else taken) <==> before[i])
    ensures forall i :: j + 1 <= i < |now| ==> next[i] == before[i]
  {
  }

  /** Projecting the `j`-th item succeeds if the mirror takes it, and changes nothing about the others. */
  lemma TakingOne(c: Contents, t: Target, meta: string, items: seq<Item>, j: nat)
    requires Sound(c, meta) && j < |items| && Unmarked(items[j].body, meta)
    requires forall i :: 0 <= i < |items| && i != j ==> items[i].id != items[j].id
    ensures
      var (c', ok) := ProjectedItem(c, t, meta, items[j], items[j].state);
      && (ok <==> Takes(c, t, meta, items[j]))
      && forall i :: 0 <= i < |items| && i != j ==> (Takes(c', t, meta, items[i]) <==> Takes(c, t, meta, items[i]))
  {
    TakenExactlyWhen(c, t, meta, items[j]);
    ProjectedExtends(c, t, meta, items[j], items[j].state);
    forall i | 0 <= i < |items| && i != j
      ensures Takes(ProjectedItem(c, t, meta, items[j], items[j].state).0, t, meta, items[i]) <==>
        Takes(c, t, meta, items[i])
    {
      TakesStays(c, t, meta, items[j], items[j].state, items[i]);
    }
  }

  lemma ProjectedExtends(c: Contents, t: Target, meta: string, item: Item, state: State)
    requires UniqueIds(c)
    ensures Extends(c, ProjectedItem(c, t, meta, item, state).0)
  {
    var spec := CopySpec(meta, item.id, item.title, item.body, state, TagsFor(t, item));
    CreatingKeeps(c, spec);
    var (c', id) := Found(c, t, spec);
    if id.Some? {
      PerformKeeps(c', On(id.value, Transition(state)));
    }
  }
}
