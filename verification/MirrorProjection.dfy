/**
 * One authoritative board and any number of projections of it. The projections may fail at any
 * request; the id map that remembers their copies is only a cache.
 */
module MirrorProjection {
  import opened Wrappers
  import opened BoardState
  import opened ProviderErrors
  import opened FakeBoard
  import M = CreateMarker
  import Text

  /** The create key of the copy of a primary item. */
  function MirrorKey(meta: string, p: string): string {
    "mirror:" + meta + ":" + p
  }

  function MirrorMarker(p: string): string {
    "<!-- takumi:mirror:" + p + " -->"
  }

  function MirrorBody(body: string, p: string): string {
    body + "\n\n" + MirrorMarker(p) + "\n"
  }

  /** This item is the copy of the primary item `p`. */
  predicate Copies(item: Item, meta: string, p: string) {
    M.ValidKey(MirrorKey(meta, p)) && Carries(item, MirrorKey(meta, p))
  }

  /** A text of the primary that carries no marker of a copy, so that it cannot be mistaken for one. */
  ghost predicate Unmarked(body: string, meta: string) {
    forall q :: MirrorKey(meta, q) !in M.ParseCreateMarkers(body)
  }

  lemma MirrorKeyInjective(meta: string, p: string, q: string)
    requires MirrorKey(meta, p) == MirrorKey(meta, q)
    ensures p == q
  {
    Text.Unsplit("mirror:" + meta + ":", p);
    Text.Unsplit("mirror:" + meta + ":", q);
  }

  /** An exact marker in a text is found among the text's markers. */
  lemma IncludedIsParsed(s: string, key: string)
    requires M.ValidKey(key) && Includes(s, M.Rendered(key))
    ensures key in M.ParseCreateMarkers(s)
  {
    var t := M.Rendered(key);
    var i :| 0 <= i <= |s| && OccursAt(s, t, i);
    var a, b := s[..i], s[i + |t|..];
    assert s == a + t + b;
    M.MarkerHomomorphism(a, key, b);
    assert M.ParseCreateMarkers(s)[|M.ParseCreateMarkers(a)|] == key;
  }

  lemma KeyedIdHasNoOpener(meta: string, p: string)
    requires M.ValidKey(MirrorKey(meta, p))
    ensures M.HasNoOpener(p)
  {
    var front := "mirror:" + meta + ":";
    forall i | 0 <= i < |p|
      ensures p[i] != '<'
    {
      assert (front + p)[|front| + i] == p[i];
      assert M.IsKeyChar(MirrorKey(meta, p)[|front| + i]);
    }
  }

  /** The mirror's own marker is a comment with another label, and adds no create marker. */
  lemma MirrorMarkerIsQuiet(meta: string, p: string)
    requires M.ValidKey(MirrorKey(meta, p))
    ensures M.ParseCreateMarkers(MirrorMarker(p) + "\n\n\n") == []
  {
    KeyedIdHasNoOpener(meta, p);
    var front := "takumi:mirror:";
    var other := front + (p + " -->");
    M.NoOpenerJoin(p, " -->");
    M.NoOpenerJoin(front, p + " -->");
    OtherLabel(p + " -->");
    assert MirrorMarker(p) + "\n\n\n" == M.OPENER + (" " + (other + "\n\n\n"));
    M.OtherCommentNoMarker(MirrorMarker(p) + "\n\n\n", other, "\n\n\n");
  }

  lemma OtherLabel(rest: string)
    ensures !(M.LABEL <= "takumi:mirror:" + rest)
  {
    var s := "takumi:mirror:" + rest;
    assert s[7] == 'm' && M.LABEL[7] == 'c';
  }

  lemma MirrorBodyForm(body: string, p: string)
    ensures MirrorBody(body, p) + "\n\n" == (body + "\n\n") + (MirrorMarker(p) + "\n\n\n")
  {
  }

  /** A blank line and a comment that is no marker add nothing. */
  lemma CommentIsQuiet(body: string, comment: string)
    requires comment != [] && comment[0] == '<' && M.ParseCreateMarkers(comment) == []
    ensures M.ParseCreateMarkers((body + "\n\n") + comment) == M.ParseCreateMarkers(body)
  {
    BlankIsQuiet(body);
    M.ParseCut(body + "\n\n", comment);
  }

  lemma BlankIsQuiet(body: string)
    ensures M.ParseCreateMarkers(body + "\n\n") == M.ParseCreateMarkers(body)
  {
    M.QuietTail(body, "\n\n");
  }

  lemma MirrorBodyIsQuiet(meta: string, p: string, body: string)
    requires M.ValidKey(MirrorKey(meta, p))
    ensures M.ParseCreateMarkers(MirrorBody(body, p) + "\n\n") == M.ParseCreateMarkers(body)
  {
    MirrorMarkerIsQuiet(meta, p);
    CommentIsQuiet(body, MirrorMarker(p) + "\n\n\n");
    MirrorBodyForm(body, p);
  }

  /** A text with a marker at its end. */
  lemma MarkerLast(a: string, key: string)
    requires M.ValidKey(key)
    ensures M.ParseCreateMarkers(a + M.Rendered(key)) == M.ParseCreateMarkers(a) + [key]
  {
    M.MarkerHomomorphism(a, key, "");
    assert a + M.Rendered(key) + "" == a + M.Rendered(key);
    assert M.ParseCreateMarkers("") == [];
  }

  /** The body of a copy carries the markers of the text, and its own. */
  lemma CopyBodyMarkers(meta: string, p: string, body: string)
    requires M.ValidKey(MirrorKey(meta, p))
    ensures M.ParseCreateMarkers(MirrorBody(body, p) + ("\n\n" + M.Rendered(MirrorKey(meta, p)))) ==
      M.ParseCreateMarkers(body) + [MirrorKey(meta, p)]
  {
    var key := MirrorKey(meta, p);
    Text.Associative(MirrorBody(body, p), "\n\n", M.Rendered(key));
    MirrorBodyIsQuiet(meta, p, body);
    MarkerLast(MirrorBody(body, p) + "\n\n", key);
  }

  function CopySpec(meta: string, p: string, title: string, body: string, state: State, tags: seq<string>): Spec {
    Spec(title, MirrorBody(body, p), Some(MirrorKey(meta, p)), Some(state), tags)
  }

  /** A copy made from a clean text is the copy of that item and of no other. */
  lemma NewCopyIsOf(c: Contents, meta: string, p: string, title: string, body: string, state: State, tags: seq<string>)
    requires M.ValidKey(MirrorKey(meta, p)) && Unmarked(body, meta)
    ensures forall q :: Copies(NewItem(c, CopySpec(meta, p, title, body, state, tags)), meta, q) <==> q == p
  {
    var spec := CopySpec(meta, p, title, body, state, tags);
    var item := NewItem(c, spec);
    NewItemCarries(c, spec);
    CopyBodyMarkers(meta, p, body);
    forall q | Copies(item, meta, q)
      ensures q == p
    {
      IncludedIsParsed(item.body, MirrorKey(meta, q));
      MirrorKeyInjective(meta, p, q);
    }
  }

  // What a projection is, as a function of the mirror's contents alone: no id map is involved.

  /** How a mirror is configured; a reliable one carries out and answers every request. */
  datatype Target = Target(name: string, withTags: bool, canCreate: bool, reliable: bool)

  function TagsFor(t: Target, item: Item): seq<string> {
    if t.withTags then item.labels else []
  }

  /** The contents after the copy was found or filed, and its id if the mirror took it. */
  function Found(c: Contents, t: Target, spec: Spec): (Contents, Option<string>) {
    if !t.canCreate then (c, None)
    else match Creating(c, spec)
      case (c', Ok(Created(copy, _))) => (c', Some(copy.id))
      case (c', _) => (c', None)
  }

  /** The contents after the item was moved, unless it already said the state. */
  function Settled(c: Contents, id: string, state: State): (Contents, bool) {
    var i := IndexOf(c.items, id);
    if i.Some? && c.items[i.value].state == state then (c, true)
    else
      var (c', r) := Perform(c, On(id, Transition(state)));
      (c', r.Ok?)
  }

  /** The copy of an item, in the state it is projected for; and whether the mirror took it. */
  function ProjectedItem(c: Contents, t: Target, meta: string, item: Item, state: State): (Contents, bool) {
    var (c', id) := Found(c, t, CopySpec(meta, item.id, item.title, item.body, state, TagsFor(t, item)));
    if id.None? then (c', false) else Settled(c', id.value, state)
  }

  /** Every item projected anew, in its own state. */
  function Resynced(c: Contents, t: Target, meta: string, items: seq<Item>): Contents {
    if items == [] then c
    else
      var last := items[|items| - 1];
      ProjectedItem(Resynced(c, t, meta, items[..|items| - 1]), t, meta, last, last.state).0
  }

  /** A comment may be the first that a mirror hears of an item. */
  function ProjectedRemark(
    c: Contents, t: Target, meta: string, p: string, state: State, body: string, runId: string): Contents
  {
    var (c', id) := Found(c, t, CopySpec(meta, p, "mirror of " + p, "", state, []));
    if id.None? then c' else Perform(c', On(id.value, Remark(body, runId))).0
  }

  /** What one call on the primary `pc` projects onto a mirror. */
  function Projected(c: Contents, t: Target, meta: string, pc: Contents, call: Call): Contents {
    var (pc', r) := Perform(pc, call);
    if r.Err? then c
    else match call
      case CreateWork(_) =>
        if r.value.Created? then ProjectedItem(c, t, meta, r.value.item, r.value.item.state).0 else c
      case On(id, Transition(to)) =>
        var i := IndexOf(pc'.items, id);
        if i.Some? then ProjectedItem(c, t, meta, pc'.items[i.value], to).0 else c
      case On(id, Remark(body, runId)) =>
        var i := IndexOf(pc'.items, id);
        if i.Some? then ProjectedRemark(c, t, meta, id, pc'.items[i.value].state, body, runId) else c
      case _ => c
  }

  // What holds of a mirror's contents, and of the id map, whatever fails.

  /** At most one copy of each primary item, and no item the copy of two. */
  ghost predicate Sound(c: Contents, meta: string) {
    && UniqueIds(c)
    && (forall p, i, j :: 0 <= i < j < |c.items| && Copies(c.items[i], meta, p) ==> !Copies(c.items[j], meta, p))
    && (forall p, q, i :: 0 <= i < |c.items| && Copies(c.items[i], meta, p) && Copies(c.items[i], meta, q) ==> p == q)
  }

  ghost predicate CopyAt(c: Contents, meta: string, p: string, id: string) {
    exists i :: 0 <= i < |c.items| && c.items[i].id == id && Copies(c.items[i], meta, p)
  }

  type IdMap = map<(string, string), string>

  /** Whatever the map says of this mirror is true. */
  ghost predicate Accurate(ids: IdMap, t: Target, c: Contents, meta: string) {
    forall p :: (p, t.name) in ids ==> t.canCreate && CopyAt(c, meta, p, ids[(p, t.name)])
  }

  lemma SoundCreates(c: Contents, meta: string, p: string, title: string, body: string, state: State, tags: seq<string>)
    requires Sound(c, meta) && Unmarked(body, meta)
    ensures Sound(Creating(c, CopySpec(meta, p, title, body, state, tags)).0, meta)
  {
    var spec := CopySpec(meta, p, title, body, state, tags);
    var c' := Creating(c, spec).0;
    CreatingKeeps(c, spec);
    if c' != c {
      NewCopyIsOf(c, meta, p, title, body, state, tags);
      assert c'.items[|c.items|] == NewItem(c, spec);
      assert forall i :: 0 <= i < |c.items| ==> !Copies(c.items[i], meta, p);
    }
  }

  /** The copy that is filed or found is the copy of `p`. */
  lemma CreatedIsCopy(c: Contents, meta: string, p: string, title: string, body: string, state: State,
      tags: seq<string>)
    requires Creating(c, CopySpec(meta, p, title, body, state, tags)).1.Ok?
    ensures
      var (c', r) := Creating(c, CopySpec(meta, p, title, body, state, tags));
      r.value.Created? && r.value.item in c'.items && CopyAt(c', meta, p, r.value.item.id)
  {
    var spec := CopySpec(meta, p, title, body, state, tags);
    var (c', r) := Creating(c, spec);
    NewItemCarries(c, spec);
    var existing := FirstCarrying(c.items, spec.key.value);
    if existing.Some? {
      assert c'.items[existing.value] == r.value.item;
    } else {
      assert c'.items[|c.items|] == r.value.item;
    }
  }

  lemma SoundActs(c: Contents, meta: string, call: Call)
    requires Sound(c, meta) && call.On?
    ensures Sound(Perform(c, call).0, meta)
  {
    PerformKeeps(c, call);
    var c' := Perform(c, call).0;
    assert |c'.items| == |c.items|;
    forall i, q | 0 <= i < |c.items|
      ensures Copies(c'.items[i], meta, q) <==> Copies(c.items[i], meta, q)
    {
      assert c'.items[i].body == c.items[i].body;
    }
  }

  lemma CopyStays(c: Contents, c': Contents, meta: string, p: string, id: string)
    requires Extends(c, c') && CopyAt(c, meta, p, id)
    ensures CopyAt(c', meta, p, id)
  {
    var i :| 0 <= i < |c.items| && c.items[i].id == id && Copies(c.items[i], meta, p);
    assert c'.items[i].id == id && c'.items[i].body == c.items[i].body;
  }

  lemma AccurateStays(ids: IdMap, t: Target, c: Contents, c': Contents, meta: string)
    requires Accurate(ids, t, c, meta) && Extends(c, c')
    ensures Accurate(ids, t, c', meta)
  {
    forall p | (p, t.name) in ids
      ensures CopyAt(c', meta, p, ids[(p, t.name)])
    {
      CopyStays(c, c', meta, p, ids[(p, t.name)]);
    }
  }

  /** What the map remembers is what creating again would find, so trusting it changes nothing. */
  lemma CacheHit(c: Contents, meta: string, p: string, id: string, spec: Spec)
    requires Sound(c, meta) && CopyAt(c, meta, p, id) && spec.key == Some(MirrorKey(meta, p))
    ensures IndexOf(c.items, id).Some?
    ensures Creating(c, spec) == (c, Ok(Created(c.items[IndexOf(c.items, id).value], false)))
  {
    var i :| 0 <= i < |c.items| && c.items[i].id == id && Copies(c.items[i], meta, p);
    IndexIsUnique(c, i);
    forall j | 0 <= j < i
      ensures !Carries(c.items[j], MirrorKey(meta, p))
    {
      assert !Copies(c.items[j], meta, p);
    }
    FirstIs(c.items, MirrorKey(meta, p), i);
  }

  // Which items a mirror takes.

  /** What the mirror says of `p` is that state, or may be moved to it. */
  ghost predicate Accepts(c: Contents, meta: string, p: string, state: State) {
    forall i :: 0 <= i < |c.items| && Copies(c.items[i], meta, p) ==>
      c.items[i].state == state || CanTransition(c.items[i].state, state)
  }

  /** The mirror can hold a copy of the item, and none that it holds stands in the way. */
  ghost predicate Takes(c: Contents, t: Target, meta: string, item: Item) {
    t.canCreate && M.ValidKey(MirrorKey(meta, item.id)) && Accepts(c, meta, item.id, item.state)
  }

  /** A projection succeeds exactly on a mirror that takes the item. */
  lemma TakenExactlyWhen(c: Contents, t: Target, meta: string, item: Item)
    requires Sound(c, meta) && Unmarked(item.body, meta)
    ensures ProjectedItem(c, t, meta, item, item.state).1 <==> Takes(c, t, meta, item)
  {
    if t.canCreate && M.ValidKey(MirrorKey(meta, item.id)) {
      var spec := CopySpec(meta, item.id, item.title, item.body, item.state, TagsFor(t, item));
      var existing := FirstCarrying(c.items, MirrorKey(meta, item.id));
      if existing.Some? {
        IndexIsUnique(c, existing.value);
        assert Copies(c.items[existing.value], meta, item.id);
      } else {
        CreatingKeeps(c, spec);
        IndexIsUnique(Creating(c, spec).0, |c.items|);
        assert forall i :: 0 <= i < |c.items| ==> !Copies(c.items[i], meta, item.id);
      }
    }
  }

  lemma SettledChangesOne(c: Contents, i: nat, state: State)
    requires UniqueIds(c) && i < |c.items|
    ensures
      var c' := Settled(c, c.items[i].id, state).0;
      |c'.items| == |c.items| && c'.items[i].body == c.items[i].body &&
      forall j :: 0 <= j < |c.items| && j != i ==> c'.items[j] == c.items[j]
  {
    IndexIsUnique(c, i);
  }

  /** Projecting one item changes no copy of another, and adds none. */
  lemma OthersUntouched(c: Contents, t: Target, meta: string, item: Item, state: State, q: string, i: nat)
    requires Sound(c, meta) && Unmarked(item.body, meta) && q != item.id
    requires i < |ProjectedItem(c, t, meta, item, state).0.items|
    ensures
      var c' := ProjectedItem(c, t, meta, item, state).0;
      |c.items| <= |c'.items| && (Copies(c'.items[i], meta, q) ==> i < |c.items| && c'.items[i] == c.items[i])
  {
    var spec := CopySpec(meta, item.id, item.title, item.body, state, TagsFor(t, item));
    if t.canCreate && M.ValidKey(MirrorKey(meta, item.id)) {
      var existing := FirstCarrying(c.items, MirrorKey(meta, item.id));
      CreatingKeeps(c, spec);
      if existing.Some? {
        assert Copies(c.items[existing.value], meta, item.id) && !Copies(c.items[existing.value], meta, q);
        SettledChangesOne(c, existing.value, state);
      } else {
        NewCopyIsOf(c, meta, item.id, item.title, item.body, state, TagsFor(t, item));
        SettledChangesOne(Creating(c, spec).0, |c.items|, state);
      }
    }
  }

  /** So whether the mirror takes one item does not depend on the others projected before it. */
  lemma TakesStays(c: Contents, t: Target, meta: string, item: Item, state: State, other: Item)
    requires Sound(c, meta) && Unmarked(item.body, meta) && other.id != item.id
    requires Extends(c, ProjectedItem(c, t, meta, item, state).0)
    ensures Takes(ProjectedItem(c, t, meta, item, state).0, t, meta, other) <==> Takes(c, t, meta, other)
  {
    var c' := ProjectedItem(c, t, meta, item, state).0;
    forall i | 0 <= i < |c'.items| && Copies(c'.items[i], meta, other.id)
      ensures i < |c.items| && c'.items[i] == c.items[i]
    {
      OthersUntouched(c, t, meta, item, state, other.id, i);
    }
    forall i | 0 <= i < |c.items| && Copies(c.items[i], meta, other.id)
      ensures c'.items[i] == c.items[i]
    {
      assert c'.items[i].body == c.items[i].body;
      assert Copies(c'.items[i], meta, other.id);
    }
  }

  // Mirrors that believe a search hit only if the key is the first in its text, such as GitLab's.

  predicate Confirmed(item: Item, key: string) {
    M.CreateKeyOf(item.body) == Some(key)
  }

  function FirstSuch(items: seq<Item>, test: Item -> bool): (r: Option<nat>)
    ensures r.Some? ==> r.value < |items| && test(items[r.value])
    ensures r.None? ==> forall j :: 0 <= j < |items| ==> !test(items[j])
  {
    if items == [] then None
    else if test(items[0]) then Some(0)
    else
      var rest := FirstSuch(items[1..], test);
      assert forall j :: 0 < j < |items| ==> items[j] == items[1..][j - 1];
      if rest.None? then None else Some(rest.value + 1)
  }

  function FirstConfirmed(items: seq<Item>, key: string): (r: Option<nat>)
    ensures r.Some? ==> r.value < |items| && Confirmed(items[r.value], key)
    ensures r.None? ==> forall j :: 0 <= j < |items| ==> !Confirmed(items[j], key)
  {
    FirstSuch(items, item => Confirmed(item, key))
  }

  function CreatingConfirmed(c: Contents, spec: Spec): (Contents, Result<Answer, ErrorKind>) {
    if spec.key.Some? && !M.ValidKey(spec.key.value) then (c, Err(Precondition))
    else
      var existing := if spec.key.Some? then FirstConfirmed(c.items, spec.key.value) else None;
      if existing.Some? then (c, Ok(Created(c.items[existing.value], false)))
      else
        var item := NewItem(c, spec);
        (c.(items := c.items + [item], itemSeq := c.itemSeq + 1), Ok(Created(item, true)))
  }

  /** The first key in the body of a copy is its own exactly if the text it copies carries none. */
  lemma FirstKeyOfCopy(c: Contents, meta: string, p: string, title: string, body: string, state: State,
      tags: seq<string>)
    requires M.ValidKey(MirrorKey(meta, p)) && Unmarked(body, meta)
    ensures M.CreateKeyOf(NewItem(c, CopySpec(meta, p, title, body, state, tags)).body) == Some(MirrorKey(meta, p)) <==>
      M.ParseCreateMarkers(body) == []
  {
    CopyBodyMarkers(meta, p, body);
    assert MirrorKey(meta, p) !in M.ParseCreateMarkers(body);
  }

  /**
   * On such a mirror, filing the copy of an item again finds the first copy exactly if the item's
   * text carries no create key; if it carries one, there are two copies afterwards.
   */
  lemma RefilingFindsExactlyWhen(
    c: Contents, meta: string, p: string, title: string, body: string, state: State, tags: seq<string>)
    requires M.ValidKey(MirrorKey(meta, p)) && Unmarked(body, meta)
    requires FirstConfirmed(c.items, MirrorKey(meta, p)).None?
    ensures
      var spec := CopySpec(meta, p, title, body, state, tags);
      var (c', r) := CreatingConfirmed(c, spec);
      && r.Ok? && r.value == Created(NewItem(c, spec), true)
      && (CreatingConfirmed(c', spec) == (c', Ok(Created(r.value.item, false))) <==> M.ParseCreateMarkers(body) == [])
      && (M.ParseCreateMarkers(body) != [] ==> !Sound(CreatingConfirmed(c', spec).0, meta))
  {
    var spec := CopySpec(meta, p, title, body, state, tags);
    var c' := CreatingConfirmed(c, spec).0;
    FirstKeyOfCopy(c, meta, p, title, body, state, tags);
    NewItemCarries(c, spec);
    assert c'.items[|c.items|] == NewItem(c, spec);
    if M.ParseCreateMarkers(body) != [] {
      var c'' := CreatingConfirmed(c', spec).0;
      NewItemCarries(c', spec);
      assert c''.items[|c.items|] == NewItem(c, spec) && c''.items[|c'.items|] == NewItem(c', spec);
      assert Copies(c''.items[|c.items|], meta, p) && Copies(c''.items[|c'.items|], meta, p);
    }
  }

  /** So every item that the primary filed under a key of its own is duplicated there. */
  lemma KeyedItemIsDuplicated(pc: Contents, spec: Spec, c: Contents, meta: string, state: State, tags: seq<string>)
    requires spec.key.Some? && M.ValidKey(spec.key.value) && Honest(CreateWork(spec), meta)
    requires var item := NewItem(pc, spec);
      M.ValidKey(MirrorKey(meta, item.id)) && FirstConfirmed(c.items, MirrorKey(meta, item.id)).None?
    ensures
      var item := NewItem(pc, spec);
      var copy := CopySpec(meta, item.id, item.title, item.body, state, tags);
      !Sound(CreatingConfirmed(CreatingConfirmed(c, copy).0, copy).0, meta)
  {
    var item := NewItem(pc, spec);
    NewItemUnmarked(pc, spec, meta);
    Text.Associative(spec.body, "\n\n", M.Rendered(spec.key.value));
    MarkerLast(spec.body + "\n\n", spec.key.value);
    RefilingFindsExactlyWhen(c, meta, item.id, item.title, item.body, state, tags);
  }

  // What the primary must be for its items to be projected, and that its calls keep it so.

  ghost predicate Projectable(pc: Contents, meta: string) {
    UniqueIds(pc) && forall i :: 0 <= i < |pc.items| ==> Unmarked(pc.items[i].body, meta)
  }

  /** A caller files nothing that claims to be a copy. */
  ghost predicate Honest(call: Call, meta: string) {
    call.CreateWork? ==>
      && Unmarked(call.spec.body, meta)
      && (call.spec.key.Some? ==> forall q :: call.spec.key.value != MirrorKey(meta, q))
  }

  lemma StaysProjectable(pc: Contents, call: Call, meta: string)
    requires Projectable(pc, meta) && Honest(call, meta)
    ensures Projectable(Perform(pc, call).0, meta)
  {
    if call.CreateWork? {
      CreatingKeeps(pc, call.spec);
      if Creating(pc, call.spec).0 != pc {
        NewItemUnmarked(pc, call.spec, meta);
        assert Creating(pc, call.spec).0.items[|pc.items|] == NewItem(pc, call.spec);
      }
    } else {
      PerformKeeps(pc, call);
      BodiesStay(pc, Perform(pc, call).0, meta);
    }
  }

  lemma BodiesStay(pc: Contents, pc': Contents, meta: string)
    requires Projectable(pc, meta) && UniqueIds(pc') && Extends(pc, pc') && |pc'.items| == |pc.items|
    ensures Projectable(pc', meta)
  {
    assert forall i :: 0 <= i < |pc'.items| ==> pc'.items[i].body == pc.items[i].body;
  }

  lemma NewItemUnmarked(pc: Contents, spec: Spec, meta: string)
    requires Honest(CreateWork(spec), meta) && (spec.key.Some? ==> M.ValidKey(spec.key.value))
    ensures Unmarked(NewItem(pc, spec).body, meta)
  {
    if spec.key.Some? {
      var key := spec.key.value;
      Text.Associative(spec.body, "\n\n", M.Rendered(key));
      MarkerLast(spec.body + "\n\n", key);
      BlankIsQuiet(spec.body);
    } else {
      assert spec.body + "" == spec.body;
    }
  }

  // Runs of calls on the primary.

  function After(pc: Contents, calls: seq<Call>): Contents {
    if calls == [] then pc else Perform(After(pc, calls[..|calls| - 1]), calls[|calls| - 1]).0
  }

  function Answers(pc: Contents, calls: seq<Call>): (r: seq<Result<Answer, ErrorKind>>)
    ensures |r| == |calls|
  {
    if calls == [] then []
    else
      Answers(pc, calls[..|calls| - 1]) + [Perform(After(pc, calls[..|calls| - 1]), calls[|calls| - 1]).1]
  }

  /** What a run of calls on the primary projects onto a mirror: a function of the calls alone. */
  function ProjectedRun(c: Contents, t: Target, meta: string, pc: Contents, calls: seq<Call>): Contents {
    if calls == [] then c
    else
      var before := calls[..|calls| - 1];
      Projected(ProjectedRun(c, t, meta, pc, before), t, meta, After(pc, before), calls[|calls| - 1])
  }

  const ALL_STATES: set<State> := {Ready, Claimed, PrOpen, FixNeeded, Merged, Blocked}

  lemma EveryStateIsOne(s: State)
    ensures s in ALL_STATES
  {
    match s
    case Ready =>
    case Claimed =>
    case PrOpen =>
    case FixNeeded =>
    case Merged =>
    case Blocked =>
  }

  lemma {:induction false} EveryItemIsListed(items: seq<Item>)
    ensures InStates(items, ALL_STATES) == items
  {
    if items != [] {
      EveryItemIsListed(items[1..]);
      EveryStateIsOne(items[0].state);
    }
  }
}
