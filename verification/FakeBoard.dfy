/**
 * The reference task board: an in-memory board that the other adapters are measured against. What
 * each call does is given as a function on the board's contents, and the class's methods, which
 * update its fields in place, are proved to do just that.
 */
module FakeBoard {
  import opened Wrappers
  import opened BoardState
  import opened ProviderErrors
  import M = CreateMarker
  import J = JsonText
  import R = StateRecord
  import Text

  datatype Item = Item(id: string, title: string, body: string, state: State, labels: seq<string>)

  datatype Spec = Spec(title: string, body: string, key: Option<string>, state: Option<State>, labels: seq<string>)

  /** A progress comment: there is one under each comment key, and it is edited in place. */
  datatype Comment = Comment(number: nat, body: string)

  /** A state record as it stands on an item; only trusted ones are ever read back. */
  datatype Entry = Entry(record: R.BoardRecord, trusted: bool)

  datatype Contents = Contents(
    items: seq<Item>,
    itemSeq: nat,
    comments: map<string, Comment>,
    commentSeq: nat,
    records: map<string, seq<Entry>>)

  datatype Call = CreateWork(spec: Spec) | ListWork(states: set<State>) | On(id: string, action: Action)

  /** What is asked of one item. */
  datatype Action =
    | GetWork
    | Claim(runId: string, at: string)
    | Transition(to: State)
    | Remark(body: string, runId: string)
    | ReadState
    | WriteState(record: R.BoardRecord, trusted: bool)

  datatype Answer =
    | Created(item: Item, isNew: bool)
    | Work(item: Item)
    | Listing(items: seq<Item>)
    | Taken(taken: bool)
    | Commented(number: nat)
    | StateOf(record: Option<R.BoardRecord>)
    | Done

  /** Under which the comment of a run on an item is kept: the two joined by a colon. */
  function CommentKey(id: string, runId: string): string {
    id + ":" + runId
  }

  function ItemId(n: nat): string {
    "FAKE-" + J.PutNat(n, "")
  }

  predicate OccursAt(s: string, t: string, i: int) {
    0 <= i <= |s| - |t| && s[i..i + |t|] == t
  }

  predicate Includes(s: string, t: string) {
    exists i | 0 <= i <= |s| :: OccursAt(s, t, i)
  }

  /** The item was created under this key: its body contains the key's marker. */
  predicate Carries(item: Item, key: string) {
    Includes(item.body, M.Rendered(key))
  }

  function IndexOf(items: seq<Item>, id: string): (r: Option<nat>)
    ensures r.Some? ==>
      r.value < |items| && items[r.value].id == id && forall j :: 0 <= j < r.value ==> items[j].id != id
    ensures r.None? ==> forall j :: 0 <= j < |items| ==> items[j].id != id
  {
    if items == [] then None
    else if items[0].id == id then Some(0)
    else
      var rest := IndexOf(items[1..], id);
      if rest.None? then
        assert forall j :: 0 < j < |items| ==> items[j] == items[1..][j - 1];
        None
      else
        assert forall j :: 0 < j < |items| ==> items[j] == items[1..][j - 1];
        Some(rest.value + 1)
  }

  function FirstCarrying(items: seq<Item>, key: string): (r: Option<nat>)
    ensures r.Some? ==>
      r.value < |items| && Carries(items[r.value], key) && forall j :: 0 <= j < r.value ==> !Carries(items[j], key)
    ensures r.None? ==> forall j :: 0 <= j < |items| ==> !Carries(items[j], key)
  {
    if items == [] then None
    else if Carries(items[0], key) then Some(0)
    else
      var rest := FirstCarrying(items[1..], key);
      assert forall j :: 0 < j < |items| ==> items[j] == items[1..][j - 1];
      if rest.None? then None else Some(rest.value + 1)
  }

  function InStates(items: seq<Item>, states: set<State>): seq<Item> {
    if items == [] then []
    else (if items[0].state in states then [items[0]] else []) + InStates(items[1..], states)
  }

  function NewItem(c: Contents, spec: Spec): Item {
    Item(ItemId(c.itemSeq + 1), spec.title,
         spec.body + if spec.key.Some? then "\n\n" + M.Rendered(spec.key.value) else "",
         spec.state.GetOr(Ready), spec.labels)
  }

  /** The newest trusted record; as a trusted write replaces the earlier one, there is at most one. */
  function Trusted(entries: seq<Entry>): Option<R.BoardRecord> {
    if entries == [] then None
    else if entries[0].trusted then Some(entries[0].record)
    else Trusted(entries[1..])
  }

  function Untrusted(entries: seq<Entry>): seq<Entry> {
    if entries == [] then []
    else (if entries[0].trusted then [] else [entries[0]]) + Untrusted(entries[1..])
  }

  function EntriesOf(c: Contents, id: string): seq<Entry> {
    if id in c.records then c.records[id] else []
  }

  function WithRecord(c: Contents, id: string, record: R.BoardRecord, trusted: bool): Contents {
    var entries := EntriesOf(c, id);
    c.(records := c.records[id := (if trusted then Untrusted(entries) else entries) + [Entry(record, trusted)]])
  }

  function WithState(c: Contents, i: nat, to: State): Contents
    requires i < |c.items|
  {
    c.(items := c.items[i := c.items[i].(state := to)])
  }

  function ClaimRecord(id: string, runId: string, at: string, takeoverFrom: Option<string>): R.BoardRecord {
    R.BoardRecord(R.SCHEMA, runId, id, None, None, None, None, None, 0, at,
                  if takeoverFrom.Some? then Some("took over from run " + takeoverFrom.value +
                                                  " (its record named itself while the board said ready)") else None)
  }

  // What each call does to the contents, and what it answers.

  function Creating(c: Contents, spec: Spec): (Contents, Result<Answer, ErrorKind>) {
    if spec.key.Some? && !M.ValidKey(spec.key.value) then (c, Err(Precondition))
    else
      var existing := if spec.key.Some? then FirstCarrying(c.items, spec.key.value) else None;
      if existing.Some? then (c, Ok(Created(c.items[existing.value], false)))
      else
        var item := NewItem(c, spec);
        (c.(items := c.items + [item], itemSeq := c.itemSeq + 1), Ok(Created(item, true)))
  }

  function Claiming(c: Contents, i: nat, runId: string, at: string): (Contents, Result<Answer, ErrorKind>)
    requires i < |c.items|
  {
    var id, record := c.items[i].id, Trusted(EntriesOf(c, c.items[i].id));
    match DecideClaim(c.items[i].state, if record.Some? then Some(record.value.runId) else None, runId)
    case Refuse => (c, Ok(Taken(false)))
    case Accept(takeoverFrom) =>
      (WithRecord(WithState(c, i, Claimed), id, ClaimRecord(id, runId, at, takeoverFrom), true), Ok(Taken(true)))
  }

  function Remarking(c: Contents, id: string, body: string, runId: string): (Contents, Result<Answer, ErrorKind>) {
    var key := CommentKey(id, runId);
    if key in c.comments then
      (c.(comments := c.comments[key := c.comments[key].(body := body)]), Ok(Commented(c.comments[key].number)))
    else
      var number := c.commentSeq + 1;
      (c.(comments := c.comments[key := Comment(number, body)], commentSeq := number), Ok(Commented(number)))
  }

  function Acting(c: Contents, i: nat, action: Action): (Contents, Result<Answer, ErrorKind>)
    requires i < |c.items|
  {
    var id := c.items[i].id;
    match action
    case GetWork => (c, Ok(Work(c.items[i])))
    case Claim(runId, at) => Claiming(c, i, runId, at)
    case Transition(to) =>
      if CanTransition(c.items[i].state, to) then (WithState(c, i, to), Ok(Done)) else (c, Err(Precondition))
    case Remark(body, runId) => Remarking(c, id, body, runId)
    case ReadState => (c, Ok(StateOf(Trusted(EntriesOf(c, id)))))
    case WriteState(record, trusted) =>
      if record.item == id then (WithRecord(c, id, record, trusted), Ok(Done)) else (c, Err(Precondition))
  }

  function Perform(c: Contents, call: Call): (Contents, Result<Answer, ErrorKind>) {
    match call
    case CreateWork(spec) => Creating(c, spec)
    case ListWork(states) => (c, Ok(Listing(InStates(c.items, states))))
    case On(id, action) =>
      var i := IndexOf(c.items, id);
      if i.None? then (c, Err(NotFound)) else Acting(c, i.value, action)
  }

  // What every call keeps.

  ghost predicate UniqueIds(c: Contents) {
    && (forall i, j :: 0 <= i < j < |c.items| ==> c.items[i].id != c.items[j].id)
    && (forall i, n :: 0 <= i < |c.items| && n > c.itemSeq ==> c.items[i].id != ItemId(n))
  }

  lemma ItemIdInjective(m: nat, n: nat)
    requires ItemId(m) == ItemId(n)
    ensures m == n
  {
    Text.Unsplit("FAKE-", J.PutNat(m, ""));
    Text.Unsplit("FAKE-", J.PutNat(n, ""));
    J.PutNatParses(m, "");
    J.PutNatParses(n, "");
  }

  lemma IndexIsUnique(c: Contents, i: nat)
    requires UniqueIds(c) && i < |c.items|
    ensures IndexOf(c.items, c.items[i].id) == Some(i)
  {
  }

  /** Items are only ever added, at the end, and only their states change. */
  ghost predicate Extends(c: Contents, c': Contents) {
    && |c.items| <= |c'.items|
    && forall i :: 0 <= i < |c.items| ==> c'.items[i] == c.items[i].(state := c'.items[i].state)
  }

  /** A state moves as the table says, or by a claim of work in flight. */
  predicate MovesLegally(from: State, to: State) {
    from == to || CanTransition(from, to) || (InFlight(from) && to == Claimed)
  }

  ghost predicate StatesMoveLegally(c: Contents, c': Contents)
    requires |c.items| <= |c'.items|
  {
    forall i :: 0 <= i < |c.items| ==> MovesLegally(c.items[i].state, c'.items[i].state)
  }

  /** Every call keeps ids unique and every item but its state, which moves as the table or a claim says. */
  lemma PerformKeeps(c: Contents, call: Call)
    requires UniqueIds(c)
    ensures UniqueIds(Perform(c, call).0) && Extends(c, Perform(c, call).0) && StatesMoveLegally(c, Perform(c, call).0)
    ensures !call.CreateWork? ==> |Perform(c, call).0.items| == |c.items|
  {
    match call
    case CreateWork(spec) => CreatingKeeps(c, spec);
    case ListWork(_) =>
    case On(id, action) =>
      if IndexOf(c.items, id).Some? {
        ActingKeeps(c, IndexOf(c.items, id).value, action);
      }
  }

  lemma ActingKeeps(c: Contents, i: nat, action: Action)
    requires UniqueIds(c) && i < |c.items|
    ensures UniqueIds(Acting(c, i, action).0) && Extends(c, Acting(c, i, action).0)
    ensures StatesMoveLegally(c, Acting(c, i, action).0) && |Acting(c, i, action).0.items| == |c.items|
  {
    var c' := Acting(c, i, action).0;
    assert c'.itemSeq == c.itemSeq;
    assert c'.items == c.items || c'.items == c.items[i := c.items[i].(state := c'.items[i].state)];
  }

  lemma CreatingKeeps(c: Contents, spec: Spec)
    requires UniqueIds(c)
    ensures UniqueIds(Creating(c, spec).0) && Extends(c, Creating(c, spec).0)
    ensures forall i :: 0 <= i < |c.items| ==> Creating(c, spec).0.items[i] == c.items[i]
  {
    var c' := Creating(c, spec).0;
    if c' != c {
      forall n | n > c'.itemSeq
        ensures c'.items[|c.items|].id != ItemId(n)
      {
        if ItemId(c.itemSeq + 1) == ItemId(n) {
          ItemIdInjective(c.itemSeq + 1, n);
        }
      }
    }
  }

  lemma AppendedOccurs(a: string, t: string)
    ensures Includes(a + t, t)
  {
    assert (a + t)[|a|..|a| + |t|] == t;
    assert OccursAt(a + t, t, |a|);
  }

  lemma NewItemCarries(c: Contents, spec: Spec)
    requires spec.key.Some?
    ensures Carries(NewItem(c, spec), spec.key.value)
  {
    Text.Associative(spec.body, "\n\n", M.Rendered(spec.key.value));
    AppendedOccurs(spec.body + "\n\n", M.Rendered(spec.key.value));
  }

  /** Filing is idempotent: under one key there is one item, however often and with whatever it is filed. */
  lemma CreateIsIdempotent(c: Contents, spec: Spec, again: Spec)
    requires spec.key.Some? && M.ValidKey(spec.key.value) && again.key == spec.key
    ensures
      var (c', r) := Perform(c, CreateWork(spec));
      r.Ok? && Perform(c', CreateWork(again)) == (c', Ok(Created(r.value.item, false)))
  {
    NewItemCarries(c, spec);
    var c' := Perform(c, CreateWork(spec)).0;
    if c' != c {
      FirstIs(c'.items, spec.key.value, |c.items|);
    }
  }

  lemma FirstIs(items: seq<Item>, key: string, i: nat)
    requires i < |items| && Carries(items[i], key) && forall j :: 0 <= j < i ==> !Carries(items[j], key)
    ensures FirstCarrying(items, key) == Some(i)
  {
  }

  /** A record from an untrusted author changes nothing that is ever read back, for any item. */
  lemma UntrustedNeverSteers(c: Contents, id: string, record: R.BoardRecord, other: string)
    ensures
      var c' := Perform(c, On(id, WriteState(record, false))).0;
      c'.items == c.items && Trusted(EntriesOf(c', other)) == Trusted(EntriesOf(c, other))
  {
    TrustedIgnores(EntriesOf(c, id), Entry(record, false));
  }

  lemma {:induction false} TrustedIgnores(entries: seq<Entry>, last: Entry)
    requires !last.trusted
    ensures Trusted(entries + [last]) == Trusted(entries)
  {
    if entries == [] {
      assert entries + [last] == [last];
    } else {
      assert (entries + [last])[1..] == entries[1..] + [last];
      TrustedIgnores(entries[1..], last);
    }
  }

  lemma {:induction false} TrustedAfterUntrusted(entries: seq<Entry>, record: R.BoardRecord)
    ensures Trusted(Untrusted(entries) + [Entry(record, true)]) == Some(record)
  {
    if entries == [] {
      assert Untrusted(entries) + [Entry(record, true)] == [Entry(record, true)];
    } else {
      TrustedAfterUntrusted(entries[1..], record);
      if entries[0].trusted {
        assert Untrusted(entries) == Untrusted(entries[1..]);
      } else {
        var rest := Untrusted(entries[1..]) + [Entry(record, true)];
        assert Untrusted(entries) + [Entry(record, true)] == [entries[0]] + rest;
        assert ([entries[0]] + rest)[1..] == rest;
      }
    }
  }

  /** A claim that succeeds is on record under its run, and then no run can claim the item as it stands. */
  lemma ClaimExcludes(c: Contents, id: string, runId: string, at: string, other: string, later: string)
    requires Perform(c, On(id, Claim(runId, at))).1 == Ok(Taken(true))
    ensures
      var c' := Perform(c, On(id, Claim(runId, at))).0;
      && Perform(c', On(id, ReadState)).1.Ok? && Perform(c', On(id, ReadState)).1.value.record.Some?
      && Perform(c', On(id, ReadState)).1.value.record.value.runId == runId
      && Perform(c', On(id, Claim(other, later))) == (c', Ok(Taken(false)))
  {
    var i := IndexOf(c.items, id).value;
    var c' := Perform(c, On(id, Claim(runId, at))).0;
    SameIndex(c.items, c'.items, id);
    var takeoverFrom := DecideClaim(c.items[i].state, HolderOf(c, id), runId).takeoverFrom;
    TrustedAfterUntrusted(EntriesOf(c, id), ClaimRecord(id, runId, at, takeoverFrom));
  }

  function HolderOf(c: Contents, id: string): Option<string> {
    var record := Trusted(EntriesOf(c, id));
    if record.Some? then Some(record.value.runId) else None
  }

  lemma SameIndex(items: seq<Item>, items': seq<Item>, id: string)
    requires |items| == |items'| && forall i :: 0 <= i < |items| ==> items[i].id == items'[i].id
    ensures IndexOf(items, id) == IndexOf(items', id)
  {
  }

  /** A trusted record is what is read next, for that item and no other. */
  lemma TrustedIsRead(c: Contents, id: string, record: R.BoardRecord, other: string)
    requires Perform(c, On(id, WriteState(record, true))).1 == Ok(Done)
    ensures
      var c' := Perform(c, On(id, WriteState(record, true))).0;
      && Perform(c', On(id, ReadState)) == (c', Ok(StateOf(Some(record))))
      && (other != id ==> EntriesOf(c', other) == EntriesOf(c, other))
  {
    TrustedAfterUntrusted(EntriesOf(c, id), record);
  }

  /** Saying something again under the same key edits the one comment there, and no other. */
  lemma CommentIsEdited(c: Contents, id: string, runId: string, first: string, second: string, key: string)
    requires IndexOf(c.items, id).Some?
    ensures
      var mine := CommentKey(id, runId);
      var (c', r) := Perform(c, On(id, Remark(first, runId)));
      var (c'', r') := Perform(c', On(id, Remark(second, runId)));
      && r.Ok? && r' == r && mine in c''.comments && c''.comments[mine] == Comment(r.value.number, second)
      && (key != mine ==> (key in c''.comments <==> key in c.comments) &&
                          (key in c.comments ==> c''.comments[key] == c.comments[key]))
  {
    var c' := Perform(c, On(id, Remark(first, runId))).0;
    assert c'.items == c.items;
  }

  /** One of the ids is the other, a colon, and what the other's run starts with. */
  ghost predicate Overlap(id: string, runId: string, longer: string, rest: string) {
    exists x :: longer == id + ":" + x && runId == x + ":" + rest
  }

  /** Two runs share a comment exactly if run and item are the same or one pair continues the other. */
  lemma CommentsSharedExactlyWhen(id: string, runId: string, id': string, runId': string)
    ensures CommentKey(id, runId) == CommentKey(id', runId') <==>
      || (id == id' && runId == runId') || Overlap(id, runId, id', runId') || Overlap(id', runId', id, runId)
  {
    if CommentKey(id, runId) == CommentKey(id', runId') {
      if |id| <= |id'| {
        SharedIsOverlap(id, runId, id', runId');
      } else {
        SharedIsOverlap(id', runId', id, runId);
      }
    }
    forall x | id' == id + ":" + x && runId == x + ":" + runId'
      ensures CommentKey(id, runId) == CommentKey(id', runId')
    {
      JoinedTwice(id, x, runId');
    }
    forall x | id == id' + ":" + x && runId' == x + ":" + runId
      ensures CommentKey(id, runId) == CommentKey(id', runId')
    {
      JoinedTwice(id', x, runId);
    }
  }

  lemma JoinedTwice(a: string, x: string, b: string)
    ensures CommentKey(a, x + ":" + b) == CommentKey(a + ":" + x, b)
  {
    Text.Associative(a + ":" + x, ":", b);
    Text.Associative(a + ":", x, ":" + b);
    Text.Associative(x, ":", b);
  }

  lemma SharedIsOverlap(id: string, runId: string, id': string, runId': string)
    requires |id| <= |id'| && CommentKey(id, runId) == CommentKey(id', runId')
    ensures (id == id' && runId == runId') || Overlap(id, runId, id', runId')
  {
    var key, n := CommentKey(id, runId), |id|;
    assert key[..n] == id && key[..n] == id'[..n] && key[n] == ':' && key[n + 1..] == runId;
    assert key[|id'|] == ':' && key[|id'| + 1..] == runId';
    if n < |id'| {
      var x := id'[n + 1..];
      assert id'[n] == key[n];
      assert id' == id'[..n] + [id'[n]] + x;
      assert runId == key[n + 1..|id'|] + [key[|id'|]] + key[|id'| + 1..];
      assert key[n + 1..|id'|] == x;
    }
  }

  /** So run `b:c` on item `a` and run `c` on item `a:b` edit one comment. */
  lemma TwoRunsShareAComment(c: Contents, first: string, second: string)
    requires IndexOf(c.items, "a").Some? && IndexOf(c.items, "a:b").Some?
    ensures
      var (c', r) := Perform(c, On("a", Remark(first, "b:c")));
      var (c'', r') := Perform(c', On("a:b", Remark(second, "c")));
      r.Ok? && r' == r && c''.comments[CommentKey("a", "b:c")].body == second
  {
    JoinedTwice("a", "b", "c");
    assert "b" + ":" + "c" == "b:c" && "a" + ":" + "b" == "a:b";
  }

  /** On items whose ids hold no colon it cannot happen. */
  lemma PlainIdsShareNothing(id: string, runId: string, id': string, runId': string)
    requires ':' !in id && ':' !in id' && CommentKey(id, runId) == CommentKey(id', runId')
    ensures id == id' && runId == runId'
  {
    CommentsSharedExactlyWhen(id, runId, id', runId');
    forall a: string, x: string
      ensures ':' in a + ":" + x
    {
      assert (a + ":" + x)[|a|] == ':';
    }
  }

  /** Exactly the items in one of the states are listed. */
  lemma {:induction false} ListedExactly(items: seq<Item>, states: set<State>, item: Item)
    ensures item in InStates(items, states) <==> item in items && item.state in states
  {
    if items != [] {
      ListedExactly(items[1..], states, item);
      assert item in items <==> item == items[0] || item in items[1..];
    }
  }

  /** And they are listed in the board's order. */
  lemma {:induction false} ListedInOrder(a: seq<Item>, b: seq<Item>, states: set<State>)
    ensures InStates(a + b, states) == InStates(a, states) + InStates(b, states)
  {
    if a == [] {
      assert a + b == b && InStates(a, states) == [];
    } else {
      var first := if a[0].state in states then [a[0]] else [];
      assert (a + b)[0] == a[0] && (a + b)[1..] == a[1..] + b;
      ListedInOrder(a[1..], b, states);
      calc {
        InStates(a + b, states);
        first + InStates(a[1..] + b, states);
        first + (InStates(a[1..], states) + InStates(b, states));
        (first + InStates(a[1..], states)) + InStates(b, states);
        InStates(a, states) + InStates(b, states);
      }
    }
  }

  class Board {
    var items: seq<Item>
    var itemSeq: nat
    var comments: map<string, Comment>
    var commentSeq: nat
    var records: map<string, seq<Entry>>

    function Now(): Contents
      reads this
    {
      Contents(items, itemSeq, comments, commentSeq, records)
    }

    constructor (seeds: seq<Item>)
      ensures Now() == Contents(seeds, 0, map[], 0, map[])
    {
      items, itemSeq, comments, commentSeq, records := seeds, 0, map[], 0, map[];
    }

    method CreateItem(spec: Spec) returns (r: Result<Answer, ErrorKind>)
      modifies `items, `itemSeq
      ensures (Now(), r) == Perform(old(Now()), CreateWork(spec))
    {
      if spec.key.Some? {
        if !M.ValidKey(spec.key.value) {
          return Err(Precondition);
        }
        var existing := FirstCarrying(items, spec.key.value);
        if existing.Some? {
          return Ok(Created(items[existing.value], false));
        }
      }
      var item := NewItem(Now(), spec);
      itemSeq := itemSeq + 1;
      items := items + [item];
      return Ok(Created(item, true));
    }

    method Move(id: string, to: State) returns (r: Result<Answer, ErrorKind>)
      modifies `items
      ensures (Now(), r) == Perform(old(Now()), On(id, Transition(to)))
    {
      var i := IndexOf(items, id);
      if i.None? {
        return Err(NotFound);
      }
      if !CanTransition(items[i.value].state, to) {
        return Err(Precondition);
      }
      items := items[i.value := items[i.value].(state := to)];
      return Ok(Done);
    }

    method Record(id: string, record: R.BoardRecord, trusted: bool) returns (r: Result<Answer, ErrorKind>)
      modifies `records
      ensures (Now(), r) == Perform(old(Now()), On(id, WriteState(record, trusted)))
    {
      var i := IndexOf(items, id);
      if i.None? {
        return Err(NotFound);
      }
      if record.item != id {
        return Err(Precondition);
      }
      var entries := if id in records then records[id] else [];
      records := records[id := (if trusted then Untrusted(entries) else entries) + [Entry(record, trusted)]];
      return Ok(Done);
    }

    method Take(id: string, runId: string, at: string) returns (r: Result<Answer, ErrorKind>)
      modifies `items, `records
      ensures (Now(), r) == Perform(old(Now()), On(id, Claim(runId, at)))
    {
      var i := IndexOf(items, id);
      if i.None? {
        return Err(NotFound);
      }
      var record := Trusted(if id in records then records[id] else []);
      var decision := DecideClaim(items[i.value].state, if record.Some? then Some(record.value.runId) else None, runId);
      if decision.Refuse? {
        return Ok(Taken(false));
      }
      items := items[i.value := items[i.value].(state := Claimed)];
      ghost var moved := items;
      assert forall j :: 0 <= j < i.value ==> items[j].id == old(items)[j].id;
      assert items[i.value].id == id;
      var _ := Record(id, ClaimRecord(id, runId, at, decision.takeoverFrom), true);
      return Ok(Taken(true));
    }

    method Say(id: string, body: string, runId: string) returns (r: Result<Answer, ErrorKind>)
      modifies `comments, `commentSeq
      ensures (Now(), r) == Perform(old(Now()), On(id, Remark(body, runId)))
    {
      var i := IndexOf(items, id);
      if i.None? {
        return Err(NotFound);
      }
      var key := CommentKey(id, runId);
      if key in comments {
        comments := comments[key := comments[key].(body := body)];
        return Ok(Commented(comments[key].number));
      }
      commentSeq := commentSeq + 1;
      comments := comments[key := Comment(commentSeq, body)];
      return Ok(Commented(commentSeq));
    }

    /** Every call does to the board what `Perform` says, and answers what it says. */
    method Do(call: Call) returns (r: Result<Answer, ErrorKind>)
      modifies this
      ensures (Now(), r) == Perform(old(Now()), call)
    {
      match call
      case CreateWork(spec) => r := CreateItem(spec);
      case On(id, Claim(runId, at)) => r := Take(id, runId, at);
      case On(id, Transition(to)) => r := Move(id, to);
      case On(id, Remark(body, runId)) => r := Say(id, body, runId);
      case On(id, WriteState(record, trusted)) => r := Record(id, record, trusted);
      case _ => return Perform(Now(), call).1;
    }
  }
}
