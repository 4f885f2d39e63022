/**
 * A local override laid over a base configuration, with a report of the keys that it set or cleared.
 * The report names a path by its keys joined with dots.
 */
module ConfigMerge {
  import opened Wrappers

  datatype Config = Null | Scalar(text: string) | List(items: seq<Config>) | Mapping(entries: map<string, Config>)

  type Path = seq<string>

  datatype Kind = Set | Cleared

  datatype Change = Change(path: Path, kind: Kind)

  /** A change as it is reported. */
  datatype Entry = Entry(path: string, kind: Kind)

  /** The keys joined with dots; there is no dot behind an empty prefix. */
  function Joined(prefix: string, key: string): string {
    if prefix == "" then key else prefix + "." + key
  }

  function Dotted(path: Path): string {
    if path == [] then "" else Joined(Dotted(path[..|path| - 1]), path[|path| - 1])
  }

  function DottedReport(changes: seq<Change>): seq<Entry> {
    seq(|changes|, i requires 0 <= i < |changes| => Entry(Dotted(changes[i].path), changes[i].kind))
  }

  /** Both are mappings at this key, and so are merged key by key. */
  predicate BothMap(b: Config, o: Config, k: string) {
    b.Mapping? && o.Mapping? && k in b.entries && k in o.entries && b.entries[k].Mapping? && o.entries[k].Mapping?
  }

  /** The base under the override: an explicit null clears, mappings merge, everything else replaces. */
  function Merge(b: Config, o: Config): Config
    decreases o
  {
    if !b.Mapping? || !o.Mapping? then o
    else Mapping(map k | k in b.entries.Keys + o.entries.Keys && !(k in o.entries && o.entries[k] == Null) ::
      if k !in o.entries then b.entries[k]
      else if BothMap(b, o, k) then Merge(b.entries[k], o.entries[k])
      else o.entries[k])
  }

  // Merging again.

  /** No null stands as a value of a mapping, at any depth. */
  ghost predicate NullFree(c: Config) {
    c.Mapping? ==> forall k :: k in c.entries ==> c.entries[k] != Null && NullFree(c.entries[k])
  }

  /** No override mapping that lands on something else than a mapping brings a null along. */
  ghost predicate LandsClean(b: Config, o: Config)
    decreases o
  {
    if !b.Mapping? || !o.Mapping? then NullFree(o)
    else forall k :: k in o.entries ==>
      if BothMap(b, o, k) then LandsClean(b.entries[k], o.entries[k]) else NullFree(o.entries[k])
  }

  lemma {:induction false} SelfMerge(c: Config)
    ensures Merge(c, c) == c <==> NullFree(c)
  {
    if c.Mapping? {
      forall k | k in c.entries
        ensures Merge(c.entries[k], c.entries[k]) == c.entries[k] <==> NullFree(c.entries[k])
      {
        SelfMerge(c.entries[k]);
      }
      var again := Merge(c, c).entries;
      if NullFree(c) {
        assert again == c.entries;
      } else {
        var k :| k in c.entries && (c.entries[k] == Null || !NullFree(c.entries[k]));
        assert c.entries[k] == Null ==> k !in again;
      }
    }
  }

  /** Laying the same override over the result changes nothing if and only if it landed clean. */
  lemma {:induction false} MergeAgainExactlyWhen(b: Config, o: Config)
    ensures Merge(Merge(b, o), o) == Merge(b, o) <==> LandsClean(b, o)
    decreases o
  {
    if !b.Mapping? || !o.Mapping? {
      SelfMerge(o);
    } else {
      var once := Merge(b, o);
      var twice := Merge(once, o);
      forall k | k in o.entries && o.entries[k] != Null
        ensures k in once.entries && k in twice.entries
        ensures twice.entries[k] == once.entries[k] <==>
          if BothMap(b, o, k) then LandsClean(b.entries[k], o.entries[k]) else NullFree(o.entries[k])
      {
        if BothMap(b, o, k) {
          MergeAgainExactlyWhen(b.entries[k], o.entries[k]);
        } else {
          SelfMerge(o.entries[k]);
        }
      }
      assert twice.entries.Keys == once.entries.Keys;
      if LandsClean(b, o) {
        assert twice.entries == once.entries;
      } else {
        var k :| k in o.entries &&
          !(if BothMap(b, o, k) then LandsClean(b.entries[k], o.entries[k]) else NullFree(o.entries[k]));
        assert o.entries[k] != Null;
      }
    }
  }

  // Replaying what was reported.

  function Lookup(c: Config, path: Path): Option<Config> {
    if path == [] then Some(c)
    else if c.Mapping? && path[0] in c.entries then Lookup(c.entries[path[0]], path[1..])
    else None
  }

  /** Set or clear one path; the mappings it leads through are there. */
  datatype Edit = Put(path: Path, value: Config) | Clear(path: Path)

  function Edited(c: Config, path: Path, value: Option<Config>): Config
    decreases |path|
  {
    if path == [] || !c.Mapping? then c
    else if |path| == 1 then
      Mapping(if value.Some? then c.entries[path[0] := value.value] else c.entries - {path[0]})
    else if path[0] in c.entries then Mapping(c.entries[path[0] := Edited(c.entries[path[0]], path[1..], value)])
    else c
  }

  function Apply(c: Config, e: Edit): Config {
    Edited(c, e.path, if e.Put? then Some(e.value) else None)
  }

  function Replay(c: Config, edits: seq<Edit>): Config
    decreases |edits|
  {
    if edits == [] then c else Replay(Apply(c, edits[0]), edits[1..])
  }

  /**
   * What is reported at a path: a key of the override that is not merged one level down was set, or
   * cleared if it is null and the base has the key.
   */
  ghost predicate Reports(b: Config, o: Config, path: Path, kind: Kind)
    decreases |path|
  {
    && b.Mapping? && o.Mapping? && path != [] && path[0] in o.entries
    && if BothMap(b, o, path[0]) then Reports(b.entries[path[0]], o.entries[path[0]], path[1..], kind)
       else if o.entries[path[0]] == Null then |path| == 1 && kind == Cleared && path[0] in b.entries
       else |path| == 1 && kind == Set
  }

  function KindOf(e: Edit): Kind {
    if e.Put? then Set else Cleared
  }

  ghost predicate Made(edits: seq<Edit>, path: Path, kind: Kind) {
    exists i :: 0 <= i < |edits| && edits[i].path == path && KindOf(edits[i]) == kind
  }

  /** No path is edited twice. */
  ghost predicate Once(edits: seq<Edit>) {
    forall i, j :: 0 <= i < j < |edits| ==> edits[i].path != edits[j].path
  }

  /** The edits are what is reported below these keys of the override, each once. */
  ghost predicate Listed(edits: seq<Edit>, b: Config, o: Config, keys: set<string>) {
    && Once(edits) && (forall i :: 0 <= i < |edits| ==> edits[i].path != [])
    && forall path, kind :: Made(edits, path, kind) <==> Reports(b, o, path, kind) && path[0] in keys
  }

  function KeysOf(c: Config): set<string> {
    if c.Mapping? then c.entries.Keys else {}
  }

  /** The report names the path and whether it was set, but not the value. */
  function Reported(prefix: Path, edits: seq<Edit>): seq<Change> {
    seq(|edits|, i requires 0 <= i < |edits| => Change(prefix + edits[i].path, KindOf(edits[i])))
  }

  /** The values are read from the merged configuration. */
  function ReplayReport(c: Config, merged: Config, changes: seq<Change>): Config
    decreases |changes|
  {
    if changes == [] then c
    else
      var value := if changes[0].kind == Set then Lookup(merged, changes[0].path) else None;
      ReplayReport(Edited(c, changes[0].path, value), merged, changes[1..])
  }

  function Under(k: string, edits: seq<Edit>): seq<Edit> {
    seq(|edits|, i requires 0 <= i < |edits| =>
      if edits[i].Put? then Put([k] + edits[i].path, edits[i].value) else Clear([k] + edits[i].path))
  }

  /** The edit says what the override says and the merged configuration holds. */
  ghost predicate Faithful(e: Edit, b: Config, o: Config, merged: Config) {
    && e.path != []
    && (if e.Put? then Lookup(merged, e.path) == Some(e.value) && Lookup(o, e.path) == Some(e.value) && e.value != Null
        else Lookup(merged, e.path) == None && Lookup(o, e.path) == Some(Null) && Lookup(b, e.path).Some?)
  }

  lemma {:induction false} ReplayAppend(c: Config, a: seq<Edit>, b: seq<Edit>)
    ensures Replay(c, a + b) == Replay(Replay(c, a), b)
    decreases |a|
  {
    if a == [] {
      assert a + b == b;
    } else {
      assert (a + b)[1..] == a[1..] + b;
      ReplayAppend(Apply(c, a[0]), a[1..], b);
    }
  }

  lemma {:induction false} ReplayUnder(c: Config, k: string, edits: seq<Edit>)
    requires c.Mapping? && k in c.entries && forall i :: 0 <= i < |edits| ==> edits[i].path != []
    ensures Replay(c, Under(k, edits)) == Mapping(c.entries[k := Replay(c.entries[k], edits)])
    decreases |edits|
  {
    if edits == [] {
      assert c.entries[k := c.entries[k]] == c.entries;
    } else {
      var e := edits[0];
      assert ([k] + e.path)[1..] == e.path;
      var next := Apply(c, Under(k, edits)[0]);
      assert next == Mapping(c.entries[k := Apply(c.entries[k], e)]);
      assert Under(k, edits)[1..] == Under(k, edits[1..]);
      ReplayUnder(next, k, edits[1..]);
      assert next.entries[k := Replay(next.entries[k], edits[1..])] ==
        c.entries[k := Replay(next.entries[k], edits[1..])];
    }
  }

  lemma {:induction false} ReportReplays(c: Config, merged: Config, edits: seq<Edit>)
    requires forall i :: 0 <= i < |edits| && edits[i].Put? ==> Lookup(merged, edits[i].path) == Some(edits[i].value)
    ensures ReplayReport(c, merged, Reported([], edits)) == Replay(c, edits)
    decreases |edits|
  {
    if edits != [] {
      assert [] + edits[0].path == edits[0].path;
      assert Reported([], edits)[1..] == Reported([], edits[1..]);
      ReportReplays(Apply(c, edits[0]), merged, edits[1..]);
    }
  }

  lemma ReportedUnder(prefix: Path, k: string, edits: seq<Edit>)
    ensures Reported(prefix + [k], edits) == Reported(prefix, Under(k, edits))
  {
    assert forall i :: 0 <= i < |edits| ==> (prefix + [k]) + edits[i].path == prefix + ([k] + edits[i].path);
  }

  lemma ReportedAppend(prefix: Path, a: seq<Edit>, b: seq<Edit>)
    ensures Reported(prefix, a + b) == Reported(prefix, a) + Reported(prefix, b)
  {
  }

  lemma ListedNone(b: Config, o: Config)
    ensures Listed([], b, o, {})
  {
  }

  lemma MadeAppend(edits: seq<Edit>, more: seq<Edit>, path: Path, kind: Kind)
    ensures Made(edits + more, path, kind) <==> Made(edits, path, kind) || Made(more, path, kind)
  {
    if Made(edits, path, kind) {
      var i :| 0 <= i < |edits| && edits[i].path == path && KindOf(edits[i]) == kind;
      assert (edits + more)[i] == edits[i];
    }
    if Made(more, path, kind) {
      var i :| 0 <= i < |more| && more[i].path == path && KindOf(more[i]) == kind;
      assert (edits + more)[|edits| + i] == more[i];
    }
  }

  lemma ListedHas(edits: seq<Edit>, b: Config, o: Config, keys: set<string>, i: nat)
    requires Listed(edits, b, o, keys) && i < |edits|
    ensures Reports(b, o, edits[i].path, KindOf(edits[i])) && edits[i].path[0] in keys
  {
    assert Made(edits, edits[i].path, KindOf(edits[i]));
  }

  lemma ListedJoin(edits: seq<Edit>, more: seq<Edit>, b: Config, o: Config, keys: set<string>, k: string)
    requires Listed(edits, b, o, keys) && Listed(more, b, o, {k}) && k !in keys
    ensures Listed(edits + more, b, o, keys + {k})
  {
    var all := edits + more;
    forall i, j | 0 <= i < j < |all|
      ensures all[i].path != all[j].path
    {
      if i < |edits| <= j {
        ListedHas(edits, b, o, keys, i);
        ListedHas(more, b, o, {k}, j - |edits|);
      }
    }
    forall path, kind
      ensures Made(all, path, kind) <==> Reports(b, o, path, kind) && path[0] in keys + {k}
    {
      MadeAppend(edits, more, path, kind);
    }
  }

  lemma MadeUnder(k: string, edits: seq<Edit>, path: Path, kind: Kind)
    requires path != []
    ensures Made(Under(k, edits), path, kind) <==> path[0] == k && Made(edits, path[1..], kind)
  {
    var under := Under(k, edits);
    if Made(under, path, kind) {
      var i :| 0 <= i < |under| && under[i].path == path && KindOf(under[i]) == kind;
      assert ([k] + edits[i].path)[1..] == edits[i].path;
    }
    if path[0] == k && Made(edits, path[1..], kind) {
      var i :| 0 <= i < |edits| && edits[i].path == path[1..] && KindOf(edits[i]) == kind;
      assert under[i].path == [k] + path[1..] == path;
    }
  }

  lemma ListedUnder(edits: seq<Edit>, b: Config, o: Config, k: string)
    requires BothMap(b, o, k) && Listed(edits, b.entries[k], o.entries[k], KeysOf(o.entries[k]))
    ensures Listed(Under(k, edits), b, o, {k})
  {
    var under := Under(k, edits);
    forall i, j | 0 <= i < j < |under|
      ensures under[i].path != under[j].path
    {
      assert ([k] + edits[i].path)[1..] == edits[i].path && ([k] + edits[j].path)[1..] == edits[j].path;
    }
    forall path, kind
      ensures Made(under, path, kind) <==> Reports(b, o, path, kind) && path[0] in {k}
    {
      if path != [] {
        MadeUnder(k, edits, path, kind);
      }
    }
  }

  /** At a key that is not merged one level down, the report is the edit made there, if any. */
  lemma ListedLeaf(b: Config, o: Config, k: string)
    requires b.Mapping? && o.Mapping? && k in o.entries && !BothMap(b, o, k)
    ensures Listed(LeafEdits(b, o, k), b, o, {k})
  {
    var edits := LeafEdits(b, o, k);
    forall path, kind
      ensures Made(edits, path, kind) <==> Reports(b, o, path, kind) && path[0] in {k}
    {
      if |path| == 1 && path[0] == k {
        assert path == [k];
        assert edits != [] ==> edits[0].path == path;
      }
    }
  }

  function LeafEdits(b: Config, o: Config, k: string): seq<Edit>
    requires b.Mapping? && o.Mapping? && k in o.entries
  {
    if o.entries[k] != Null then [Put([k], o.entries[k])] else if k in b.entries then [Clear([k])] else []
  }

  lemma FaithfulUnder(e: Edit, k: string, b: Config, o: Config, merged: Config)
    requires BothMap(b, o, k) && merged.Mapping? && k in merged.entries
    requires Faithful(e, b.entries[k], o.entries[k], merged.entries[k])
    ensures Faithful(Under(k, [e])[0], b, o, merged)
  {
    assert ([k] + e.path)[1..] == e.path;
  }

  /** After the keys in `done`, the copy holds what the merge gives for those, and the base for the rest. */
  ghost predicate Progress(m: map<string, Config>, b: Config, o: Config, done: set<string>)
    requires b.Mapping? && o.Mapping?
  {
    forall k :: if k in done then (k in m <==> k in Merge(b, o).entries) && (k in m ==> m[k] == Merge(b, o).entries[k])
                else (k in m <==> k in b.entries) && (k in m ==> m[k] == b.entries[k])
  }

  /** What an edit says is not touched by what happens at another key. */
  lemma FaithfulElsewhere(e: Edit, b: Config, o: Config, m: map<string, Config>, m': map<string, Config>, k: string)
    requires Faithful(e, b, o, Mapping(m)) && e.path[0] != k && m - {k} == m' - {k}
    ensures Faithful(e, b, o, Mapping(m'))
  {
    var key := e.path[0];
    assert key in m <==> key in m - {k};
    assert key in m' <==> key in m' - {k};
    assert key in m ==> (m - {k})[key] == (m' - {k})[key];
  }

  lemma LookupKey(c: Config, k: string)
    requires c.Mapping?
    ensures Lookup(c, [k]) == if k in c.entries then Some(c.entries[k]) else None
  {
    assert [k][1..] == [];
  }

  /** The edits made so far concern keys that are done, and say what the override says. */
  ghost predicate AllFaithful(edits: seq<Edit>, b: Config, o: Config, m: map<string, Config>, left: set<string>) {
    forall i :: 0 <= i < |edits| ==>
      edits[i].path != [] && edits[i].path[0] !in left && Faithful(edits[i], b, o, Mapping(m))
  }

  lemma FaithfulGrows(edits: seq<Edit>, more: seq<Edit>, b: Config, o: Config,
                      m: map<string, Config>, m': map<string, Config>, left: set<string>, k: string)
    requires AllFaithful(edits, b, o, m, left) && k in left && m - {k} == m' - {k}
    requires forall i :: 0 <= i < |more| ==>
      more[i].path != [] && more[i].path[0] == k && Faithful(more[i], b, o, Mapping(m'))
    ensures AllFaithful(edits + more, b, o, m', left - {k})
  {
    forall i | 0 <= i < |edits|
      ensures Faithful(edits[i], b, o, Mapping(m'))
    {
      FaithfulElsewhere(edits[i], b, o, m, m', k);
    }
  }

  lemma DottedUnder(path: Path, k: string)
    ensures Dotted(path + [k]) == Joined(Dotted(path), k)
  {
    assert (path + [k])[..|path|] == path;
  }

  lemma ReportGrows(at: Path, edits: seq<Edit>, more: seq<Edit>)
    ensures DottedReport(Reported(at, edits + more)) ==
      DottedReport(Reported(at, edits)) + DottedReport(Reported(at, more))
  {
    ReportedAppend(at, edits, more);
  }

  /** One key of the override, on a copy that still has the base's value there. */
  method MergeKey(b: Config, o: Config, k: string, ghost at: Path, prefix: string, m: map<string, Config>,
      changes: seq<Entry>)
    returns (m': map<string, Config>, changes': seq<Entry>, ghost edits: seq<Edit>)
    requires b.Mapping? && o.Mapping? && k in o.entries && prefix == Dotted(at)
    requires (k in m <==> k in b.entries) && (k in m ==> m[k] == b.entries[k])
    ensures m - {k} == m' - {k}
    ensures (k in m' <==> k in Merge(b, o).entries) && (k in m' ==> m'[k] == Merge(b, o).entries[k])
    ensures changes' == changes + DottedReport(Reported(at, edits))
    ensures Replay(Mapping(m), edits) == Mapping(m')
    ensures forall i :: 0 <= i < |edits| ==>
      edits[i].path != [] && edits[i].path[0] == k && Faithful(edits[i], b, o, Mapping(m'))
    ensures Listed(edits, b, o, {k})
    decreases o, 0
  {
    var value, path := o.entries[k], Joined(prefix, k);
    DottedUnder(at, k);
    m', changes', edits := m, changes, [];
    if !BothMap(b, o, k) {
      ListedLeaf(b, o, k);
    }
    if value == Null {
      if k in m {
        ClearsKey(b, o, k, at, m);
        m', changes', edits := m - {k}, changes + [Entry(path, Cleared)], [Clear([k])];
      }
    } else if BothMap(b, o, k) {
      m', changes', edits := MergeInner(b, o, k, at, path, m, changes);
    } else {
      SetsKey(b, o, k, at, m);
      m', changes', edits := m[k := value], changes + [Entry(path, Set)], [Put([k], value)];
    }
  }

  lemma ClearsKey(b: Config, o: Config, k: string, at: Path, m: map<string, Config>)
    requires b.Mapping? && o.Mapping? && k in o.entries && o.entries[k] == Null && k in b.entries && k in m
    ensures Replay(Mapping(m), [Clear([k])]) == Mapping(m - {k}) && Faithful(Clear([k]), b, o, Mapping(m - {k}))
    ensures DottedReport(Reported(at, [Clear([k])])) == [Entry(Dotted(at + [k]), Cleared)]
  {
    OneEdit(Mapping(m), Clear([k]));
    LookupKey(b, k);
    LookupKey(o, k);
    LookupKey(Mapping(m - {k}), k);
  }

  lemma SetsKey(b: Config, o: Config, k: string, at: Path, m: map<string, Config>)
    requires b.Mapping? && o.Mapping? && k in o.entries && o.entries[k] != Null
    ensures Replay(Mapping(m), [Put([k], o.entries[k])]) == Mapping(m[k := o.entries[k]])
    ensures Faithful(Put([k], o.entries[k]), b, o, Mapping(m[k := o.entries[k]]))
    ensures DottedReport(Reported(at, [Put([k], o.entries[k])])) == [Entry(Dotted(at + [k]), Set)]
  {
    OneEdit(Mapping(m), Put([k], o.entries[k]));
    LookupKey(o, k);
    LookupKey(Mapping(m[k := o.entries[k]]), k);
  }

  /** Mappings on both sides are merged one level down. */
  method MergeInner(b: Config, o: Config, k: string, ghost at: Path, path: string, m: map<string, Config>,
      changes: seq<Entry>)
    returns (m': map<string, Config>, changes': seq<Entry>, ghost edits: seq<Edit>)
    requires BothMap(b, o, k) && path == Dotted(at + [k]) && k in m && m[k] == b.entries[k]
    ensures m' == m[k := Merge(b.entries[k], o.entries[k])]
    ensures changes' == changes + DottedReport(Reported(at, edits))
    ensures Replay(Mapping(m), edits) == Mapping(m')
    ensures forall i :: 0 <= i < |edits| ==>
      edits[i].path != [] && edits[i].path[0] == k && Faithful(edits[i], b, o, Mapping(m'))
    ensures Listed(edits, b, o, {k})
    decreases o, 0, 0
  {
    var inner;
    ghost var within;
    inner, changes', within := MergeInto(b.entries[k], o.entries[k], at + [k], path, changes);
    m', edits := m[k := inner], Under(k, within);
    ListedUnder(within, b, o, k);
    ReportedUnder(at, k, within);
    ReplayUnder(Mapping(m), k, within);
    forall i | 0 <= i < |within|
      ensures Faithful(edits[i], b, o, Mapping(m'))
    {
      assert edits[i] == Under(k, [within[i]])[0];
      FaithfulUnder(within[i], k, b, o, Mapping(m'));
    }
  }

  /**
   * Lay an override over a base, key by key in whatever order they come, on a copy of the base. The
   * report grows by what `edits` stand for, and replaying those on the base gives the result.
   */
  method MergeInto(b: Config, o: Config, ghost at: Path, prefix: string, changes: seq<Entry>)
    returns (merged: Config, changes': seq<Entry>, ghost edits: seq<Edit>)
    requires prefix == Dotted(at)
    ensures merged == Merge(b, o)
    ensures changes' == changes + DottedReport(Reported(at, edits))
    ensures b.Mapping? && o.Mapping? ==> Replay(b, edits) == merged
    ensures forall i :: 0 <= i < |edits| ==> Faithful(edits[i], b, o, merged)
    ensures Listed(edits, b, o, KeysOf(o))
    decreases o, 1
  {
    edits, changes' := [], changes;
    if !b.Mapping? || !o.Mapping? {
      return o, changes', edits;
    }
    var m, left := b.entries, o.entries.Keys;
    MergingStarts(b, o);
    while left != {}
      invariant left <= o.entries.Keys && changes' == changes + DottedReport(Reported(at, edits))
      invariant Merging(b, o, m, edits, left)
      decreases left
    {
      var k :| k in left;
      ghost var before, more := m, [];
      m, changes', more := MergeKey(b, o, k, at, prefix, m, changes');
      MergingStep(b, o, before, m, edits, more, left, k);
      ReportGrows(at, edits, more);
      edits, left := edits + more, left - {k};
    }
    merged := Mapping(m);
    MergingEnds(b, o, m, edits);
  }

  /** With the keys in `left` still to come: how far the copy and the edits are. */
  ghost predicate Merging(b: Config, o: Config, m: map<string, Config>, edits: seq<Edit>, left: set<string>)
    requires b.Mapping? && o.Mapping?
  {
    && Progress(m, b, o, o.entries.Keys - left) && Replay(b, edits) == Mapping(m)
    && AllFaithful(edits, b, o, m, left) && Listed(edits, b, o, o.entries.Keys - left)
  }

  lemma MergingStarts(b: Config, o: Config)
    requires b.Mapping? && o.Mapping?
    ensures Merging(b, o, b.entries, [], o.entries.Keys)
  {
    ListedNone(b, o);
    assert o.entries.Keys - o.entries.Keys == {};
  }

  lemma MergingEnds(b: Config, o: Config, m: map<string, Config>, edits: seq<Edit>)
    requires b.Mapping? && o.Mapping? && Merging(b, o, m, edits, {})
    ensures Mapping(m) == Merge(b, o) && Replay(b, edits) == Mapping(m)
    ensures forall i :: 0 <= i < |edits| ==> Faithful(edits[i], b, o, Mapping(m))
    ensures Listed(edits, b, o, KeysOf(o))
  {
    assert m == Merge(b, o).entries;
    assert o.entries.Keys - {} == KeysOf(o);
  }

  lemma MergingStep(b: Config, o: Config, m: map<string, Config>, m': map<string, Config>,
                    edits: seq<Edit>, more: seq<Edit>, left: set<string>, k: string)
    requires b.Mapping? && o.Mapping? && left <= o.entries.Keys && k in left && Merging(b, o, m, edits, left)
    requires m - {k} == m' - {k}
    requires (k in m' <==> k in Merge(b, o).entries) && (k in m' ==> m'[k] == Merge(b, o).entries[k])
    requires Replay(Mapping(m), more) == Mapping(m')
    requires forall i :: 0 <= i < |more| ==>
      more[i].path != [] && more[i].path[0] == k && Faithful(more[i], b, o, Mapping(m'))
    requires Listed(more, b, o, {k})
    ensures Merging(b, o, m', edits + more, left - {k})
  {
    ListedJoin(edits, more, b, o, o.entries.Keys - left, k);
    FaithfulGrows(edits, more, b, o, m, m', left, k);
    ReplayAppend(b, edits, more);
    ProgressStep(m, m', b, o, o.entries.Keys - left, k);
    assert o.entries.Keys - left + {k} == o.entries.Keys - (left - {k});
  }

  lemma ProgressStep(m: map<string, Config>, m': map<string, Config>, b: Config, o: Config, done: set<string>,
      k: string)
    requires b.Mapping? && o.Mapping? && Progress(m, b, o, done) && m - {k} == m' - {k}
    requires (k in m' <==> k in Merge(b, o).entries) && (k in m' ==> m'[k] == Merge(b, o).entries[k])
    ensures Progress(m', b, o, done + {k})
  {
    forall other | other != k
      ensures (other in m <==> other in m') && (other in m ==> m[other] == m'[other])
    {
      assert other in m <==> other in m - {k};
      assert other in m' <==> other in m' - {k};
      assert other in m ==> (m - {k})[other] == (m' - {k})[other];
    }
  }

  /** The keys are told apart again when they are joined with dots. */
  predicate Recoverable(path: Path) {
    && path != [] && (path[0] != "" || |path| == 1)
    && forall i :: 0 <= i < |path| ==> '.' !in path[i]
  }

  /** Nothing is reported: the override only clears what is not there. */
  ghost predicate Quiet(b: Config, o: Config)
    decreases o
  {
    b.Mapping? && o.Mapping? ==> forall k :: k in o.entries ==>
      if BothMap(b, o, k) then Quiet(b.entries[k], o.entries[k]) else o.entries[k] == Null && k !in b.entries
  }

  /**
   * No key that is reported, or that leads to one that is, contains a dot; and none of the keys of
   * the outermost mappings that lead to one is empty. What a value set as a whole contains does not
   * matter.
   */
  ghost predicate Legible(b: Config, o: Config, outermost: bool)
    decreases o
  {
    b.Mapping? && o.Mapping? ==> forall k :: k in o.entries ==>
      if BothMap(b, o, k) then
        || Quiet(b.entries[k], o.entries[k])
        || ('.' !in k && (outermost ==> k != "") && Legible(b.entries[k], o.entries[k], false))
      else '.' !in k || (o.entries[k] == Null && k !in b.entries)
  }

  lemma {:induction false} QuietReportsNothing(b: Config, o: Config, path: Path, kind: Kind)
    requires Quiet(b, o)
    ensures !Reports(b, o, path, kind)
    decreases o
  {
    if path != [] && BothMap(b, o, path[0]) {
      QuietReportsNothing(b.entries[path[0]], o.entries[path[0]], path[1..], kind);
    }
  }

  lemma {:induction false} UnquietReports(b: Config, o: Config) returns (path: Path, kind: Kind)
    requires !Quiet(b, o)
    ensures Reports(b, o, path, kind)
    decreases o
  {
    var k :| k in o.entries &&
      !(if BothMap(b, o, k) then Quiet(b.entries[k], o.entries[k]) else o.entries[k] == Null && k !in b.entries);
    if BothMap(b, o, k) {
      var below;
      below, kind := UnquietReports(b.entries[k], o.entries[k]);
      path := [k] + below;
      ReportsUnder(b, o, k, below, kind);
    } else {
      path, kind := [k], if o.entries[k] == Null then Cleared else Set;
    }
  }

  lemma ReportsUnder(b: Config, o: Config, k: string, path: Path, kind: Kind)
    requires BothMap(b, o, k)
    ensures Reports(b, o, [k] + path, kind) <==> Reports(b.entries[k], o.entries[k], path, kind)
  {
    assert ([k] + path)[1..] == path;
  }

  /** Dots aside, only an empty first key that leads to another is lost. */
  predicate TellsApart(path: Path, outermost: bool) {
    (forall i :: 0 <= i < |path| ==> '.' !in path[i]) && (outermost && |path| > 1 ==> path[0] != "")
  }

  lemma {:induction false} LegibleExactlyWhen(b: Config, o: Config, outermost: bool)
    ensures Legible(b, o, outermost) <==> forall path, kind :: Reports(b, o, path, kind) ==> TellsApart(path, outermost)
    decreases o
  {
    if b.Mapping? && o.Mapping? {
      if Legible(b, o, outermost) {
        forall path, kind | Reports(b, o, path, kind)
          ensures TellsApart(path, outermost)
        {
          LegibleReport(b, o, outermost, path, kind);
        }
      } else {
        IllegibleReport(b, o, outermost);
      }
    }
  }

  lemma {:induction false} LegibleReport(b: Config, o: Config, outermost: bool, path: Path, kind: Kind)
    requires Legible(b, o, outermost) && Reports(b, o, path, kind)
    ensures TellsApart(path, outermost)
    decreases o
  {
    var k := path[0];
    if BothMap(b, o, k) {
      assert !Quiet(b.entries[k], o.entries[k]) by {
        if Quiet(b.entries[k], o.entries[k]) {
          QuietReportsNothing(b.entries[k], o.entries[k], path[1..], kind);
        }
      }
      LegibleReport(b.entries[k], o.entries[k], false, path[1..], kind);
      assert forall i :: 1 <= i < |path| ==> path[i] == path[1..][i - 1];
    }
  }

  lemma {:induction false} IllegibleReport(b: Config, o: Config, outermost: bool)
    requires !Legible(b, o, outermost)
    ensures exists path, kind :: Reports(b, o, path, kind) && !TellsApart(path, outermost)
    decreases o
  {
    var k :| k in o.entries &&
      !(if BothMap(b, o, k) then
          || Quiet(b.entries[k], o.entries[k])
          || ('.' !in k && (outermost ==> k != "") && Legible(b.entries[k], o.entries[k], false))
        else '.' !in k || (o.entries[k] == Null && k !in b.entries));
    if BothMap(b, o, k) {
      IllegibleUnder(b, o, outermost, k);
    } else {
      var kind := if o.entries[k] == Null then Cleared else Set;
      assert Reports(b, o, [k], kind) && [k][0] == k;
    }
  }

  lemma {:induction false} IllegibleUnder(b: Config, o: Config, outermost: bool, k: string)
    requires BothMap(b, o, k) && !Quiet(b.entries[k], o.entries[k])
    requires '.' in k || (outermost && k == "") || !Legible(b.entries[k], o.entries[k], false)
    ensures exists path, kind :: Reports(b, o, path, kind) && !TellsApart(path, outermost)
    decreases o, 0
  {
    var path, kind;
    if !Legible(b.entries[k], o.entries[k], false) {
      IllegibleReport(b.entries[k], o.entries[k], false);
      path, kind :| Reports(b.entries[k], o.entries[k], path, kind) && !TellsApart(path, false);
      var i :| 0 <= i < |path| && '.' in path[i];
      assert ([k] + path)[i + 1] == path[i];
    } else {
      path, kind := UnquietReports(b.entries[k], o.entries[k]);
      assert ([k] + path)[0] == k;
    }
    ReportsUnder(b, o, k, path, kind);
    assert !TellsApart([k] + path, outermost);
  }

  /**
   * The result for two configurations, and the report of the keys that were set or cleared. `paths`
   * is what the report stands for: exactly what `Reports` says, each path once. The report can be
   * read back, and then replayed, exactly if it is legible.
   */
  method MergeConfigWithChanges(b: Config, o: Config)
    returns (merged: Config, changes: seq<Entry>, ghost paths: seq<Change>)
    ensures merged == Merge(b, o) && changes == DottedReport(paths)
    ensures forall path, kind :: Change(path, kind) in paths <==> Reports(b, o, path, kind)
    ensures forall i, j :: 0 <= i < j < |paths| ==> paths[i].path != paths[j].path
    ensures b.Mapping? && o.Mapping? ==> ReplayReport(b, merged, paths) == merged
    ensures ParsedReport(changes) == paths <==> forall i :: 0 <= i < |paths| ==> Recoverable(paths[i].path)
    ensures ParsedReport(changes) == paths <==> Legible(b, o, true)
    ensures b.Mapping? && o.Mapping? && Legible(b, o, true) ==> ReplayReport(b, merged, ParsedReport(changes)) == merged
    ensures forall i :: 0 <= i < |paths| ==>
      if paths[i].kind == Set then
        Lookup(merged, paths[i].path).Some? && Lookup(merged, paths[i].path) == Lookup(o, paths[i].path)
      else Lookup(merged, paths[i].path) == None && Lookup(o, paths[i].path) == Some(Null)
    ensures b.Mapping? && o.Mapping? ==>
      forall path :: (forall i :: 0 <= i < |paths| ==> Apart(paths[i].path, path)) ==>
        Lookup(merged, path) == Lookup(b, path)
  {
    ghost var edits;
    merged, changes, edits := MergeInto(b, o, [], "", []);
    paths := Reported([], edits);
    ReportedIsListed(b, o, edits);
    ReportedIsFaithful(b, o, merged, edits);
    LegibleReads(b, o, paths);
    AllUnreportedStay(b, merged, paths);
  }

  lemma ReportedIsFaithful(b: Config, o: Config, merged: Config, edits: seq<Edit>)
    requires forall i :: 0 <= i < |edits| ==> Faithful(edits[i], b, o, merged)
    ensures ReplayReport(b, merged, Reported([], edits)) == Replay(b, edits)
    ensures
      var paths := Reported([], edits);
      forall i :: 0 <= i < |paths| ==>
        if paths[i].kind == Set then
          Lookup(merged, paths[i].path).Some? && Lookup(merged, paths[i].path) == Lookup(o, paths[i].path)
        else Lookup(merged, paths[i].path) == None && Lookup(o, paths[i].path) == Some(Null)
  {
    ReportReplays(b, merged, edits);
    assert forall i :: 0 <= i < |edits| ==> [] + edits[i].path == edits[i].path;
  }

  lemma AllUnreportedStay(b: Config, merged: Config, paths: seq<Change>)
    ensures forall path :: (forall i :: 0 <= i < |paths| ==> Apart(paths[i].path, path)) ==>
      Lookup(ReplayReport(b, merged, paths), path) == Lookup(b, path)
  {
    forall path | forall i :: 0 <= i < |paths| ==> Apart(paths[i].path, path)
      ensures Lookup(ReplayReport(b, merged, paths), path) == Lookup(b, path)
    {
      UnreportedStays(b, merged, paths, path);
    }
  }

  lemma ReportedIsListed(b: Config, o: Config, edits: seq<Edit>)
    requires Listed(edits, b, o, KeysOf(o))
    ensures forall path, kind :: Change(path, kind) in Reported([], edits) <==> Reports(b, o, path, kind)
    ensures forall i, j :: 0 <= i < j < |edits| ==> Reported([], edits)[i].path != Reported([], edits)[j].path
  {
    var paths := Reported([], edits);
    assert forall i :: 0 <= i < |edits| ==> paths[i] == Change(edits[i].path, KindOf(edits[i]));
    forall path, kind
      ensures Change(path, kind) in paths <==> Made(edits, path, kind)
    {
      if Made(edits, path, kind) {
        var i :| 0 <= i < |edits| && edits[i].path == path && KindOf(edits[i]) == kind;
        assert paths[i] == Change(path, kind);
      }
    }
  }

  lemma LegibleReads(b: Config, o: Config, paths: seq<Change>)
    requires forall path, kind :: Change(path, kind) in paths <==> Reports(b, o, path, kind)
    ensures ParsedReport(DottedReport(paths)) == paths <==> forall i :: 0 <= i < |paths| ==> Recoverable(paths[i].path)
    ensures ParsedReport(DottedReport(paths)) == paths <==> Legible(b, o, true)
  {
    ReportParsesExactlyWhen(paths);
    if Legible(b, o, true) {
      forall i | 0 <= i < |paths|
        ensures Recoverable(paths[i].path)
      {
        assert Change(paths[i].path, paths[i].kind) in paths;
        LegibleReport(b, o, true, paths[i].path, paths[i].kind);
      }
    } else {
      IllegibleReport(b, o, true);
      var path, kind :| Reports(b, o, path, kind) && !TellsApart(path, true);
      var i :| 0 <= i < |paths| && paths[i] == Change(path, kind);
      assert !Recoverable(paths[i].path);
    }
  }

  // What the dots leave of a path.

  /** The parts of a text between its dots. */
  function Parts(text: string): (parts: Path)
    ensures parts != []
  {
    if text == "" then [""]
    else
      var rest := Parts(text[1..]);
      if text[0] == '.' then [""] + rest else [[text[0]] + rest[0]] + rest[1..]
  }

  function ParsedReport(report: seq<Entry>): seq<Change> {
    seq(|report|, i requires 0 <= i < |report| => Change(Parts(report[i].path), report[i].kind))
  }

  lemma {:induction false} PartsOfKey(k: string)
    requires '.' !in k
    ensures Parts(k) == [k]
  {
    if k != "" {
      PartsOfKey(k[1..]);
      assert [k[0]] + k[1..] == k;
    }
  }

  lemma {:induction false} PartsAppend(text: string, k: string)
    requires '.' !in k
    ensures Parts(text + ("." + k)) == Parts(text) + [k]
  {
    if text == "" {
      PartsOfKey(k);
      assert text + ("." + k) == "." + k && ("." + k)[1..] == k;
    } else {
      PartsAppend(text[1..], k);
      assert (text + ("." + k))[1..] == text[1..] + ("." + k);
    }
  }

  lemma {:induction false} PartsHoldNoDot(text: string)
    ensures forall i :: 0 <= i < |Parts(text)| ==> '.' !in Parts(text)[i]
  {
    if text != "" {
      PartsHoldNoDot(text[1..]);
    }
  }

  /** A path is found again in its dotted form exactly if it is recoverable. */
  lemma DottedParses(path: Path)
    ensures Parts(Dotted(path)) == path <==> Recoverable(path)
  {
    PartsHoldNoDot(Dotted(path));
    if Recoverable(path) {
      RecoverableParses(path);
    } else if path != [] && forall i :: 0 <= i < |path| ==> '.' !in path[i] {
      EmptyKeyIsLost(path);
    }
  }

  lemma {:induction false} RecoverableParses(path: Path)
    requires Recoverable(path)
    ensures Parts(Dotted(path)) == path && (path[0] != "" ==> Dotted(path) != "")
    decreases |path|
  {
    var front, last := path[..|path| - 1], path[|path| - 1];
    if front == [] {
      PartsOfKey(last);
    } else {
      RecoverableParses(front);
      PartsAppend(Dotted(front), last);
      assert Dotted(front) + "." + last == Dotted(front) + ("." + last);
    }
    assert path == front + [last];
  }

  /** No dot is put behind an empty first key, so a part is missing. */
  lemma {:induction false} EmptyKeyIsLost(path: Path)
    requires |path| > 1 && path[0] == "" && forall i :: 0 <= i < |path| ==> '.' !in path[i]
    ensures |Parts(Dotted(path))| < |path|
    decreases |path|
  {
    var front, last := path[..|path| - 1], path[|path| - 1];
    if |front| == 1 {
      DottedOne(front[0]);
      assert front == [front[0]];
      PartsOfKey(last);
    } else {
      EmptyKeyIsLost(front);
      PartsOfKey(last);
      PartsAppend(Dotted(front), last);
      assert Dotted(front) + "." + last == Dotted(front) + ("." + last);
    }
  }

  lemma ReportParsesExactlyWhen(changes: seq<Change>)
    ensures ParsedReport(DottedReport(changes)) == changes <==>
      forall i :: 0 <= i < |changes| ==> Recoverable(changes[i].path)
  {
    forall i | 0 <= i < |changes|
      ensures Parts(Dotted(changes[i].path)) == changes[i].path <==> Recoverable(changes[i].path)
    {
      DottedParses(changes[i].path);
    }
    var parsed := ParsedReport(DottedReport(changes));
    assert forall i :: 0 <= i < |changes| ==> parsed[i] == Change(Parts(Dotted(changes[i].path)), changes[i].kind);
  }

  /**
   * With other keys the report does not say what happened: over one base, these two overrides give
   * different results, and for each of them the report is that `a.b` was set.
   */
  method DotsAreAmbiguous(x: Config, y: Config)
    returns (deep: Config, flat: Config, ofDeep: seq<Entry>, ofFlat: seq<Entry>)
    requires x != y && x.Scalar? && y.Scalar?
    ensures deep == Merge(Nested(x), Nested(y)) && flat == Merge(Nested(x), Mapping(map["a.b" := y])) && deep != flat
    ensures ofDeep == ofFlat == [Entry("a.b", Set)]
  {
    ghost var paths;
    DeepReport(x, y);
    deep, ofDeep, paths := MergeConfigWithChanges(Nested(x), Nested(y));
    OneReported(Nested(x), Nested(y), paths, ["a", "b"]);
    FlatReport(x, y);
    flat, ofFlat, paths := MergeConfigWithChanges(Nested(x), Mapping(map["a.b" := y]));
    OneReported(Nested(x), Mapping(map["a.b" := y]), paths, ["a.b"]);
    DottedExample();
    MergesDiffer(x, y);
  }

  /** A report of one path, each once, is that path alone. */
  lemma OneReported(b: Config, o: Config, paths: seq<Change>, path: Path)
    requires forall p, kind :: Change(p, kind) in paths <==> Reports(b, o, p, kind)
    requires forall i, j :: 0 <= i < j < |paths| ==> paths[i].path != paths[j].path
    requires forall p, kind :: Reports(b, o, p, kind) <==> p == path && kind == Set
    ensures DottedReport(paths) == [Entry(Dotted(path), Set)]
  {
    assert Change(path, Set) in paths;
    forall i | 0 <= i < |paths|
      ensures paths[i] == Change(path, Set)
    {
      assert Change(paths[i].path, paths[i].kind) in paths;
    }
    assert |paths| > 1 ==> paths[0].path != paths[1].path;
  }

  lemma DeepReport(x: Config, y: Config)
    requires x.Scalar? && y.Scalar?
    ensures forall p, kind :: Reports(Nested(x), Nested(y), p, kind) <==> p == ["a", "b"] && kind == Set
  {
    var inner, other := Mapping(map["b" := x]), Mapping(map["b" := y]);
    assert Nested(x).entries["a"] == inner && Nested(y).entries["a"] == other && BothMap(Nested(x), Nested(y), "a");
    LeafReport(inner, "b", y);
    forall p, kind
      ensures Reports(Nested(x), Nested(y), p, kind) <==> p == ["a", "b"] && kind == Set
    {
      if p != [] && p[0] == "a" {
        assert p == ["a"] + p[1..];
      }
      assert ["a", "b"][1..] == ["b"];
    }
  }

  lemma LeafReport(b: Config, k: string, y: Config)
    requires b.Mapping? && y.Scalar?
    ensures forall p, kind :: Reports(b, Mapping(map[k := y]), p, kind) <==> p == [k] && kind == Set
  {
    forall p, kind
      ensures Reports(b, Mapping(map[k := y]), p, kind) <==> p == [k] && kind == Set
    {
      if |p| == 1 && p[0] == k {
        assert p == [k];
      }
    }
  }

  lemma FlatReport(x: Config, y: Config)
    requires x.Scalar? && y.Scalar?
    ensures forall p, kind :: Reports(Nested(x), Mapping(map["a.b" := y]), p, kind) <==> p == ["a.b"] && kind == Set
  {
    LeafReport(Nested(x), "a.b", y);
  }

  lemma MergesDiffer(x: Config, y: Config)
    requires x != y && x.Scalar? && y.Scalar?
    ensures Merge(Nested(x), Nested(y)) != Merge(Nested(x), Mapping(map["a.b" := y]))
  {
    DeepMerge(x, y);
    FlatMerge(x, y);
    assert Merge(Nested(x), Nested(y)).entries["a"].entries["b"] == y;
    assert Merge(Nested(x), Mapping(map["a.b" := y])).entries["a"].entries["b"] == x;
  }

  function Nested(x: Config): Config {
    Mapping(map["a" := Mapping(map["b" := x])])
  }

  lemma DeepMerge(x: Config, y: Config)
    requires x.Scalar? && y.Scalar?
    ensures Merge(Nested(x), Nested(y)) == Nested(y)
  {
    var inner, other := Mapping(map["b" := x]), Mapping(map["b" := y]);
    assert Merge(inner, other).entries == map["b" := y];
    assert Merge(Nested(x), Nested(y)).entries == map["a" := other];
  }

  lemma FlatMerge(x: Config, y: Config)
    requires x.Scalar? && y.Scalar?
    ensures Merge(Nested(x), Mapping(map["a.b" := y])).entries == map["a" := Mapping(map["b" := x]), "a.b" := y]
  {
    assert "a" != "a.b";
  }

  lemma OneEdit(c: Config, e: Edit)
    ensures Replay(c, [e]) == Apply(c, e)
  {
    assert [e][1..] == [];
  }

  lemma DottedOne(k: string)
    ensures Dotted([k]) == k
  {
    assert [k][..0] == [];
  }

  lemma DottedTwo(k: string, l: string)
    requires k != ""
    ensures Dotted([k, l]) == k + "." + l
  {
    assert [k, l][..1] == [k];
    DottedOne(k);
  }

  lemma DottedExample()
    ensures Dotted(["a", "b"]) == Dotted(["a.b"]) == "a.b"
  {
    DottedTwo("a", "b");
    DottedOne("a.b");
  }

  /** Paths of which neither leads to the other. */
  predicate Apart(p: Path, q: Path) {
    !(p <= q) && !(q <= p)
  }

  lemma {:induction false} EditedElsewhere(c: Config, path: Path, value: Option<Config>, other: Path)
    requires Apart(path, other)
    ensures Lookup(Edited(c, path, value), other) == Lookup(c, other)
    decreases |path|
  {
    if c.Mapping? && path[0] == other[0] {
      assert path == [path[0]] + path[1..] && other == [other[0]] + other[1..];
      if path[0] in c.entries && |path| > 1 {
        EditedElsewhere(c.entries[path[0]], path[1..], value, other[1..]);
      }
    }
  }

  /** What is not reported has not changed: a replay touches no path that stands apart from all of its own. */
  lemma {:induction false} UnreportedStays(c: Config, merged: Config, changes: seq<Change>, path: Path)
    requires forall i :: 0 <= i < |changes| ==> Apart(changes[i].path, path)
    ensures Lookup(ReplayReport(c, merged, changes), path) == Lookup(c, path)
    decreases |changes|
  {
    if changes != [] {
      var value := if changes[0].kind == Set then Lookup(merged, changes[0].path) else None;
      EditedElsewhere(c, changes[0].path, value, path);
      UnreportedStays(Edited(c, changes[0].path, value), merged, changes[1..], path);
    }
  }
}
