/**
 * The state of a GitHub issue as labels: it is moved by separate requests, any of which may be the
 * last one that is carried out.
 */
module StateLabels {
  import opened Wrappers
  import opened BoardState
  import opened ProviderErrors
  import R = StateRecord
  import Text

  function Suffix(s: State): string {
    match s
    case Ready => "ready"
    case Claimed => "claimed"
    case PrOpen => "pr-open"
    case FixNeeded => "fix-needed"
    case Merged => "merged"
    case Blocked => "blocked"
  }

  function LabelFor(prefix: string, s: State): string {
    prefix + Suffix(s)
  }

  /** How far along the delivery a state is; labels are deleted in this order. */
  function Rank(s: State): nat {
    match s
    case Ready => 0
    case Claimed => 1
    case PrOpen => 2
    case FixNeeded => 3
    case Merged => 4
    case Blocked => 5
  }

  const BY_RANK := [Ready, Claimed, PrOpen, FixNeeded, Merged, Blocked]

  predicate Has(labels: set<string>, prefix: string, s: State) {
    LabelFor(prefix, s) in labels
  }

  /** The state that the labels show; without a state label this is no work item. */
  function StateOf(labels: set<string>, prefix: string): Option<State> {
    Furthest(set s: State | Has(labels, prefix, s))
  }

  lemma StateOfIsFurthest(labels: set<string>, prefix: string, s: State)
    ensures StateOf(labels, prefix) == Some(s) <==>
      Has(labels, prefix, s) && forall t :: Has(labels, prefix, t) ==> Rank(t) <= Rank(s)
  {
    if Has(labels, prefix, s) && forall t :: Has(labels, prefix, t) ==> Rank(t) <= Rank(s) {
      var furthest := StateOf(labels, prefix).value;
      assert Has(labels, prefix, furthest);
      RankInjective(s, furthest);
    }
  }

  lemma RankInjective(s: State, t: State)
    ensures Rank(s) == Rank(t) ==> s == t
  {
  }

  lemma LabelsDiffer(prefix: string, s: State, t: State)
    requires LabelFor(prefix, s) == LabelFor(prefix, t)
    ensures s == t
  {
    Text.Unsplit(prefix, Suffix(s));
    Text.Unsplit(prefix, Suffix(t));
    SuffixesDiffer(s, t);
  }

  lemma SuffixesDiffer(s: State, t: State)
    requires Suffix(s) == Suffix(t)
    ensures s == t
  {
    var a, b := Suffix(s), Suffix(t);
    assert |a| == |b| && a[0] == b[0];
  }

  predicate IsStateLabel(prefix: string, name: string) {
    exists s :: name == LabelFor(prefix, s)
  }

  /** The labels after `to` was added and the first `i` of the others were deleted. */
  ghost predicate Midway(before: set<string>, now: set<string>, prefix: string, to: State, i: nat) {
    && (forall s :: Has(now, prefix, s) <==> s == to || (Has(before, prefix, s) && Rank(s) >= i))
    && (forall name :: !IsStateLabel(prefix, name) ==> (name in now <==> name in before))
  }

  /** At every point of a legal move the issue is seen where it was or where it goes. */
  lemma MidwayIsEither(before: set<string>, now: set<string>, prefix: string, from: State, to: State, i: nat)
    requires StateOf(before, prefix) == Some(from) && CanTransition(from, to) && Midway(before, now, prefix, to, i)
    ensures StateOf(now, prefix) == Some(from) || StateOf(now, prefix) == Some(to)
  {
    StateOfIsFurthest(before, prefix, from);
    var seen := if Rank(from) >= i && Rank(from) > Rank(to) then from else to;
    assert Has(now, prefix, to);
    RankInjective(from, to);
    forall t | Has(now, prefix, t)
      ensures Rank(t) <= Rank(seen)
    {
      if t != to {
        assert Has(before, prefix, t);
      }
    }
    StateOfIsFurthest(now, prefix, seen);
  }

  /**
   * An issue and its record comment, whose text is empty as long as there is none. Unless the host
   * has `answered`, any request may fail before or after it took effect.
   */
  class Issue {
    const id: string
    const prefix: string
    const answered: bool
    var labels: set<string>
    var comment: string
    /** The labels after each request for one, oldest first. */
    ghost var history: seq<set<string>>

    constructor (id: string, prefix: string, answered: bool, labels: set<string>, comment: string)
      ensures this.id == id && this.prefix == prefix && this.answered == answered
      ensures this.labels == labels && this.comment == comment && history == []
    {
      this.id, this.prefix, this.answered, this.labels, this.comment := id, prefix, answered, labels, comment;
      history := [];
    }

    /** A request that reports a failure may have been carried out. */
    method AddLabel(name: string) returns (ok: bool)
      modifies `labels, `history
      ensures answered ==> ok
      ensures labels == old(labels) || labels == old(labels) + {name}
      ensures ok ==> labels == old(labels) + {name}
      ensures history == old(history) + [labels]
    {
      var reached: bool := Anything();
      ok := Anything();
      if reached || answered {
        labels := labels + {name};
      }
      ok := answered || (ok && reached);
      history := history + [labels];
    }

    /** A label that is not there need not be removed. */
    method RemoveLabel(name: string) returns (ok: bool)
      modifies `labels, `history
      ensures answered ==> ok
      ensures labels == old(labels) || labels == old(labels) - {name}
      ensures ok ==> labels == old(labels) - {name}
      ensures history == old(history) + [labels]
    {
      var reached: bool := Anything();
      ok := Anything();
      if reached || answered {
        labels := labels - {name};
      }
      ok := answered || (ok && reached);
      history := history + [labels];
    }

    /** The new state's label is the only one of them left. */
    ghost predicate Shows(to: State)
      reads `labels
    {
      forall s :: Has(labels, prefix, s) <==> s == to
    }

    /**
     * After every request so far, the last included, the issue is seen in the old or in the new
     * state, and no label is touched but those of states.
     */
    ghost predicate OnItsWay(before: set<string>, to: State)
      reads `labels, `history
    {
      && (forall h :: h in history ==> StateOf(h, prefix) == StateOf(before, prefix) || StateOf(h, prefix) == Some(to))
      && (forall name :: !IsStateLabel(prefix, name) ==> (name in labels <==> name in before))
      && labels == if history == [] then before else history[|history| - 1]
    }

    predicate CanMove(to: State)
      reads `labels
    {
      StateOf(labels, prefix).Some? && CanTransition(StateOf(labels, prefix).value, to)
    }

    /**
     * Add the new label, then delete each other one. After every request, the last included, the
     * issue is seen in one of the two states and no other label was touched; when all went well, the
     * new state's label is the only one of them left.
     */
    method MoveLabels(to: State) returns (r: Result<(), ErrorKind>)
      requires history == []
      modifies `labels, `history
      ensures OnItsWay(old(labels), to)
      ensures history == [] <==> !old(CanMove(to))
      ensures r == Err(Precondition) <==> !old(CanMove(to))
      ensures r.Err? ==> r == Err(Precondition) || (r == Err(Transport) && !answered)
      ensures r.Ok? ==> Shows(to)
    {
      var from := StateOf(labels, prefix);
      if from.None? || !CanTransition(from.value, to) {
        return Err(Precondition);
      }
      ghost var before := labels;
      var added := AddLabel(LabelFor(prefix, to));
      AddedIsMidway(before, prefix, to);
      if labels != before {
        MidwayIsEither(before, labels, prefix, from.value, to, 0);
      }
      if !added {
        return Err(Transport);
      }
      for i := 0 to |BY_RANK|
        invariant Midway(before, labels, prefix, to, i)
        invariant history != [] && labels == history[|history| - 1]
        invariant forall h :: h in history ==> StateOf(h, prefix) == from || StateOf(h, prefix) == Some(to)
      {
        var s := BY_RANK[i];
        DeletedIsMidway(before, labels, prefix, to, i);
        if s != to {
          ghost var now := labels;
          var deleted := RemoveLabel(LabelFor(prefix, s));
          MidwayIsEither(before, now - {LabelFor(prefix, s)}, prefix, from.value, to, i + 1);
          if !deleted {
            return Err(Transport);
          }
        }
      }
      forall s
        ensures Has(labels, prefix, s) <==> s == to
      {
        assert Rank(s) < |BY_RANK|;
      }
      return Ok(());
    }

    /** A comment that holds a record and cannot be read is an error. */
    method ReadRecord() returns (r: Result<Option<R.BoardRecord>, ErrorKind>)
      ensures r.Ok? ==> R.ParseRecord(comment) == Ok(r.value)
      ensures r.Err? ==> (r == Err(Transport) && !answered) || (r == Err(Unclassified) && R.ParseRecord(comment).Err?)
    {
      var reached: bool := Anything();
      if !reached && !answered {
        return Err(Transport);
      }
      var record := R.ParseRecord(comment);
      return if record.Ok? then Ok(record.value) else Err(Unclassified);
    }

    method WriteRecord(record: R.BoardRecord) returns (r: Result<(), ErrorKind>)
      modifies `comment
      ensures comment == old(comment) || comment == R.Block(R.ToJson(record))
      ensures r.Ok? ==> comment == R.Block(R.ToJson(record))
      ensures r.Ok? || (r == Err(Transport) && !answered)
    {
      var reached: bool := Anything();
      var reported: bool := Anything();
      if reached || answered {
        comment := R.Block(R.ToJson(record));
      }
      return if answered || (reached && reported) then Ok(()) else Err(Transport);
    }

    method CarryRecord(runId: string, note: Option<string>, now: string) returns (r: Result<(), ErrorKind>)
      modifies `comment
      ensures r != Err(Precondition)
      ensures r.Ok? ==>
        && R.ParseRecord(old(comment)).Ok?
        && comment == R.Block(R.ToJson(R.MoveRecord(R.ParseRecord(old(comment)).value, id, runId, now, note)))
      ensures r == Err(Unclassified) ==> comment == old(comment) && R.ParseRecord(comment).Err?
      ensures answered ==> (r.Ok? <==> R.ParseRecord(old(comment)).Ok?)
    {
      var existing :- ReadRecord();
      r := WriteRecord(R.MoveRecord(existing, id, runId, now, note));
    }

    /**
     * Move the issue: its labels first, then its record, which is carried forward. After every
     * request the issue is seen in one of the two states. The record is written only once the labels
     * are done; so a move that is in the table, of an issue whose record cannot be read, fails after
     * all its labels were moved.
     */
    method Transition(to: State, runId: string, note: Option<string>, now: string) returns (r: Result<(), ErrorKind>)
      requires history == []
      modifies this
      ensures OnItsWay(old(labels), to)
      ensures history == [] <==> !old(CanMove(to))
      ensures r == Err(Precondition) <==> !old(CanMove(to))
      ensures r.Ok? ==>
        && Shows(to) && R.ParseRecord(old(comment)).Ok?
        && comment == R.Block(R.ToJson(R.MoveRecord(R.ParseRecord(old(comment)).value, id, runId, now, note)))
      ensures comment != old(comment) || r == Err(Unclassified) ==> Shows(to)
      ensures r == Err(Unclassified) ==> comment == old(comment) && R.ParseRecord(comment).Err?
      ensures answered ==> (r.Ok? <==> old(CanMove(to)) && R.ParseRecord(old(comment)).Ok?)
      ensures answered && old(CanMove(to)) ==> Shows(to)
    {
      r := MoveLabels(to);
      if r.Err? {
        return;
      }
      r := CarryRecord(runId, note, now);
    }
  }

  lemma AddedIsMidway(before: set<string>, prefix: string, to: State)
    ensures Midway(before, before + {LabelFor(prefix, to)}, prefix, to, 0)
  {
    forall s | Has(before + {LabelFor(prefix, to)}, prefix, s)
      ensures s == to || Has(before, prefix, s)
    {
      if LabelFor(prefix, s) == LabelFor(prefix, to) {
        LabelsDiffer(prefix, s, to);
      }
    }
  }

  lemma DeletedIsMidway(before: set<string>, now: set<string>, prefix: string, to: State, i: nat)
    requires Midway(before, now, prefix, to, i) && i < |BY_RANK|
    ensures
      var s := BY_RANK[i];
      Midway(before, if s != to then now - {LabelFor(prefix, s)} else now, prefix, to, i + 1)
  {
    var s := BY_RANK[i];
    var next := if s != to then now - {LabelFor(prefix, s)} else now;
    assert Rank(s) == i;
    forall t
      ensures Has(next, prefix, t) <==> t == to || (Has(before, prefix, t) && Rank(t) >= i + 1)
    {
      RankInjective(s, t);
      if LabelFor(prefix, s) == LabelFor(prefix, t) {
        LabelsDiffer(prefix, s, t);
      }
    }
  }
}
