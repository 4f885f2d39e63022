/**
 * Delivering through GitLab: absorb a base that went on, push plainly, and let the host merge
 * exactly the reviewed head. Others act on the host between any two calls.
 */
module GitLabDelivery {
  import opened Wrappers
  import opened CommitGraph
  import opened ProviderErrors
  import opened GitDelivery
  import opened Text

  /** A status that is not known to mean yes or no is neither. */
  function Reading(status: Option<string>): Option<bool> {
    if status.None? then None
    else
      var value := Trim(status.value);
      if value == "mergeable" || value == "can_be_merged" then Some(true)
      else if value == "conflict" || value == "not_mergeable" || value == "cannot_be_merged"
              || value == "cannot_be_merged_recheck" then Some(false)
      else None
  }

  /** What the host says of a merge request; `statuses` are its three status fields, newest first. */
  datatype View = View(state: Option<string>, sha: Option<Commit>, statuses: seq<Option<string>>, conflicts: bool)

  /** The status that decides is the first one with a reading. */
  ghost predicate DecidedBy(statuses: seq<Option<string>>, i: int) {
    0 <= i < |statuses| && Reading(statuses[i]).Some? && forall j :: 0 <= j < i ==> Reading(statuses[j]).None?
  }

  /** An unknown is not a yes: without a deciding status the answer is a conflict or unknown. */
  method MergeableFrom(view: View) returns (mergeable: Option<bool>)
    ensures
      || (exists i :: DecidedBy(view.statuses, i) && mergeable == Reading(view.statuses[i]))
      || (mergeable == (if view.conflicts then Some(false) else None)
          && forall i :: 0 <= i < |view.statuses| ==> Reading(view.statuses[i]).None?)
  {
    for i := 0 to |view.statuses|
      invariant forall j :: 0 <= j < i ==> Reading(view.statuses[j]).None?
    {
      var reading := Reading(view.statuses[i]);
      if reading.Some? {
        assert DecidedBy(view.statuses, i);
        return reading;
      }
    }
    return if view.conflicts then Some(false) else None;
  }

  /** A state that is not known is an error, not a guess. */
  function RequestStateOf(state: Option<string>): Result<BranchState, ErrorKind> {
    match state
    case Some(s) =>
      if s == "opened" || s == "locked" then Ok(Open)
      else if s == "closed" then Ok(Closed)
      else if s == "merged" then Ok(Landed)
      else Err(Precondition)
    case None => Err(Precondition)
  }

  /** How the adapter reads the reply to its merge call. Only three statuses are refusals to it. */
  function ReadReply(reply: MergeReply): Result<(), ErrorKind> {
    match reply
    case Unreached => Err(Transport)
    case Answer(status, body) =>
      if status == 405 || status == 406 || status == 409 then Err(Precondition)
      else match body
        case NotJson => Err(Transport)
        case Json(state) =>
          if state.Some? && state != Some("merged") then Err(Precondition) else Ok(())
  }

  /**
   * When a reported merge can be relied on. Of the replies that the adapter reports as a merge,
   * those that no host gives without having merged are exactly the 2xx that name the state.
   */
  lemma ReportIsReliableExactlyWhen(reply: MergeReply)
    requires ReadReply(reply).Ok?
    ensures (forall landed :: Possible(reply, landed) ==> landed) <==>
      reply.Success() && reply.body == Json(Some("merged"))
  {
    assert Possible(reply, false) <==> !(reply.Success() && reply.body == Json(Some("merged")));
  }

  /** Not every report is reliable: a server error with a JSON body is read as a merge. */
  lemma ServerErrorReadsAsMerged(message: MergeReply)
    requires message == Answer(500, Json(None))
    ensures ReadReply(message) == Ok(()) && Possible(message, false) && !Possible(message, true)
  {
  }

  lemma MoveIsNew(moves: seq<Move>, n: nat)
    requires n < |moves|
    ensures moves[|moves| - 1] in moves[n..]
  {
    assert moves[n..][|moves| - 1 - n] == moves[|moves| - 1];
  }

  /** `b` descends from `a` and `c` from `b`. */
  ghost predicate Between(g: Graph, a: Commit, b: Commit, c: Commit)
    requires WellFormed(g) && c < |g|
  {
    b < |g| && Ancestor(g, a, b) && Ancestor(g, b, c)
  }

  lemma BetweenStable(g: Graph, g': Graph, a: Commit, b: Commit, c: Commit)
    requires WellFormed(g) && WellFormed(g') && g <= g' && c < |g| && Between(g, a, b, c)
    ensures Between(g', a, b, c) && Ancestor(g', a, c)
  {
    AncestorStable(g, g', a, b);
    AncestorStable(g, g', b, c);
    AncestorTransitive(g', a, b, c);
  }

  class GitLabDeliveryProvider {
    const remote: Remote

    constructor (remote: Remote)
      ensures this.remote == remote
    {
      this.remote := remote;
    }

    /** Fetch the base; by the time it answers others have acted. */
    method Fetch() returns (r: Result<Commit, ErrorKind>)
      requires remote.Valid()
      modifies remote
      ensures remote.Valid() && remote.Advanced()
      ensures forall i :: |old(remote.moves)| <= i < |remote.moves| ==> remote.moves[i].mover == Others
      ensures r == Ok(remote.refs[remote.base]) || r == Err(Transport)
    {
      remote.Interfere();
      remote.KeptIsAdvanced();
      var reached: bool := Anything();
      return if reached then Ok(remote.refs[remote.base]) else Err(Transport);
    }

    /**
     * Merge the fetched base into the worktree if it is not in there yet. Nothing is rewritten:
     * the head either stays, moves to the base that already contains it, or becomes a merge of
     * the two; a conflict leaves the worktree as it was.
     */
    method Absorb(w: Worktree, fetched: Commit) returns (r: Result<(), ErrorKind>)
      requires remote.Valid() && w.head < |remote.graph| && fetched < |remote.graph| && !w.dirty
      modifies remote`graph, w`head, w`dirty
      ensures remote.Valid() && remote.Kept() && w.head < |remote.graph|
      ensures r.Ok? ==> !w.dirty
      ensures r.Ok? ==> Ancestor(remote.graph, old(w.head), w.head) && Ancestor(remote.graph, fetched, w.head)
      ensures old(Ancestor(remote.graph, fetched, w.head)) ==> r.Ok? && w.head == old(w.head)
      ensures w.head == old(w.head) || w.head == fetched || remote.graph[w.head] == [old(w.head), fetched]
      ensures r.Err? ==> w.dirty || (w.head == old(w.head) && remote.graph == old(remote.graph))
      ensures r == Ok(()) || r == Err(Precondition)
    {
      if Ancestor(remote.graph, fetched, w.head) {
        return Ok(());
      }
      var conflict: bool := Anything();
      if conflict {
        return Err(Precondition);
      }
      if Ancestor(remote.graph, w.head, fetched) {
        w.head := fetched;
      } else {
        w.head := remote.Commit([w.head, fetched]);
      }
      w.dirty := Anything();
      return if w.dirty then Err(Precondition) else Ok(());
    }

    /** Fetch the base and absorb it; `seen` is its position that was fetched. */
    method FetchAndAbsorb(w: Worktree) returns (r: Result<(), ErrorKind>, ghost seen: Commit)
      requires remote.Valid() && w.head < |remote.graph| && !w.dirty
      modifies remote, w`head, w`dirty
      ensures remote.Valid() && remote.Kept() && w.head < |remote.graph|
      ensures forall i :: |old(remote.moves)| <= i < |remote.moves| ==> remote.moves[i].mover == Others
      ensures r.Ok? ==>
        && !w.dirty && Ancestor(remote.graph, old(w.head), w.head)
        && Between(remote.graph, old(remote.refs[remote.base]), seen, w.head) && seen == remote.refs[remote.base]
    {
      seen := remote.refs[remote.base];
      var fetched := Fetch();
      if fetched.Err? {
        return Err(Transport), seen;
      }
      seen := fetched.value;
      ghost var g := remote.graph;
      r := Absorb(w, fetched.value);
      if r.Ok? {
        AncestorStable(g, remote.graph, old(remote.refs)[remote.base], fetched.value);
      }
    }

    /** What the boundary asks of the worktree holds, and the base is fetched and absorbed. */
    method Prepare(w: Worktree, branch: string, frozen: Commit)
      returns (r: Result<(), ErrorKind>, ghost seen: Commit)
      requires remote.Valid() && w.head < |remote.graph|
      modifies remote, w`head, w`dirty
      ensures remote.Valid() && remote.Kept() && w.head < |remote.graph|
      ensures forall i :: |old(remote.moves)| <= i < |remote.moves| ==> remote.moves[i].mover == Others
      ensures r.Ok? ==>
        && !w.dirty && w.branch == branch
        && Ancestor(remote.graph, frozen, w.head) && Ancestor(remote.graph, old(w.head), w.head)
        && Between(remote.graph, old(remote.refs[remote.base]), seen, w.head) && seen == remote.refs[remote.base]
      ensures !old(Deliverable(remote.graph, w, branch, frozen)) ==> r == Err(Precondition)
      ensures !old(Deliverable(remote.graph, w, branch, frozen)) ==>
        remote.refs == old(remote.refs) && w.head == old(w.head)
    {
      if w.branch != branch || w.dirty || w.head == frozen || !Ancestor(remote.graph, frozen, w.head) {
        return Err(Precondition), remote.refs[remote.base];
      }
      ghost var g := remote.graph;
      r, seen := FetchAndAbsorb(w);
      if r.Ok? {
        AncestorStable(g, remote.graph, frozen, old(w.head));
        AncestorTransitive(remote.graph, frozen, old(w.head), w.head);
      }
    }

    /**
     * Deliver the committed work. The pushed head contains the frozen base, the base as it was
     * when it was fetched, and every commit of the agent; only the work branch was moved, and
     * only to that head.
     */
    method Deliver(w: Worktree, branch: string, frozen: Commit)
      returns (r: Result<Commit, ErrorKind>, ghost seen: Commit)
      requires remote.Valid() && w.head < |remote.graph|
      modifies remote, w`head, w`dirty
      ensures remote.Valid() && remote.Advanced() && remote.OnlyMoved(branch, w.head) && w.head < |remote.graph|
      ensures r.Ok? ==>
        && r.value == w.head && !w.dirty && w.branch == branch
        && Ancestor(remote.graph, frozen, w.head) && Ancestor(remote.graph, old(w.head), w.head)
        && Ancestor(remote.graph, old(remote.refs[remote.base]), w.head)
      ensures r.Ok? ==>
        && Between(remote.graph, old(remote.refs[remote.base]), seen, w.head)
        && Between(remote.graph, old(remote.refs[remote.base]), seen, remote.refs[remote.base])
      ensures r.Ok? ==> Move(branch, w.head, Delivering(w.head)) in remote.moves[|old(remote.moves)|..]
      ensures !old(Deliverable(remote.graph, w, branch, frozen)) ==>
        r == Err(Precondition) && remote.refs == old(remote.refs)
    {
      var ready;
      ready, seen := Prepare(w, branch, frozen);
      if ready.Err? {
        remote.KeptIsAdvanced();
        return Err(ready.error), seen;
      }
      label Prepared:
      ghost var g := remote.graph;
      var done := remote.Push(branch, w.head);
      remote.KeptIsAdvanced@Prepared();
      remote.KeptIsAdvanced();
      if !done {
        return Err(Precondition), seen;
      }
      MoveIsNew(remote.moves, |old(remote.moves)|);
      AncestorStable(g, remote.graph, frozen, w.head);
      AncestorStable(g, remote.graph, old(w.head), w.head);
      BetweenStable(g, remote.graph, old(remote.refs[remote.base]), seen, w.head);
      return Ok(w.head), seen;
    }

    /** Read the merge request: its head is that of its source branch, the rest the host computes. */
    method ReadRequest(source: string) returns (r: Result<View, ErrorKind>)
      requires remote.Valid()
      modifies remote
      ensures remote.Valid() && remote.Kept()
      ensures forall i :: |old(remote.moves)| <= i < |remote.moves| ==> remote.moves[i].mover == Others
      ensures r.Ok? && r.value.sha.Some? ==> r.value.sha == HeadOf(remote.refs, source)
    {
      remote.Interfere();
      r := Anything();
      if r.Ok? && r.value.sha != HeadOf(remote.refs, source) {
        r := Ok(r.value.(sha := None));
      }
    }

    /** The three gates before the merge call: the reviewed head, an open request, a known yes. */
    method Gates(source: string, expected: Commit) returns (r: Result<(), ErrorKind>)
      requires remote.Valid()
      modifies remote
      ensures remote.Valid() && remote.Kept()
      ensures forall i :: |old(remote.moves)| <= i < |remote.moves| ==> remote.moves[i].mover == Others
      ensures r.Ok? ==> HeadOf(remote.refs, source) == Some(expected)
    {
      var view :- ReadRequest(source);
      if view.sha != Some(expected) {
        return Err(Precondition);
      }
      var state :- RequestStateOf(view.state);
      var mergeable := MergeableFrom(view);
      if state != Open || mergeable != Some(true) {
        return Err(Precondition);
      }
      return Ok(());
    }

    /** The merge call itself, before which others may have acted once more. */
    method CallMerge(source: string, expected: Commit, how: MergeMethod) returns (reply: MergeReply, landed: bool)
      requires remote.Valid()
      modifies remote
      ensures remote.Valid() && remote.Kept() && Possible(reply, landed)
      ensures remote.Landed(landed, expected)
      ensures landed && how != Squash ==> Ancestor(remote.graph, expected, remote.refs[remote.base])
    {
      remote.Interfere();
      reply, landed := remote.MergeRequest(source, expected, how);
    }

    /**
     * Merge the request of `source`. Whatever happens in between, this call never lands another
     * head than `expected`, and unless it was squashed the base now contains it. It is reported
     * as merged exactly when the reply reads so, and then it did land if the host answered 2xx and
     * named the state.
     */
    method Merge(source: string, expected: Commit, how: Option<MergeMethod>)
      returns (r: Result<Commit, ErrorKind>, reply: Option<MergeReply>, landed: bool)
      requires remote.Valid()
      modifies remote
      ensures remote.Valid() && remote.Advanced() && remote.Landed(landed, expected)
      ensures landed && how != Some(Squash) ==> Ancestor(remote.graph, expected, remote.refs[remote.base])
      ensures r.Ok? <==> reply.Some? && ReadReply(reply.value).Ok?
      ensures r.Ok? ==> r.value == expected
      ensures r.Ok? && reply.value.Success() && reply.value.body == Json(Some("merged")) ==> landed
    {
      var gates := Gates(source, expected);
      if gates.Err? {
        remote.KeptIsAdvanced();
        return Err(gates.error), None, false;
      }
      var answer;
      answer, landed := CallMerge(source, expected, if how == Some(Squash) then Squash else MergeCommit);
      remote.KeptIsAdvanced();
      reply := Some(answer);
      var read := ReadReply(answer);
      r := if read.Ok? then Ok(expected) else Err(read.error);
    }
  }
}
