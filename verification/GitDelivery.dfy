/**
 * Delivering to a bare git remote: push the work branch, read it back, and land it by moving the
 * base branch forward. Others act on the remote between any two git commands.
 */
module GitDelivery {
  import opened Wrappers
  import opened CommitGraph
  import opened ProviderErrors

  /** A checkout: the branch it is on, its head, and whether something is left uncommitted. */
  class Worktree {
    var branch: string
    var head: Commit
    var dirty: bool

    constructor (branch: string, head: Commit, dirty: bool)
      ensures this.branch == branch && this.head == head && this.dirty == dirty
    {
      this.branch, this.head, this.dirty := branch, head, dirty;
    }
  }

  datatype Pushed = Pushed(created: bool, branch: string, head: Commit)

  datatype BranchState = Open | Closed | Landed

  datatype BranchStatus = BranchStatus(state: BranchState, mergeable: bool, head: Option<Commit>)

  /** What the commit boundary asks of a worktree before anything is pushed. */
  ghost predicate Deliverable(g: Graph, w: Worktree, branch: string, frozen: Commit)
    requires WellFormed(g) && w.head < |g|
    reads w
  {
    !w.dirty && w.branch == branch && w.head != frozen && Ancestor(g, frozen, w.head)
  }

  class GitDeliveryProvider {
    const remote: Remote

    constructor (remote: Remote)
      ensures this.remote == remote
    {
      this.remote := remote;
    }

    /** The remote may not be reached, and by the time it answers others have acted. */
    method RemoteHead(branch: string) returns (r: Result<Option<Commit>, ErrorKind>)
      requires remote.Valid()
      modifies remote
      ensures remote.Valid() && remote.Kept()
      ensures forall i :: |old(remote.moves)| <= i < |remote.moves| ==> remote.moves[i].mover == Others
      ensures r == Ok(HeadOf(remote.refs, branch)) || r == Err(Transport)
    {
      remote.Interfere();
      var reached: bool := Anything();
      return if reached then Ok(HeadOf(remote.refs, branch)) else Err(Transport);
    }

    /** Push, and believe only what the remote says when it is asked again. */
    method PushAndReadBack(branch: string, to: Commit, onRefusal: ErrorKind) returns (r: Result<(), ErrorKind>)
      requires remote.Valid() && to < |remote.graph|
      modifies remote
      ensures remote.Valid() && remote.Kept() && remote.OnlyMoved(branch, to)
      ensures r.Ok? ==> branch in remote.refs && remote.refs[branch] == to
      ensures r.Ok? ==> Move(branch, to, Delivering(to)) in remote.moves[|old(remote.moves)|..]
      ensures r.Err? ==> r.error == onRefusal || r.error == Transport
    {
      var done := remote.Push(branch, to);
      if !done {
        return Err(onRefusal);
      }
      ghost var mine := |remote.moves| - 1;
      var after := RemoteHead(branch);
      assert remote.moves[|old(remote.moves)|..][mine - |old(remote.moves)|] == Move(branch, to, Delivering(to));
      if after != Ok(Some(to)) {
        return Err(Transport);
      }
      return Ok(());
    }

    /**
     * Push the committed work. A delivery that succeeds pushed a clean head beyond the frozen
     * base that descends from it, and read exactly that head back; a worktree that is not
     * deliverable is refused before the remote is touched.
     */
    method Deliver(w: Worktree, branch: string, frozen: Commit) returns (r: Result<Pushed, ErrorKind>)
      requires remote.Valid() && w.head < |remote.graph|
      modifies remote
      ensures remote.Valid() && remote.Advanced() && remote.OnlyMoved(branch, w.head)
      ensures r.Ok? ==> r.value.branch == branch && r.value.head == w.head
      ensures r.Ok? ==> branch in remote.refs && remote.refs[branch] == w.head
      ensures r.Ok? ==> Move(branch, w.head, Delivering(w.head)) in remote.moves[|old(remote.moves)|..]
      ensures r == Err(Precondition) <==> !old(Deliverable(remote.graph, w, branch, frozen))
      ensures r == Err(Precondition) ==> remote.refs == old(remote.refs) && remote.moves == old(remote.moves)
    {
      if w.dirty || w.branch != branch || w.head == frozen || !Ancestor(remote.graph, frozen, w.head) {
        remote.KeptIsAdvanced();
        return Err(Precondition);
      }
      var before := RemoteHead(branch);
      if before.Err? {
        remote.KeptIsAdvanced();
        return Err(Transport);
      }
      var landed := PushAndReadBack(branch, w.head, Transport);
      remote.KeptIsAdvanced();
      if landed.Err? {
        return Err(Transport);
      }
      return Ok(Pushed(before.value != Some(w.head), branch, w.head));
    }

    /**
     * Land exactly `expected`: whatever others do in between, the only commit this call ever
     * moves the base to is the one it was asked for, and success means this call moved it and
     * read it back there.
     */
    method Merge(branch: string, expected: Commit, how: Option<MergeMethod>) returns (r: Result<Commit, ErrorKind>)
      requires remote.Valid()
      modifies remote
      ensures remote.Valid() && remote.Advanced() && remote.OnlyMoved(remote.base, expected)
      ensures r.Ok? ==> r.value == expected && remote.refs[remote.base] == expected
      ensures r.Ok? ==> Move(remote.base, expected, Delivering(expected)) in remote.moves[|old(remote.moves)|..]
      ensures (how.Some? && how.value != MergeCommit) <==> r == Err(Unsupported)
      ensures r == Err(Unsupported) ==> remote.refs == old(remote.refs)
    {
      if how.Some? && how.value != MergeCommit {
        remote.KeptIsAdvanced();
        return Err(Unsupported);
      }
      var head := RemoteHead(branch);
      if head != Ok(Some(expected)) {
        remote.KeptIsAdvanced();
        return Err(if head.Err? then Transport else Precondition);
      }
      var landed := PushAndReadBack(remote.base, expected, Precondition);
      remote.KeptIsAdvanced();
      return if landed.Ok? then Ok(expected) else Err(landed.error);
    }

    /** Read from the refs, so that asking moves nothing. */
    method Status(branch: string) returns (status: BranchStatus)
      requires remote.Valid()
      ensures status.head == HeadOf(remote.refs, branch)
      ensures status.state == Closed <==> branch !in remote.refs
      ensures status.state == Landed <==>
        branch in remote.refs && Ancestor(remote.graph, remote.refs[branch], remote.refs[remote.base])
      ensures status.mergeable <==>
        && branch in remote.refs && remote.refs[branch] != remote.refs[remote.base]
        && Ancestor(remote.graph, remote.refs[remote.base], remote.refs[branch])
    {
      if branch !in remote.refs {
        return BranchStatus(Closed, false, None);
      }
      var head, tip := remote.refs[branch], remote.refs[remote.base];
      if Ancestor(remote.graph, head, tip) {
        if Ancestor(remote.graph, tip, head) {
          AncestorAntisymmetric(remote.graph, head, tip);
        }
        return BranchStatus(Landed, false, Some(head));
      }
      assert head != tip;
      return BranchStatus(Open, Ancestor(remote.graph, tip, head), Some(head));
    }
  }

  function HeadOf(refs: map<string, Commit>, branch: string): Option<Commit> {
    if branch in refs then Some(refs[branch]) else None
  }

  /** The plain push that lands the branch would be accepted, and would move the base. */
  ghost predicate PushWouldLand(g: Graph, refs: map<string, Commit>, base: string, branch: string)
    requires WellFormed(g) && forall b :: b in refs ==> refs[b] < |g|
  {
    && branch in refs && base in refs
    && Ancestor(g, refs[base], refs[branch]) && refs[base := refs[branch]] != refs
  }

  /** A status of the branch: where it is, whether its work is in the base, whether it could be. */
  ghost predicate Reports(g: Graph, refs: map<string, Commit>, base: string, branch: string, status: BranchStatus)
    requires WellFormed(g) && base in refs && forall b :: b in refs ==> refs[b] < |g|
  {
    && status.head == HeadOf(refs, branch)
    && (status.state == Closed <==> branch !in refs)
    && (status.state == Landed <==> branch in refs && Ancestor(g, refs[branch], refs[base]))
    && (status.mergeable <==>
          branch in refs && refs[branch] != refs[base] && Ancestor(g, refs[base], refs[branch]))
  }

  /**
   * What the status promises about a merge made right away: it answers mergeable exactly when
   * the plain push that lands the branch would be accepted and would move the base, and of an
   * open branch it withholds that exactly when the two have diverged.
   */
  lemma StatusPredictsThePush(
    g: Graph, refs: map<string, Commit>, base: string, branch: string, status: BranchStatus)
    requires WellFormed(g) && base in refs && forall b :: b in refs ==> refs[b] < |g|
    requires Reports(g, refs, base, branch, status)
    ensures status.mergeable <==> PushWouldLand(g, refs, base, branch)
    ensures status.mergeable ==> status.state == Open
    ensures status.state == Open && !status.mergeable <==>
      && branch in refs
      && !Ancestor(g, refs[base], refs[branch]) && !Ancestor(g, refs[branch], refs[base])
  {
    if branch in refs {
      assert refs[base := refs[branch]][base] == refs[branch];
      assert refs[branch] == refs[base] ==> refs[base := refs[branch]] == refs;
      if Ancestor(g, refs[branch], refs[base]) && Ancestor(g, refs[base], refs[branch]) {
        AncestorAntisymmetric(g, refs[branch], refs[base]);
      }
    }
  }

  /** Work that has landed is never lost again, whoever acts on the remote. */
  twostate lemma LandedIsNeverLost(remote: Remote, head: Commit)
    requires old(remote.Valid()) && remote.Valid() && remote.Kept()
    requires old(Ancestor(remote.graph, head, remote.refs[remote.base]))
    ensures Ancestor(remote.graph, head, remote.refs[remote.base])
  {
    remote.KeptIsAdvanced();
    AncestorStable(old(remote.graph), remote.graph, head, old(remote.refs)[remote.base]);
    AncestorTransitive(remote.graph, head, old(remote.refs)[remote.base], remote.refs[remote.base]);
  }
}
