/**
 * A commit graph and a remote that holds branches on it.
 *
 * Commits are numbered in the order they were made, so a commit's parents are earlier. The
 * remote accepts plain pushes only: an existing branch moves to a descendant or not at all.
 */
module CommitGraph {
  import opened Wrappers

  type Commit = nat
  type Graph = seq<seq<Commit>>

  ghost predicate WellFormed(g: Graph) {
    forall c :: 0 <= c < |g| ==> forall p :: p in g[c] ==> p < c
  }

  predicate Ancestor(g: Graph, a: Commit, d: Commit)
    requires WellFormed(g) && d < |g|
    decreases d
  {
    a == d || exists p :: p in g[d] && Ancestor(g, a, p)
  }

  lemma {:induction false} AncestorIsEarlier(g: Graph, a: Commit, d: Commit)
    requires WellFormed(g) && d < |g| && Ancestor(g, a, d)
    ensures a <= d
    decreases d
  {
    if a != d {
      var p :| p in g[d] && Ancestor(g, a, p);
      AncestorIsEarlier(g, a, p);
    }
  }

  lemma {:induction false} AncestorTransitive(g: Graph, a: Commit, b: Commit, c: Commit)
    requires WellFormed(g) && b < |g| && c < |g| && Ancestor(g, a, b) && Ancestor(g, b, c)
    ensures Ancestor(g, a, c)
    decreases c
  {
    if b != c {
      var p :| p in g[c] && Ancestor(g, b, p);
      AncestorTransitive(g, a, b, p);
    }
  }

  /** New commits do not change the ancestry among old ones. */
  lemma {:induction false} AncestorStable(g: Graph, g': Graph, a: Commit, d: Commit)
    requires WellFormed(g) && WellFormed(g') && g <= g' && d < |g|
    ensures Ancestor(g', a, d) <==> Ancestor(g, a, d)
    decreases d
  {
    assert g'[d] == g[d];
    if a != d {
      forall p | p in g[d]
        ensures Ancestor(g', a, p) <==> Ancestor(g, a, p)
      {
        AncestorStable(g, g', a, p);
      }
    }
  }

  /** Two commits that descend from each other are one commit. */
  lemma AncestorAntisymmetric(g: Graph, a: Commit, b: Commit)
    requires WellFormed(g) && a < |g| && b < |g| && Ancestor(g, a, b) && Ancestor(g, b, a)
    ensures a == b
  {
    AncestorIsEarlier(g, a, b);
    AncestorIsEarlier(g, b, a);
  }

  /** Who moved a branch: somebody else, or a delivery that was to land `head`. */
  datatype Mover = Others | Delivering(head: Commit)

  datatype Move = Move(branch: string, to: Commit, mover: Mover)

  /** What a body says about the state of a merge request; a JSON body need not name one. */
  datatype Body = NotJson | Json(state: Option<string>)

  datatype MergeReply = Unreached | Answer(status: int, body: Body) {
    predicate Success() {
      Answer? && 200 <= status < 300
    }
  }

  /**
   * Which replies a host may give to a merge call that landed, or did not: only a 2xx says
   * anything about the merge, and a state it names is the true one. A 2xx may also mean that the
   * merge was queued, and an answer can get lost either way.
   */
  predicate Possible(reply: MergeReply, landed: bool) {
    match reply
    case Unreached => true
    case Answer(_, NotJson) => landed ==> reply.Success()
    case Answer(_, Json(state)) =>
      if landed then reply.Success() && (state == None || state == Some("merged"))
      else reply.Success() ==> state != Some("merged")
  }

  datatype MergeMethod = MergeCommit | Squash | Rebase

  class Remote {
    const base: string
    var graph: Graph
    var refs: map<string, Commit>
    /** Every move of a branch, oldest first. */
    ghost var moves: seq<Move>

    ghost predicate Valid()
      reads this
    {
      && WellFormed(graph) && base in refs
      && (forall b :: b in refs ==> refs[b] < |graph|)
      && (forall i :: 0 <= i < |moves| ==> moves[i].to < |graph|)
      && (forall i :: 0 <= i < |moves| && moves[i].branch == base ==> Ancestor(graph, moves[i].to, refs[base]))
      && (forall i, j :: 0 <= i < j < |moves| && moves[i].branch == moves[j].branch == base ==>
            Ancestor(graph, moves[i].to, moves[j].to))
      && (exists i :: 0 <= i < |moves| && moves[i].branch == base && moves[i].to == refs[base])
    }

    /** Nothing that was recorded is lost. */
    twostate predicate Kept()
      reads this
    {
      old(graph) <= graph && old(moves) <= moves
    }

    /** The base branch went forward, and nothing that was recorded is lost. */
    twostate predicate Advanced()
      requires old(Valid()) && Valid()
      reads this
    {
      Kept() && Ancestor(graph, old(refs)[base], refs[base])
    }

    /** As every position of the base is on record, keeping the record is going forward. */
    twostate lemma KeptIsAdvanced()
      requires old(Valid()) && Valid() && Kept()
      ensures Advanced()
    {
      ghost var last :|
        0 <= last < |old(moves)| && old(moves)[last].branch == base && old(moves)[last].to == old(refs)[base];
      assert moves[last] == old(moves)[last];
    }

    /** Of the moves made since, those that are not by others all put `branch` on `to`. */
    twostate predicate OnlyMoved(branch: string, to: Commit)
      reads this
    {
      && old(moves) <= moves
      && (forall i :: |old(moves)| <= i < |moves| && moves[i].mover != Others ==>
           moves[i] == Move(branch, to, Delivering(to)))
    }

    /** The only move that is not by others, if it was made, is the last one: the base, to land `sha`. */
    twostate predicate Landed(landed: bool, sha: Commit)
      reads this
    {
      && old(moves) <= moves
      && (landed ==>
            && |old(moves)| < |moves|
            && moves[|moves| - 1].mover == Delivering(sha) && moves[|moves| - 1].branch == base)
      && (landed ==> base in refs && moves[|moves| - 1].to == refs[base])
      && (forall i :: |old(moves)| <= i < |moves| && moves[i].mover != Others ==> landed && i == |moves| - 1)
    }

    constructor (base: string, graph: Graph, refs: map<string, Commit>)
      requires WellFormed(graph) && base in refs && forall b :: b in refs ==> refs[b] < |graph|
      ensures Valid() && this.base == base && this.graph == graph && this.refs == refs
      ensures moves == [Move(base, refs[base], Others)]
    {
      this.base, this.graph, this.refs, moves := base, graph, refs, [Move(base, refs[base], Others)];
      new;
      assert moves[0] == Move(base, refs[base], Others);
    }

    /** Record a commit; no branch moves. */
    method Commit(parents: seq<Commit>) returns (c: Commit)
      requires Valid() && forall p :: p in parents ==> p < |graph|
      modifies `graph
      ensures Valid() && Kept() && graph == old(graph) + [parents] && c == |old(graph)|
      ensures forall p :: p in parents ==> Ancestor(graph, p, c)
    {
      c := |graph|;
      graph := graph + [parents];
      ghost var g := old(graph);
      forall i | 0 <= i < |moves| && moves[i].branch == base
        ensures Ancestor(graph, moves[i].to, refs[base])
      {
        AncestorStable(g, graph, moves[i].to, refs[base]);
      }
      forall i, j | 0 <= i < j < |moves| && moves[i].branch == moves[j].branch == base
        ensures Ancestor(graph, moves[i].to, moves[j].to)
      {
        AncestorStable(g, graph, moves[i].to, moves[j].to);
      }
      AncestorStable(g, graph, refs[base], refs[base]);
      forall p | p in parents
        ensures Ancestor(graph, p, c)
      {
        assert p in graph[c] && Ancestor(graph, p, p);
      }
    }

    /** A plain push: refused unless the branch is new or moves forward. */
    method PlainPush(branch: string, to: Commit, ghost mover: Mover) returns (accepted: bool)
      requires Valid() && to < |graph|
      modifies `refs, `moves
      ensures Valid() && Kept()
      ensures accepted <==> branch !in old(refs) || Ancestor(graph, old(refs)[branch], to)
      ensures refs == if accepted then old(refs)[branch := to] else old(refs)
      ensures moves == if accepted then old(moves) + [Move(branch, to, mover)] else old(moves)
    {
      accepted := branch !in refs || Ancestor(graph, refs[branch], to);
      if accepted {
        ghost var tip := refs[base];
        refs := refs[branch := to];
        ghost var last :| 0 <= last < |moves| && moves[last].branch == base && moves[last].to == tip;
        moves := moves + [Move(branch, to, mover)];
        assert moves[last] == old(moves)[last] && moves[|moves| - 1].to == to;
        if branch == base {
          forall i | 0 <= i < |moves| && moves[i].branch == base
            ensures Ancestor(graph, moves[i].to, refs[base])
          {
            if i < |moves| - 1 {
              AncestorTransitive(graph, moves[i].to, tip, to);
            }
          }
        }
      }
    }

    /** Branches other than the base may be removed. */
    method Delete(branch: string)
      requires Valid() && branch != base
      modifies `refs
      ensures Valid() && Kept() && refs == old(refs) - {branch}
    {
      refs := refs - {branch};
    }

    /** Whatever others did in the meantime: any commits, plain pushes and deletions, in any order. */
    method Interfere()
      requires Valid()
      modifies this
      ensures Valid() && Kept()
      ensures forall i :: |old(moves)| <= i < |moves| ==> moves[i].mover == Others
    {
      var steps: nat := Anything();
      while steps > 0
        invariant Valid() && Kept()
        invariant forall i :: |old(moves)| <= i < |moves| ==> moves[i].mover == Others
      {
        OneStep();
        steps := steps - 1;
      }
    }

    method OneStep()
      requires Valid()
      modifies this
      ensures Valid() && Kept()
      ensures forall i :: |old(moves)| <= i < |moves| ==> moves[i].mover == Others
    {
      var what: int := Anything();
      var branch: string := Anything();
      var to: Commit := Anything();
      if what == 0 {
        var other: Commit := Anything();
        if to < |graph| && other < |graph| {
          var _ := Commit([to, other]);
        }
      } else if what == 1 {
        if to < |graph| {
          var _ := PlainPush(branch, to, Others);
        }
      } else if branch != base {
        Delete(branch);
      }
    }

    /**
     * A push over the network, before which others may have acted. One that is reported as failed
     * may still have landed; one that is reported as done did.
     */
    method Push(branch: string, to: Commit) returns (done: bool)
      requires Valid() && to < |graph|
      modifies this
      ensures Valid() && Kept() && OnlyMoved(branch, to)
      ensures done ==> |old(moves)| < |moves| && moves[|moves| - 1] == Move(branch, to, Delivering(to))
    {
      Interfere();
      var reached: bool := Anything();
      if !reached {
        return false;
      }
      var accepted := PlainPush(branch, to, Delivering(to));
      var reported: bool := Anything();
      return accepted && reported;
    }

    /**
     * The forge's own merge of `source` into the base, guarded by the head it is asked for. A
     * squash does not keep that head.
     */
    method MergeRequest(source: string, sha: Commit, how: MergeMethod) returns (reply: MergeReply, landed: bool)
      requires Valid()
      modifies this
      ensures Valid() && Kept() && Possible(reply, landed)
      ensures landed ==> source in old(refs) && old(refs)[source] == sha
      ensures landed ==> moves == old(moves) + [Move(base, refs[base], Delivering(sha))]
      ensures landed && how != Squash ==> Ancestor(graph, sha, refs[base])
      ensures !landed ==> moves == old(moves) && graph == old(graph) && refs == old(refs)
    {
      var willing: bool := Anything();
      landed := willing && source in refs && refs[source] == sha;
      if landed {
        Integrate(sha, how);
      }
      reply := Anything();
      if !Possible(reply, landed) {
        reply := Unreached;
      }
    }

    method Integrate(sha: Commit, how: MergeMethod)
      requires Valid() && sha < |graph|
      modifies this
      ensures Valid() && Kept()
      ensures moves == old(moves) + [Move(base, refs[base], Delivering(sha))]
      ensures how != Squash ==> Ancestor(graph, sha, refs[base])
    {
      var to := Commit(if how == Squash then [refs[base]] else [refs[base], sha]);
      var _ := PlainPush(base, to, Delivering(sha));
      AncestorStable(old(graph), graph, old(refs)[base], old(refs)[base]);
    }
  }
}
