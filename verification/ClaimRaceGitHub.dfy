/**
 * Claiming on GitHub: seven requests against a label set and the comments of an issue.
 *
 * All runs act as one account and look for one record comment to edit, so that the last writer
 * wins; a run that finds none adds one. The claim first adds the `claimed` label and then deletes
 * the `ready` one; that delete is the one request here that fails when somebody else made it first.
 */
module ClaimRaceGitHub {
  import opened Wrappers
  import opened BoardState

  type Run = string

  /** `own`: written by the account of the runs. A comment that is no trusted record is chatter. */
  datatype Comment = Record(run: Run, stamp: int, own: bool) | Chatter

  /** One page of comments is all a read sees; comments are listed oldest first. */
  const PAGE_SIZE := 100

  function Visible(comments: seq<Comment>): seq<Comment> {
    if |comments| <= PAGE_SIZE then comments else comments[..PAGE_SIZE]
  }

  /** The newest record; among equal stamps the later comment. */
  function Newest(comments: seq<Comment>): (r: Option<Comment>)
    ensures r.Some? ==> r.value.Record?
  {
    if comments == [] then None
    else
      var last, before := comments[|comments| - 1], Newest(comments[..|comments| - 1]);
      if last.Chatter? then before
      else if before.Some? && last.stamp < before.value.stamp then before
      else Some(last)
  }

  /** The run that the newest record in sight names. */
  function Holder(comments: seq<Comment>): Option<Run> {
    var newest := Newest(Visible(comments));
    if newest.Some? then Some(newest.value.run) else None
  }

  /** The first record in sight that the account itself has written. */
  function Own(comments: seq<Comment>): (i: Option<nat>)
    ensures i.Some? ==> i.value < |comments|
  {
    if comments == [] then None
    else if comments[0].Record? && comments[0].own then Some(0)
    else
      var rest := Own(comments[1..]);
      if rest.None? then None else Some(rest.value + 1)
  }

  /** Edit the comment that was found, or add one. */
  function Put(comments: seq<Comment>, at: Option<nat>, run: Run, stamp: int): seq<Comment>
    requires at.Some? ==> at.value < |comments|
  {
    if at.Some? then comments[at.value := Record(run, stamp, true)] else comments + [Record(run, stamp, true)]
  }

  datatype Pc =
    Idle | SawState(state: State) | Decided | Added | Labelled | Found(at: Option<nat>) | Written | Done(won: bool)

  /**
   * `quiet`: nobody puts the `ready` label back. The rest is history: when each claim wrote its
   * record and read its verdict, and, in `log`, which run wrote a record at which time.
   */
  datatype Sys = Sys(
    labels: set<State>, comments: seq<Comment>, pcs: map<Run, Pc>, quiet: bool,
    time: nat, wrote: map<Run, nat>, judged: map<Run, nat>, log: map<nat, Run>)

  datatype Action =
    | ReadItem(run: Run)
    | ReadRecord(run: Run)
    | AddClaimed(run: Run)
    | DeleteReady(run: Run)
    | FindComment(run: Run)
    | WriteRecord(run: Run, stamp: int)
    | Confirm(run: Run)
    | Progress(run: Run, stamp: int)
    | Chat
    | Meddle(labels: set<State>)

  predicate IsAt(s: Sys, run: Run, pc: Pc) {
    run in s.pcs && s.pcs[run] == pc
  }

  function Go(s: Sys, run: Run, pc: Pc): Sys {
    s.(pcs := s.pcs[run := pc], time := s.time + 1)
  }

  function Next(s: Sys, a: Action): Option<Sys> {
    match a
    case ReadItem(r) =>
      if !IsAt(s, r, Idle) then None
      else if Furthest(s.labels).None? then Some(Go(s, r, Done(false)))
      else Some(Go(s, r, SawState(Furthest(s.labels).value)))
    case ReadRecord(r) =>
      if r in s.pcs && s.pcs[r].SawState? then
        Some(Go(s, r, if DecideClaim(s.pcs[r].state, Holder(s.comments), r).Accept? then Decided else Done(false)))
      else None
    case AddClaimed(r) =>
      if IsAt(s, r, Decided) then Some(Go(s, r, Added).(labels := s.labels + {Claimed})) else None
    case DeleteReady(r) =>
      // Deleting a label the issue does not carry answers 404, and the claim lets it through.
      if IsAt(s, r, Added) then
        Some(Go(s, r, if Ready in s.labels then Labelled else Done(false)).(labels := s.labels - {Ready}))
      else None
    case FindComment(r) =>
      if IsAt(s, r, Labelled) then Some(Go(s, r, Found(Own(Visible(s.comments))))) else None
    case WriteRecord(r, stamp) =>
      if r in s.pcs && s.pcs[r].Found? && (s.pcs[r].at.Some? ==> s.pcs[r].at.value < |s.comments|) then
        Some(Go(s, r, Written).(comments := Put(s.comments, s.pcs[r].at, r, stamp),
                                wrote := s.wrote[r := s.time], log := s.log[s.time := r]))
      else None
    case Confirm(r) =>
      if IsAt(s, r, Written) then
        Some(Go(s, r, Done(Holder(s.comments) == Some(r))).(judged := s.judged[r := s.time]))
      else None
    case Progress(r, stamp) =>
      // An owner goes on writing its record; its own clock does not run backwards.
      if IsAt(s, r, Done(true)) && (forall c <- s.comments :: c.Record? && c.run == r ==> c.stamp <= stamp) then
        Some(s.(comments := Put(s.comments, Own(Visible(s.comments)), r, stamp),
                log := s.log[s.time := r], time := s.time + 1))
      else None
    case Chat =>
      Some(s.(comments := s.comments + [Chatter], time := s.time + 1))
    case Meddle(labels) =>
      if s.quiet && Ready in labels && Ready !in s.labels then None
      else Some(s.(labels := labels, time := s.time + 1))
  }

  function Exec(s: Sys, actions: seq<Action>): Option<Sys>
    decreases |actions|
  {
    if actions == [] then Some(s)
    else
      match Exec(s, actions[..|actions| - 1])
      case None => None
      case Some(m) => Next(m, actions[|actions| - 1])
  }

  ghost predicate Init(s: Sys) {
    && (forall r :: r in s.pcs ==> s.pcs[r] == Idle)
    && s.wrote == map[] && s.judged == map[] && s.log == map[] && s.time == 0
  }

  ghost predicate IsWinner(s: Sys, r: Run) {
    IsAt(s, r, Done(true))
  }

  // --- The record that counts ------------------------------------------------------------

  /** The record at `k` is the newest: no other is later, and none behind it is as late. */
  ghost predicate NewestAt(comments: seq<Comment>, k: int) {
    && 0 <= k < |comments| && comments[k].Record?
    && forall j :: 0 <= j < |comments| && comments[j].Record? ==>
         comments[j].stamp <= comments[k].stamp && (j > k ==> comments[j].stamp < comments[k].stamp)
  }

  lemma {:induction false} NewestHasIndex(comments: seq<Comment>)
    ensures Newest(comments).Some? ==> exists k :: NewestAt(comments, k) && Newest(comments) == Some(comments[k])
    ensures Newest(comments).None? ==> forall j :: 0 <= j < |comments| ==> comments[j].Chatter?
  {
    if comments != [] {
      var n := |comments| - 1;
      var front := comments[..n];
      NewestHasIndex(front);
      if Newest(comments) == Newest(front) && Newest(front).Some? && !NewestAt(comments, n) {
        var k :| NewestAt(front, k) && Newest(front) == Some(front[k]);
        assert NewestAt(comments, k);
      } else if Newest(comments).Some? {
        assert NewestAt(comments, n);
      }
    }
  }

  lemma NewestIsUnique(comments: seq<Comment>, k: int)
    requires NewestAt(comments, k)
    ensures Newest(comments) == Some(comments[k])
  {
    NewestHasIndex(comments);
    var i :| NewestAt(comments, i) && Newest(comments) == Some(comments[i]);
  }

  /** Whoever holds the newest record keeps it by editing any record with a stamp as late as all its own. */
  lemma HolderEdits(comments: seq<Comment>, i: nat, r: Run, stamp: int)
    requires i < |comments| && Newest(comments).Some? && Newest(comments).value.run == r
    requires forall c :: c in comments && c.Record? && c.run == r ==> c.stamp <= stamp
    ensures Newest(comments[i := Record(r, stamp, true)]).Some?
    ensures Newest(comments[i := Record(r, stamp, true)]).value.run == r
  {
    NewestHasIndex(comments);
    var k :| NewestAt(comments, k) && Newest(comments) == Some(comments[k]);
    var after := comments[i := Record(r, stamp, true)];
    if i < k && stamp == comments[k].stamp {
      NewestIsUnique(after, k);
    } else {
      assert NewestAt(after, i);
      NewestIsUnique(after, i);
    }
  }

  /** A record added with such a stamp, or anything added beyond the page, changes no holder either. */
  lemma HolderAdds(comments: seq<Comment>, r: Run, stamp: int)
    requires Holder(comments) == Some(r)
    requires forall c :: c in comments && c.Record? && c.run == r ==> c.stamp <= stamp
    ensures Holder(comments + [Record(r, stamp, true)]) == Some(r)
  {
    var after := comments + [Record(r, stamp, true)];
    if |comments| < PAGE_SIZE {
      NewestHasIndex(comments);
      var k :| NewestAt(comments, k) && Newest(comments) == Some(comments[k]);
      assert NewestAt(after, |comments|);
      NewestIsUnique(after, |comments|);
    } else {
      assert Visible(after) == Visible(comments);
    }
  }

  lemma ChatterIsIgnored(comments: seq<Comment>)
    ensures Holder(comments + [Chatter]) == Holder(comments)
  {
    if |comments| < PAGE_SIZE {
      assert (comments + [Chatter])[..|comments|] == comments;
    } else {
      assert Visible(comments + [Chatter]) == Visible(comments);
    }
  }

  lemma HolderProgresses(comments: seq<Comment>, r: Run, stamp: int)
    requires Holder(comments) == Some(r)
    requires forall c :: c in comments && c.Record? && c.run == r ==> c.stamp <= stamp
    ensures Holder(Put(comments, Own(Visible(comments)), r, stamp)) == Some(r)
  {
    var i := Own(Visible(comments));
    if i.Some? {
      assert Visible(Put(comments, i, r, stamp)) == Visible(comments)[i.value := Record(r, stamp, true)];
      HolderEdits(Visible(comments), i.value, r, stamp);
    } else {
      HolderAdds(comments, r, stamp);
    }
  }

  // --- The race --------------------------------------------------------------------------

  /** Another run than `a` wrote a record in this time. */
  ghost predicate WroteBetween(log: map<nat, Run>, a: Run, from: nat, to: nat) {
    exists t :: t in log && log[t] != a && from <= t < to
  }

  ghost predicate HistoryInv(s: Sys) {
    && (forall r :: r in s.wrote ==> r in s.pcs && s.wrote[r] < s.time && (s.pcs[r] == Written || s.pcs[r].Done?))
    && (forall r :: r in s.judged ==> r in s.pcs && s.judged[r] < s.time && s.pcs[r].Done?)
    && (forall r :: IsAt(s, r, Written) || IsWinner(s, r) ==> r in s.wrote)
    && (forall r :: IsWinner(s, r) ==> r in s.judged)
    && (forall t :: t in s.log ==> t < s.time && Logged(s, t))
  }

  /** A record is written by a claim, or by a run that has won before. */
  ghost predicate Logged(s: Sys, t: nat)
    requires t in s.log
  {
    var q := s.log[t];
    q in s.wrote && (s.wrote[q] == t || (q in s.judged && s.judged[q] < t))
  }

  /** A winner holds the newest record until another run writes one. */
  ghost predicate WinnersInv(s: Sys)
    requires HistoryInv(s)
  {
    && (forall a :: IsWinner(s, a) ==> Holder(s.comments) == Some(a) || WroteBetween(s.log, a, s.judged[a], s.time))
    && (forall a, b :: IsWinner(s, a) && IsWinner(s, b) && a != b && s.judged[a] <= s.judged[b] ==>
          WroteBetween(s.log, a, s.judged[a], s.judged[b]))
  }

  ghost predicate RaceInv(s: Sys) {
    HistoryInv(s) && WinnersInv(s)
  }

  lemma LongerBetween(log: map<nat, Run>, log': map<nat, Run>, a: Run, from: nat, to: nat, to': nat)
    requires WroteBetween(log, a, from, to) && to <= to'
    requires forall t :: t in log ==> t in log' && log'[t] == log[t]
    ensures WroteBetween(log', a, from, to')
  {
    var t :| t in log && log[t] != a && from <= t < to;
    assert t in log' && log'[t] != a;
  }

  /** Nothing is written and no verdict is read; whoever held the newest record still does. */
  lemma KeptQuietly(s: Sys, s': Sys)
    requires RaceInv(s) && HistoryInv(s')
    requires s'.time == s.time + 1 && s'.log == s.log && s'.judged == s.judged
    requires Holder(s'.comments) == Holder(s.comments)
    requires forall q :: IsWinner(s', q) <==> IsWinner(s, q)
    ensures RaceInv(s')
  {
    forall a | IsWinner(s', a) && Holder(s'.comments) != Some(a)
      ensures WroteBetween(s'.log, a, s'.judged[a], s'.time)
    {
      LongerBetween(s.log, s'.log, a, s.judged[a], s.time, s'.time);
    }
  }

  /** One run goes a step further, and neither writes its record nor reads its verdict. */
  ghost predicate Moves(s: Sys, r: Run, s': Sys) {
    && s'.time == s.time + 1 && s'.wrote == s.wrote && s'.judged == s.judged && s'.log == s.log
    && s'.comments == s.comments && r in s.pcs && r in s'.pcs && s'.pcs == s.pcs[r := s'.pcs[r]]
    && s.pcs[r] != Written && !s.pcs[r].Done? && s'.pcs[r] != Written && s'.pcs[r] != Done(true)
  }

  lemma KeptByMove(s: Sys, r: Run, s': Sys)
    requires RaceInv(s) && Moves(s, r, s')
    ensures RaceInv(s')
  {
    assert forall q :: IsWinner(s', q) <==> IsWinner(s, q);
    assert forall q :: IsAt(s', q, Written) <==> IsAt(s, q, Written);
    assert forall t :: t in s.log ==> Logged(s, t);
    KeptQuietly(s, s');
  }

  /** Chatter and label moves. */
  lemma KeptAside(s: Sys, s': Sys)
    requires RaceInv(s) && Holder(s'.comments) == Holder(s.comments) && s'.pcs == s.pcs
    requires s'.time == s.time + 1 && s'.wrote == s.wrote && s'.judged == s.judged && s'.log == s.log
    ensures RaceInv(s')
  {
    assert forall q :: IsWinner(s', q) <==> IsWinner(s, q);
    assert forall q :: IsAt(s', q, Written) <==> IsAt(s, q, Written);
    assert forall t :: t in s.log ==> Logged(s, t);
    KeptQuietly(s, s');
  }

  /** After `r` wrote a record, every other winner has been written after. */
  lemma KeptByRecord(s: Sys, r: Run, s': Sys)
    requires RaceInv(s) && HistoryInv(s') && s'.time == s.time + 1
    requires s'.log == s.log[s.time := r] && s'.judged == s.judged
    requires IsWinner(s, r) && Holder(s.comments) == Some(r) ==> Holder(s'.comments) == Some(r)
    requires forall q :: IsWinner(s', q) <==> IsWinner(s, q)
    ensures RaceInv(s')
  {
    assert forall t :: t in s.log ==> t < s.time;
    forall a | IsWinner(s', a) && Holder(s'.comments) != Some(a)
      ensures WroteBetween(s'.log, a, s'.judged[a], s'.time)
    {
      if a != r {
        assert s.time in s'.log && s'.log[s.time] != a;
      } else {
        LongerBetween(s.log, s'.log, a, s.judged[a], s.time, s'.time);
      }
    }
    forall a, b | IsWinner(s', a) && IsWinner(s', b) && a != b && s'.judged[a] <= s'.judged[b]
      ensures WroteBetween(s'.log, a, s'.judged[a], s'.judged[b])
    {
      LongerBetween(s.log, s'.log, a, s.judged[a], s.judged[b], s.judged[b]);
    }
  }

  lemma KeptByWrite(s: Sys, r: Run, stamp: int, s': Sys)
    requires RaceInv(s) && Next(s, WriteRecord(r, stamp)) == Some(s')
    ensures RaceInv(s')
  {
    assert forall q :: IsWinner(s', q) <==> IsWinner(s, q);
    assert forall q :: q != r ==> (IsAt(s', q, Written) <==> IsAt(s, q, Written));
    forall t | t in s'.log
      ensures t < s'.time && Logged(s', t)
    {
      if t != s.time {
        assert Logged(s, t);
      }
    }
    KeptByRecord(s, r, s');
  }

  lemma KeptByProgress(s: Sys, r: Run, stamp: int, s': Sys)
    requires RaceInv(s) && Next(s, Progress(r, stamp)) == Some(s')
    ensures RaceInv(s')
  {
    assert IsWinner(s, r);
    assert forall q :: IsWinner(s', q) <==> IsWinner(s, q);
    assert forall q :: IsAt(s', q, Written) <==> IsAt(s, q, Written);
    forall t | t in s'.log
      ensures t < s'.time && Logged(s', t)
    {
      if t != s.time {
        assert Logged(s, t);
      }
    }
    if Holder(s.comments) == Some(r) {
      HolderProgresses(s.comments, r, stamp);
    }
    KeptByRecord(s, r, s');
  }

  lemma KeptByConfirm(s: Sys, r: Run, s': Sys)
    requires RaceInv(s) && Next(s, Confirm(r)) == Some(s')
    ensures RaceInv(s')
  {
    HistoryKeptByConfirm(s, r, s');
    assert forall q :: q != r ==> (IsWinner(s', q) <==> IsWinner(s, q));
    WinnersKeptByVerdict(s, r, s');
  }

  lemma WinnersKeptByVerdict(s: Sys, r: Run, s': Sys)
    requires RaceInv(s) && HistoryInv(s') && !IsWinner(s, r) && (IsWinner(s', r) ==> Holder(s.comments) == Some(r))
    requires forall q :: q != r ==> (IsWinner(s', q) <==> IsWinner(s, q))
    requires s'.time == s.time + 1 && s'.judged == s.judged[r := s.time]
    requires s'.log == s.log && s'.comments == s.comments
    ensures WinnersInv(s')
  {
    forall a | IsWinner(s', a) && Holder(s.comments) != Some(a)
      ensures WroteBetween(s'.log, a, s'.judged[a], s.time) && WroteBetween(s'.log, a, s'.judged[a], s'.time)
    {
      LongerBetween(s.log, s'.log, a, s.judged[a], s.time, s'.time);
    }
  }

  lemma HistoryKeptByConfirm(s: Sys, r: Run, s': Sys)
    requires HistoryInv(s) && Next(s, Confirm(r)) == Some(s')
    ensures HistoryInv(s')
  {
    assert forall q :: q != r ==> (IsWinner(s', q) <==> IsWinner(s, q));
    assert forall q :: q != r ==> (IsAt(s', q, Written) <==> IsAt(s, q, Written));
    forall t | t in s'.log
      ensures t < s'.time && Logged(s', t)
    {
      assert Logged(s, t);
    }
  }

  lemma StepMoves(s: Sys, a: Action, s': Sys)
    requires Next(s, a) == Some(s')
    requires !a.WriteRecord? && !a.Confirm? && !a.Progress? && !a.Chat? && !a.Meddle?
    ensures Moves(s, a.run, s')
  {
  }

  lemma Kept(s: Sys, a: Action, s': Sys)
    requires RaceInv(s) && Next(s, a) == Some(s')
    ensures RaceInv(s')
  {
    match a
    case WriteRecord(r, stamp) => KeptByWrite(s, r, stamp, s');
    case Confirm(r) => KeptByConfirm(s, r, s');
    case Progress(r, stamp) => KeptByProgress(s, r, stamp, s');
    case Chat => KeptByChat(s, s');
    case Meddle(labels) => KeptAside(s, s');
    case _ =>
      StepMoves(s, a, s');
      KeptByMove(s, a.run, s');
  }

  lemma KeptByChat(s: Sys, s': Sys)
    requires RaceInv(s) && Next(s, Chat) == Some(s')
    ensures RaceInv(s')
  {
    ChatterIsIgnored(s.comments);
    KeptAside(s, s');
  }

  lemma {:induction false} Reachable(s0: Sys, actions: seq<Action>, s: Sys)
    requires Init(s0) && Exec(s0, actions) == Some(s)
    ensures RaceInv(s)
    decreases |actions|
  {
    if actions != [] {
      var n := |actions| - 1;
      var m := Exec(s0, actions[..n]).value;
      Reachable(s0, actions[..n], m);
      Kept(m, actions[n], s);
    }
  }

  /**
   * Two claims both win only if, between their verdicts, another run than the first winner wrote a
   * record; with no third run about, that is the claim of the second, written after the first had
   * confirmed.
   */
  lemma BothWinOnlyByLateWrite(s0: Sys, actions: seq<Action>, s: Sys, a: Run, b: Run)
    requires Init(s0) && Exec(s0, actions) == Some(s)
    requires a != b && IsWinner(s, a) && IsWinner(s, b)
    ensures a in s.wrote && b in s.wrote && a in s.judged && b in s.judged
    ensures s.judged[a] <= s.judged[b] ==> WroteBetween(s.log, a, s.judged[a], s.judged[b])
    ensures s.judged[b] <= s.judged[a] ==> WroteBetween(s.log, b, s.judged[b], s.judged[a])
    ensures s.wrote.Keys <= {a, b} ==> s.wrote[b] >= s.judged[a] || s.wrote[a] >= s.judged[b]
  {
    Reachable(s0, actions, s);
    if s.wrote.Keys <= {a, b} {
      if s.judged[a] <= s.judged[b] {
        SecondWroteLate(s, a, b);
      } else {
        SecondWroteLate(s, b, a);
      }
    }
  }

  lemma SecondWroteLate(s: Sys, a: Run, b: Run)
    requires RaceInv(s) && IsWinner(s, a) && IsWinner(s, b) && a != b && s.judged[a] <= s.judged[b]
    requires s.wrote.Keys <= {a, b}
    ensures s.judged[a] <= s.wrote[b] < s.judged[b]
  {
    var t :| t in s.log && s.log[t] != a && s.judged[a] <= t < s.judged[b];
    assert Logged(s, t) && s.log[t] in s.wrote.Keys;
  }

  // --- The delete that decides -----------------------------------------------------------

  predicate PastDelete(pc: Pc) {
    pc == Labelled || pc.Found? || pc == Written || pc == Done(true)
  }

  ghost predicate DeleteInv(s: Sys) {
    && s.quiet
    && (forall r :: r in s.pcs && PastDelete(s.pcs[r]) ==> Ready !in s.labels)
    && (forall a, b :: a in s.pcs && b in s.pcs && PastDelete(s.pcs[a]) && PastDelete(s.pcs[b]) ==> a == b)
  }

  lemma DeleteKept(s: Sys, a: Action, s': Sys)
    requires DeleteInv(s) && Next(s, a) == Some(s')
    ensures DeleteInv(s')
  {
    if a.DeleteReady? && Ready in s.labels {
      assert forall q :: q in s.pcs ==> !PastDelete(s.pcs[q]);
    } else {
      NobodyPasses(s, a, s');
    }
  }

  /** Without a delete that finds `ready`, no claim gets past the delete, and `ready` does not come back. */
  lemma NobodyPasses(s: Sys, a: Action, s': Sys)
    requires s.quiet && Next(s, a) == Some(s') && !(a.DeleteReady? && Ready in s.labels)
    ensures s'.quiet && (Ready in s'.labels ==> Ready in s.labels)
    ensures forall q :: q in s'.pcs && PastDelete(s'.pcs[q]) ==> q in s.pcs && PastDelete(s.pcs[q])
  {
  }

  lemma {:induction false} DeleteReachable(s0: Sys, actions: seq<Action>, s: Sys)
    requires Init(s0) && s0.quiet && Exec(s0, actions) == Some(s)
    ensures DeleteInv(s)
    decreases |actions|
  {
    if actions != [] {
      var n := |actions| - 1;
      var m := Exec(s0, actions[..n]).value;
      DeleteReachable(s0, actions[..n], m);
      DeleteKept(m, actions[n], s);
    }
  }

  /**
   * As long as nobody puts the `ready` label back, whatever else happens to the labels, one claim
   * wins at most, without any lock: only one delete finds the label.
   */
  lemma DeleteAdmitsOneWinner(s0: Sys, actions: seq<Action>, s: Sys, a: Run, b: Run)
    requires Init(s0) && s0.quiet && Exec(s0, actions) == Some(s)
    requires IsWinner(s, a) && IsWinner(s, b)
    ensures a == b
  {
    DeleteReachable(s0, actions, s);
  }

  ghost predicate NoReadyInv(s: Sys) {
    s.quiet && Ready !in s.labels && forall r :: r in s.pcs ==> !PastDelete(s.pcs[r])
  }

  lemma NoReadyKept(s: Sys, a: Action, s': Sys)
    requires NoReadyInv(s) && Next(s, a) == Some(s')
    ensures NoReadyInv(s')
  {
    NobodyPasses(s, a, s');
  }

  lemma {:induction false} NoReadyReachable(s0: Sys, actions: seq<Action>, s: Sys)
    requires Init(s0) && s0.quiet && Ready !in s0.labels && Exec(s0, actions) == Some(s)
    ensures NoReadyInv(s)
    decreases |actions|
  {
    if actions != [] {
      var n := |actions| - 1;
      var m := Exec(s0, actions[..n]).value;
      NoReadyReachable(s0, actions[..n], m);
      NoReadyKept(m, actions[n], s);
    }
  }

  /**
   * The same delete makes the takeover of an in-flight item impossible here: the claim rule
   * accepts it, but without a `ready` label no claim ever succeeds.
   */
  lemma InFlightTakeoverNeverSucceeds(s0: Sys, actions: seq<Action>, s: Sys, r: Run)
    requires Init(s0) && s0.quiet && Exec(s0, actions) == Some(s)
    requires Ready !in s0.labels
    ensures !IsWinner(s, r)
  {
    NoReadyReachable(s0, actions, s);
  }

  /** The claim rule does accept such an item, so the refusal above comes from the delete alone. */
  lemma TakeoverIsDecided(labels: set<State>, other: Run, r: Run)
    requires Furthest(labels) == Some(PrOpen) && other != r
    ensures DecideClaim(PrOpen, Some(other), r) == Accept(Some(other))
    ensures Furthest(labels + {Claimed}) == Some(PrOpen)
  {
  }

  // --- When a claim does succeed ---------------------------------------------------------

  /** The claim rule accepts the item as it stands. */
  predicate Accepted(s: Sys, r: Run) {
    Furthest(s.labels).Some? && DecideClaim(Furthest(s.labels).value, Holder(s.comments), r).Accept?
  }

  lemma Extend(s0: Sys, actions: seq<Action>, m: Sys, a: Action) returns (longer: seq<Action>, s: Sys)
    requires Exec(s0, actions) == Some(m) && Next(m, a).Some?
    ensures longer == actions + [a] && Next(m, a) == Some(s) && Exec(s0, longer) == Some(s)
  {
    longer, s := actions + [a], Next(m, a).value;
    assert longer[..|longer| - 1] == actions;
  }

  /** Only the claim of `r` acts. */
  predicate ByOnly(a: Action, r: Run) {
    match a
    case Chat => false
    case Meddle(_) => false
    case Progress(_, _) => false
    case _ => a.run == r
  }

  /** From `t0` on, only the claim of `r` has acted. */
  ghost predicate GoesOn(t0: seq<Action>, t: seq<Action>, r: Run) {
    t0 <= t && forall i :: |t0| <= i < |t| ==> ByOnly(t[i], r)
  }

  lemma Step(s0: Sys, t0: seq<Action>, t: seq<Action>, m: Sys, a: Action, r: Run)
    returns (longer: seq<Action>, s: Sys)
    requires Exec(s0, t) == Some(m) && Next(m, a).Some? && ByOnly(a, r) && GoesOn(t0, t, r)
    ensures Next(m, a) == Some(s) && Exec(s0, longer) == Some(s) && GoesOn(t0, longer, r)
  {
    longer, s := Extend(s0, t, m, a);
  }

  function LatestStamp(comments: seq<Comment>): int {
    var newest := Newest(comments);
    if newest.Some? then newest.value.stamp else 0
  }

  /** A record later than all in sight, written where the page shows it, holds the item. */
  lemma LateRecordHolds(comments: seq<Comment>, r: Run, stamp: int)
    requires Own(Visible(comments)).Some? || |comments| < PAGE_SIZE
    requires stamp > LatestStamp(Visible(comments))
    ensures Holder(Put(comments, Own(Visible(comments)), r, stamp)) == Some(r)
  {
    var before, after := Visible(comments), Visible(Put(comments, Own(Visible(comments)), r, stamp));
    var i := Own(before).GetOr(|before|);
    NewestHasIndex(before);
    var record := Record(r, stamp, true);
    assert after == if Own(before).Some? then before[i := record] else before + [record];
    assert NewestAt(after, i);
    NewestIsUnique(after, i);
  }

  /** An accepted claim of an item with `ready`, left to itself with a clock that is not behind, wins. */
  lemma ClaimSucceeds(s0: Sys, t0: seq<Action>, m: Sys, r: Run, stamp: int) returns (t: seq<Action>, s: Sys)
    requires Exec(s0, t0) == Some(m) && IsAt(m, r, Idle) && Accepted(m, r) && Ready in m.labels
    requires Own(Visible(m.comments)).Some? || |m.comments| < PAGE_SIZE
    requires stamp > LatestStamp(Visible(m.comments))
    ensures Exec(s0, t) == Some(s) && GoesOn(t0, t, r)
    ensures s.pcs == m.pcs[r := Done(true)] && s.labels == m.labels + {Claimed} - {Ready} && s.quiet == m.quiet
    ensures s.comments == Put(m.comments, Own(Visible(m.comments)), r, stamp)
  {
    t, s := TakeLabels(s0, t0, m, r);
    t, s := TakeRecord(s0, t, s, r, stamp);
  }

  lemma TakeLabels(s0: Sys, t0: seq<Action>, m: Sys, r: Run) returns (t: seq<Action>, s: Sys)
    requires Exec(s0, t0) == Some(m) && IsAt(m, r, Idle) && Accepted(m, r) && Ready in m.labels
    ensures Exec(s0, t) == Some(s) && GoesOn(t0, t, r)
    ensures s.pcs == m.pcs[r := Labelled] && s.labels == m.labels + {Claimed} - {Ready}
    ensures s.quiet == m.quiet && s.comments == m.comments
  {
    t, s := Decide(s0, t0, m, r);
    t, s := Step(s0, t0, t, s, AddClaimed(r), r);
    t, s := Step(s0, t0, t, s, DeleteReady(r), r);
  }

  lemma Decide(s0: Sys, t0: seq<Action>, m: Sys, r: Run) returns (t: seq<Action>, s: Sys)
    requires Exec(s0, t0) == Some(m) && IsAt(m, r, Idle) && Accepted(m, r)
    ensures Exec(s0, t) == Some(s) && GoesOn(t0, t, r)
    ensures s.pcs == m.pcs[r := Decided] && s.labels == m.labels && s.quiet == m.quiet && s.comments == m.comments
  {
    t, s := Step(s0, t0, t0, m, ReadItem(r), r);
    t, s := Step(s0, t0, t, s, ReadRecord(r), r);
  }

  lemma TakeRecord(s0: Sys, t0: seq<Action>, m: Sys, r: Run, stamp: int) returns (t: seq<Action>, s: Sys)
    requires Exec(s0, t0) == Some(m) && IsAt(m, r, Labelled)
    requires Own(Visible(m.comments)).Some? || |m.comments| < PAGE_SIZE
    requires stamp > LatestStamp(Visible(m.comments))
    ensures Exec(s0, t) == Some(s) && GoesOn(t0, t, r)
    ensures s.pcs == m.pcs[r := Done(true)] && s.labels == m.labels && s.quiet == m.quiet
    ensures s.comments == Put(m.comments, Own(Visible(m.comments)), r, stamp)
  {
    t, s := PutRecord(s0, t0, m, r, stamp);
    LateRecordHolds(m.comments, r, stamp);
    t, s := Step(s0, t0, t, s, Confirm(r), r);
  }

  lemma PutRecord(s0: Sys, t0: seq<Action>, m: Sys, r: Run, stamp: int) returns (t: seq<Action>, s: Sys)
    requires Exec(s0, t0) == Some(m) && IsAt(m, r, Labelled)
    ensures Exec(s0, t) == Some(s) && GoesOn(t0, t, r)
    ensures s.pcs == m.pcs[r := Written] && s.labels == m.labels && s.quiet == m.quiet
    ensures s.comments == Put(m.comments, Own(Visible(m.comments)), r, stamp)
  {
    t, s := Step(s0, t0, t0, m, FindComment(r), r);
    t, s := Step(s0, t0, t, s, WriteRecord(r, stamp), r);
  }

  /** How far a claim that is left alone can have got. */
  ghost predicate AloneInv(s0: Sys, s: Sys, r: Run) {
    && r in s.pcs
    && match s.pcs[r]
       case Idle => s.labels == s0.labels && s.comments == s0.comments
       case SawState(state) => s.labels == s0.labels && s.comments == s0.comments && Furthest(s0.labels) == Some(state)
       case Decided => s.labels == s0.labels && Accepted(s0, r)
       case Added => s.labels == s0.labels + {Claimed} && Accepted(s0, r)
       case Done(false) => true
       case _ => Ready in s0.labels && Accepted(s0, r)
  }

  lemma AloneKept(s0: Sys, s: Sys, r: Run, a: Action, s': Sys)
    requires AloneInv(s0, s, r) && ByOnly(a, r) && Next(s, a) == Some(s')
    ensures AloneInv(s0, s', r)
  {
  }

  lemma {:induction false} AloneReachable(s0: Sys, actions: seq<Action>, s: Sys, r: Run)
    requires IsAt(s0, r, Idle) && Exec(s0, actions) == Some(s)
    requires forall i :: 0 <= i < |actions| ==> ByOnly(actions[i], r)
    ensures AloneInv(s0, s, r)
    decreases |actions|
  {
    if actions != [] {
      var n := |actions| - 1;
      var m := Exec(s0, actions[..n]).value;
      AloneReachable(s0, actions[..n], m, r);
      AloneKept(s0, m, r, actions[n], s);
    }
  }

  ghost predicate WinsAlone(s0: Sys, r: Run) {
    exists actions, s ::
      Exec(s0, actions) == Some(s) && IsWinner(s, r) && forall i :: 0 <= i < |actions| ==> ByOnly(actions[i], r)
  }

  /**
   * A claim that is left alone can win exactly if the rule accepts the item and the item carries
   * `ready`: of what the rule accepts, exactly the items without `ready` are out of reach.
   */
  lemma WinsAloneExactlyWhen(s0: Sys, r: Run)
    requires IsAt(s0, r, Idle) && (Own(Visible(s0.comments)).Some? || |s0.comments| < PAGE_SIZE)
    ensures WinsAlone(s0, r) <==> Accepted(s0, r) && Ready in s0.labels
  {
    if Accepted(s0, r) && Ready in s0.labels {
      var t, s := ClaimSucceeds(s0, [], s0, r, LatestStamp(Visible(s0.comments)) + 1);
      assert IsWinner(s, r);
    }
    if WinsAlone(s0, r) {
      var actions, s :|
        Exec(s0, actions) == Some(s) && IsWinner(s, r) && forall i :: 0 <= i < |actions| ==> ByOnly(actions[i], r);
      AloneReachable(s0, actions, s, r);
    }
  }

  /**
   * The failing takeover: on an item without `ready` that the rule accepts, the claim ends without
   * the item, but with the `claimed` label added to it.
   */
  lemma ClaimFailsHalfway(s0: Sys, t0: seq<Action>, m: Sys, r: Run) returns (t: seq<Action>, s: Sys)
    requires Exec(s0, t0) == Some(m) && IsAt(m, r, Idle) && Accepted(m, r) && Ready !in m.labels
    ensures Exec(s0, t) == Some(s) && GoesOn(t0, t, r) && IsAt(s, r, Done(false))
    ensures s.labels == m.labels + {Claimed} && s.comments == m.comments
  {
    t, s := Decide(s0, t0, m, r);
    t, s := Step(s0, t0, t, s, AddClaimed(r), r);
    t, s := Step(s0, t0, t, s, DeleteReady(r), r);
  }

  /** Such as an item shown as `pr_open` under another run's record. */
  lemma TakeoverFailsHalfway(other: Run, r: Run) returns (s0: Sys, t: seq<Action>, s: Sys)
    requires other != r
    ensures Init(s0) && IsAt(s0, r, Idle) && s0.labels == {PrOpen} && Holder(s0.comments) == Some(other)
    ensures Exec(s0, t) == Some(s) && IsAt(s, r, Done(false)) && s.labels == {PrOpen, Claimed}
  {
    OneRecord(other);
    s0 := Sys({PrOpen}, [Record(other, 1, true)], map[r := Idle], true, 0, map[], map[], map[]);
    TakeoverIsDecided(s0.labels, other, r);
    t, s := ClaimFailsHalfway(s0, [], s0, r);
  }

  /** Once somebody puts `ready` back under a winner, a second claim wins beside it. */
  lemma SecondClaimWins(s0: Sys, t0: seq<Action>, m: Sys, a: Run, b: Run) returns (t: seq<Action>, s: Sys)
    requires Exec(s0, t0) == Some(m) && IsWinner(m, a) && IsAt(m, b, Idle) && a != b
    requires !m.quiet && Holder(m.comments) == Some(a)
    requires Own(Visible(m.comments)).Some? || |m.comments| < PAGE_SIZE
    ensures Exec(s0, t) == Some(s) && IsWinner(s, a) && IsWinner(s, b)
  {
    var put;
    t, put := Extend(s0, t0, m, Meddle({Ready}));
    t, s := ClaimSucceeds(s0, t, put, b, LatestStamp(Visible(m.comments)) + 1);
  }

  lemma PuttingReadyBackLetsBothWin(a: Run, b: Run) returns (s0: Sys, t: seq<Action>, s: Sys)
    requires a != b
    ensures Init(s0) && Exec(s0, t) == Some(s) && IsWinner(s, a) && IsWinner(s, b)
  {
    OneRecord(a);
    s0 := Sys({Ready}, [], map[a := Idle, b := Idle], false, 0, map[], map[], map[]);
    var first;
    t, first := ClaimSucceeds(s0, [], s0, a, 1);
    t, s := SecondClaimWins(s0, t, first, a, b);
  }

  lemma OneRecord(a: Run)
    ensures Own([]) == None && Put([], None, a, 1) == [Record(a, 1, true)]
    ensures Own([Record(a, 1, true)]) == Some(0) && Newest([Record(a, 1, true)]) == Some(Record(a, 1, true))
  {
    assert NewestAt([Record(a, 1, true)], 0);
    NewestIsUnique([Record(a, 1, true)], 0);
  }
}
