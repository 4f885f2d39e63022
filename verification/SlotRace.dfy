/**
 * The slot lock: a file that is created exclusively. Creating, reading and removing it are steps
 * of their own, so any number of processes interleave between them; a lock whose owner is gone may
 * be removed by whoever finds it.
 */
module SlotRace {
  import opened Wrappers

  type Process = string

  /**
   * How far a process got: it tries to create the file twice at most. After it was done with the
   * slot it reads the file once more, and removes it if it is its own.
   */
  datatype Pc =
    | Creating(attempt: nat) | Reading(attempt: nat) | Unlinking(attempt: nat)
    | Holding | Removing | Refused | Released

  /**
   * `gone` are the processes that are dead, or have not refreshed their lock for too long. History:
   * `takenOver` says that some process has found the lock to be that of one of these.
   */
  datatype Sys = Sys(file: Option<Process>, pcs: map<Process, Pc>, gone: set<Process>, takenOver: bool)

  datatype Action =
    | Create(process: Process)
    | Read(process: Process)
    | Unlink(process: Process)
    | Check(process: Process)
    | Remove(process: Process)
    | Lapse(process: Process)

  predicate Abandoned(s: Sys) {
    s.file.Some? && s.file.value in s.gone
  }

  function Go(s: Sys, p: Process, pc: Pc): Sys {
    s.(pcs := s.pcs[p := pc])
  }

  function Next(s: Sys, a: Action): Option<Sys> {
    var p := a.process;
    if p !in s.pcs then None
    else match (a, s.pcs[p])
      case (Create(_), Creating(n)) =>
        Some(if s.file.None? then Go(s, p, Holding).(file := Some(p)) else Go(s, p, Reading(n)))
      case (Read(_), Reading(n)) =>
        // Only the first attempt is refused because of a lock that is in use.
        if !Abandoned(s) && n == 0 then Some(Go(s, p, Refused))
        else Some(Go(s, p, Unlinking(n)).(takenOver := s.takenOver || Abandoned(s)))
      case (Unlink(_), Unlinking(n)) =>
        Some(Go(s, p, if n == 0 then Creating(1) else Refused).(file := None))
      case (Check(_), Holding) =>
        Some(Go(s, p, if s.file == Some(p) then Removing else Released))
      case (Remove(_), Removing) =>
        Some(Go(s, p, Released).(file := None))
      case (Lapse(_), _) =>
        Some(s.(gone := s.gone + {p}))
      case _ => None
  }

  function Exec(s: Sys, actions: seq<Action>): Option<Sys>
    decreases |actions|
  {
    if actions == [] then Some(s)
    else
      match Exec(s, actions[..|actions| - 1])
      case None => None
      case Some(m) => Next(m, actions[|actions| - 1])
  }

  /** Nobody has started; a process that is not among these may have left its lock behind. */
  ghost predicate Init(s: Sys) {
    !s.takenOver && (s.file.Some? ==> s.file.value !in s.pcs) && forall p :: p in s.pcs ==> s.pcs[p] == Creating(0)
  }

  /** The process was given the slot, and has not given it back. */
  predicate Holds(s: Sys, p: Process) {
    p in s.pcs && (s.pcs[p] == Holding || s.pcs[p] == Removing)
  }

  ghost predicate Exclusive(s: Sys) {
    forall p, q :: Holds(s, p) && Holds(s, q) ==> p == q
  }

  // --- Without a takeover ----------------------------------------------------------------

  /** Whoever holds the slot has its file, and nobody is about to remove that of another. */
  ghost predicate HeldInv(s: Sys) {
    && (forall p :: Holds(s, p) ==> s.file == Some(p))
    && (forall p :: p in s.pcs ==> !s.pcs[p].Unlinking? && (s.pcs[p].Reading? ==> s.pcs[p].attempt == 0))
    && (forall p :: p in s.pcs && s.pcs[p].Creating? ==> s.pcs[p].attempt == 0)
  }

  lemma HeldKept(s: Sys, a: Action, s': Sys)
    requires HeldInv(s) && Next(s, a) == Some(s') && !s'.takenOver
    ensures HeldInv(s')
  {
    var p := a.process;
    assert forall q :: q != p ==> (Holds(s', q) <==> Holds(s, q));
    if a.Create? && s.file.None? {
      assert forall q :: !Holds(s, q);
    } else if Holds(s', p) {
      assert Holds(s, p);
    } else if a.Remove? {
      assert Holds(s, p);
    }
  }

  lemma TakenOverStays(s: Sys, a: Action, s': Sys)
    requires Next(s, a) == Some(s') && !s'.takenOver
    ensures !s.takenOver
  {
  }

  lemma {:induction false} HeldReachable(s0: Sys, actions: seq<Action>, s: Sys)
    requires Init(s0) && Exec(s0, actions) == Some(s) && !s.takenOver
    ensures HeldInv(s)
    decreases |actions|
  {
    if actions != [] {
      var n := |actions| - 1;
      var m := Exec(s0, actions[..n]).value;
      TakenOverStays(m, actions[n], s);
      HeldReachable(s0, actions[..n], m);
      HeldKept(m, actions[n], s);
    }
  }

  /**
   * In every interleaving of any number of processes in which nobody has found an abandoned lock
   * so far, at most one holds the slot, and the file says which.
   */
  lemma ExclusiveWithoutTakeover(s0: Sys, actions: seq<Action>, s: Sys)
    requires Init(s0) && Exec(s0, actions) == Some(s) && !s.takenOver
    ensures Exclusive(s) && forall p :: Holds(s, p) ==> s.file == Some(p)
  {
    HeldReachable(s0, actions, s);
  }

  // --- With one --------------------------------------------------------------------------

  /** While this happens, no process lapses. */
  predicate Steady(actions: seq<Action>) {
    forall i :: 0 <= i < |actions| ==> !actions[i].Lapse?
  }

  lemma Extend(s0: Sys, actions: seq<Action>, m: Sys, a: Action) returns (longer: seq<Action>, s: Sys)
    requires Exec(s0, actions) == Some(m) && Next(m, a).Some?
    ensures longer == actions + [a] && Next(m, a) == Some(s) && Exec(s0, longer) == Some(s)
    ensures Steady(actions) && !a.Lapse? ==> Steady(longer)
  {
    longer, s := actions + [a], Next(m, a).value;
    assert longer[..|longer| - 1] == actions;
  }

  /** A process that finds the lock abandoned is about to remove it. */
  lemma FindsAbandoned(s0: Sys, t0: seq<Action>, m: Sys, p: Process) returns (t: seq<Action>, s: Sys)
    requires Exec(s0, t0) == Some(m) && p in m.pcs && m.pcs[p] == Creating(0) && Abandoned(m)
    ensures (Steady(t0) ==> Steady(t)) && Exec(s0, t) == Some(s) && s == Go(m, p, Unlinking(0)).(takenOver := true)
  {
    t, s := Extend(s0, t0, m, Create(p));
    t, s := Extend(s0, t, s, Read(p));
    assert s.pcs == m.pcs[p := Unlinking(0)];
  }

  /** And, whoever has the lock by then, removes it and takes the slot. */
  lemma RemovesAndTakes(s0: Sys, t0: seq<Action>, m: Sys, p: Process) returns (t: seq<Action>, s: Sys)
    requires Exec(s0, t0) == Some(m) && p in m.pcs && m.pcs[p] == Unlinking(0)
    ensures (Steady(t0) ==> Steady(t)) && Exec(s0, t) == Some(s) && s == Go(m, p, Holding).(file := Some(p))
  {
    t, s := Extend(s0, t0, m, Unlink(p));
    t, s := Extend(s0, t, s, Create(p));
    assert s.pcs == m.pcs[p := Holding];
  }

  /** Of any two processes that come upon an abandoned lock, both may be given the slot. */
  lemma AbandonedLockIsTakenTwice(s0: Sys, t0: seq<Action>, m: Sys, p: Process, q: Process)
    returns (t: seq<Action>, s: Sys)
    requires Exec(s0, t0) == Some(m) && Abandoned(m) && p != q
    requires p in m.pcs && q in m.pcs && m.pcs[p] == m.pcs[q] == Creating(0)
    ensures (Steady(t0) ==> Steady(t)) && Exec(s0, t) == Some(s) && s.gone == m.gone && Holds(s, p) && Holds(s, q)
  {
    t, s := FindsAbandoned(s0, t0, m, p);
    t, s := FindsAbandoned(s0, t, s, q);
    t, s := RemovesAndTakes(s0, t, s, p);
    t, s := RemovesAndTakes(s0, t, s, q);
  }

  /**
   * Nor is it enough that only one process finds the lock abandoned: if another creates the file in
   * between, the first one's second attempt removes that file although its owner is in use of the
   * slot, and is refused; and the slot is free for a third.
   */
  lemma RefusedProcessFreesTheSlot(s0: Sys, t0: seq<Action>, m: Sys, p: Process, q: Process, r: Process)
    returns (t: seq<Action>, s: Sys)
    requires Exec(s0, t0) == Some(m) && p in m.pcs && q in m.pcs && r in m.pcs && p != q && q != r && p != r
    requires m.pcs[p] == Unlinking(0) && m.pcs[q] == m.pcs[r] == Creating(0) && q !in m.gone
    ensures (Steady(t0) ==> Steady(t)) && Exec(s0, t) == Some(s) && s.gone == m.gone
    ensures p in s.pcs && s.pcs[p] == Refused
    ensures Holds(s, q) && Holds(s, r)
  {
    t, s := Extend(s0, t0, m, Unlink(p));
    t, s := Extend(s0, t, s, Create(q));
    t, s := RemovesTheNext(s0, t, s, p, q);
    t, s := Extend(s0, t, s, Create(r));
  }

  lemma RemovesTheNext(s0: Sys, t0: seq<Action>, m: Sys, p: Process, q: Process) returns (t: seq<Action>, s: Sys)
    requires Exec(s0, t0) == Some(m) && p in m.pcs && m.pcs[p] == Creating(1) && m.file == Some(q) && q !in m.gone
    ensures (Steady(t0) ==> Steady(t)) && Exec(s0, t) == Some(s) && s == Go(m, p, Refused).(file := None)
  {
    t, s := Extend(s0, t0, m, Create(p));
    t, s := Extend(s0, t, s, Read(p));
    t, s := Extend(s0, t, s, Unlink(p));
    assert s.pcs == m.pcs[p := Refused];
  }

  // --- Exactly when ----------------------------------------------------------------------

  /** However the processes interleave while none of them lapses, one at most holds the slot. */
  ghost predicate SafeSlot(s0: Sys) {
    forall actions, s :: Steady(actions) && Exec(s0, actions) == Some(s) ==> Exclusive(s)
  }

  ghost predicate NotGone(s0: Sys, s: Sys) {
    && s.gone == s0.gone && !s.takenOver && s.pcs.Keys == s0.pcs.Keys
    && (s.file == s0.file || s.file.None? || s.file.value in s0.pcs)
  }

  /** Without an abandoned lock to begin with, none appears. */
  lemma {:induction false} NeverAbandoned(s0: Sys, actions: seq<Action>, s: Sys)
    requires Init(s0) && !Abandoned(s0) && s0.pcs.Keys !! s0.gone && Steady(actions) && Exec(s0, actions) == Some(s)
    ensures NotGone(s0, s)
    decreases |actions|
  {
    if actions != [] {
      var n := |actions| - 1;
      var m := Exec(s0, actions[..n]).value;
      assert !actions[n].Lapse?;
      NeverAbandoned(s0, actions[..n], m);
    }
  }

  lemma {:induction false} SameProcesses(s0: Sys, actions: seq<Action>, s: Sys)
    requires Exec(s0, actions) == Some(s)
    ensures s.pcs.Keys == s0.pcs.Keys
    decreases |actions|
  {
    if actions != [] {
      SameProcesses(s0, actions[..|actions| - 1], Exec(s0, actions[..|actions| - 1]).value);
    }
  }

  /**
   * Among processes that do not lapse the slot is exclusive exactly if no abandoned lock was lying
   * there for two of them to find.
   */
  lemma ExclusiveExactlyWhen(s0: Sys)
    requires Init(s0) && s0.pcs.Keys !! s0.gone
    ensures SafeSlot(s0) <==>
      !(Abandoned(s0) && exists p, q :: p in s0.pcs && q in s0.pcs && p != q)
  {
    if p, q :| p in s0.pcs && q in s0.pcs && p != q && Abandoned(s0) {
      TwoInOneRun(s0, p, q);
    } else {
      forall actions, s | Steady(actions) && Exec(s0, actions) == Some(s)
        ensures Exclusive(s)
      {
        if Abandoned(s0) {
          SameProcesses(s0, actions, s);
          assert forall p :: Holds(s, p) ==> p in s0.pcs;
        } else {
          NeverAbandoned(s0, actions, s);
          ExclusiveWithoutTakeover(s0, actions, s);
        }
      }
    }
  }

  lemma TwoInOneRun(s0: Sys, p: Process, q: Process)
    requires Init(s0) && p in s0.pcs && q in s0.pcs && p != q && Abandoned(s0)
    ensures !SafeSlot(s0)
  {
    var t, s := AbandonedLockIsTakenTwice(s0, [], s0, p, q);
  }
}
