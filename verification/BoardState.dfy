/**
 * The delivery state of a work item: the table of automated moves, and the rule that
 * decides whether a run may claim an item.
 */
module BoardState {
  import opened Wrappers

  datatype State = Ready | Claimed | PrOpen | FixNeeded | Merged | Blocked

  /** The allowed automated moves; `merged` and `blocked` are terminal. */
  predicate CanTransition(from: State, to: State) {
    match from
    case Ready => to == Claimed
    case Claimed => to == PrOpen || to == Blocked
    case PrOpen => to == Merged || to == FixNeeded || to == Blocked
    case FixNeeded => to == PrOpen || to == Blocked
    case Merged => false
    case Blocked => false
  }

  /** A run holds an item in one of these states while it works. */
  predicate InFlight(s: State) {
    s == Claimed || s == PrOpen || s == FixNeeded
  }

  /** The states an item passes through when only the table moves it. */
  ghost predicate LegalWalk(walk: seq<State>) {
    forall i :: 0 <= i < |walk| - 1 ==> CanTransition(walk[i], walk[i + 1])
  }

  /**
   * Nothing merges without a review surface, and nothing leaves a terminal state: in a walk
   * that starts at `ready`, a merged item was `claimed` second, `pr_open` right before the
   * merge, and each state before the end was one the automation may still leave.
   */
  lemma MergedWalkPassesReview(walk: seq<State>)
    requires LegalWalk(walk) && |walk| > 0
    requires walk[0] == Ready && walk[|walk| - 1] == Merged
    ensures |walk| >= 4 && walk[1] == Claimed && walk[|walk| - 2] == PrOpen
    ensures forall i :: 2 <= i < |walk| - 1 ==> walk[i] == PrOpen || walk[i] == FixNeeded
  {
    assert CanTransition(walk[0], walk[1]);
    assert CanTransition(walk[|walk| - 2], walk[|walk| - 1]);
    forall i | 2 <= i < |walk| - 1
      ensures walk[i] == PrOpen || walk[i] == FixNeeded
    {
      InFlightFrom(walk, i);
    }
  }

  /** From the third state on, a walk out of `ready` that goes on stays in flight. */
  lemma {:induction false} InFlightFrom(walk: seq<State>, i: nat)
    requires LegalWalk(walk) && 2 <= i < |walk| - 1 && walk[0] == Ready
    ensures walk[i] == PrOpen || walk[i] == FixNeeded
  {
    assert CanTransition(walk[0], walk[1]);
    assert CanTransition(walk[i - 1], walk[i]) && CanTransition(walk[i], walk[i + 1]);
    if i > 2 {
      InFlightFrom(walk, i - 1);
    }
  }

  /** Of several states shown at once, the one furthest along the delivery counts. */
  function Furthest(shown: set<State>): Option<State> {
    if Blocked in shown then Some(Blocked)
    else if Merged in shown then Some(Merged)
    else if FixNeeded in shown then Some(FixNeeded)
    else if PrOpen in shown then Some(PrOpen)
    else if Claimed in shown then Some(Claimed)
    else if Ready in shown then Some(Ready)
    else None
  }

  /** Accepted, with the run whose record is being superseded when there is one. */
  datatype ClaimDecision = Accept(takeoverFrom: Option<string>) | Refuse

  /** The claim rule shared by every board: `holder` is the run named by the record, if any. */
  function DecideClaim(state: State, holder: Option<string>, runId: string): ClaimDecision {
    if holder == Some(runId) then Refuse
    else if state == PrOpen || state == FixNeeded then
      if holder.Some? then Accept(holder) else Refuse
    else if state != Ready then Refuse
    else Accept(holder)
  }

  /**
   * What the rule promises: a claim is accepted exactly when the record does not name this
   * very run and the item is either available or in flight under another run's record. So a
   * held (`claimed`) or finished item is never taken, and no run claims one item twice.
   */
  lemma ClaimAcceptedExactlyWhen(state: State, holder: Option<string>, runId: string)
    ensures DecideClaim(state, holder, runId).Accept? <==>
      holder != Some(runId) && (state == Ready || (state in {PrOpen, FixNeeded} && holder.Some?))
    ensures DecideClaim(state, holder, runId).Accept? ==>
      DecideClaim(state, holder, runId).takeoverFrom == holder
  {
  }
}
