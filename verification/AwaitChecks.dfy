/**
 * The pipeline step that waits, within a budget, for the host's checks on the delivered head, and
 * passes only on a green list that it has read.
 */
module AwaitChecks {
  import opened Wrappers
  import opened DeliveryProtocol

  const DEFAULT_SECONDS := 300
  const CEILING_SECONDS := 1800
  const POLL_SECONDS := 15

  /** What stands between the step and its first read. */
  datatype Setup = NoDelivery | NoRef | CapabilitiesThrow | CannotRunChecks | Prepared

  /** One answer of the host. */
  datatype Read = Throws | NotAList | Checks(list: seq<Conclusion>)

  datatype Outcome = Completed | Unreadable | NoChecks | SomeFailed | StillPending | NotAllGreen

  /** Milliseconds; a sleep takes at least as long as asked for. */
  class Clock {
    var now: int

    constructor ()
      ensures now == 0
    {
      now := 0;
    }

    method Time() returns (t: int)
      modifies this
      ensures old(now) <= now == t
    {
      var passed: nat := Anything();
      now := now + passed;
      return now;
    }

    method Sleep(ms: nat)
      modifies this
      ensures now >= old(now) + ms
    {
      var late: nat := Anything();
      now := now + ms + late;
    }
  }

  function Min(a: int, b: int): int {
    if a < b then a else b
  }

  function Max(a: int, b: int): int {
    if a < b then b else a
  }

  /** The budget: what was asked for if that is a whole number, within bounds. */
  function WaitSeconds(asked: Option<int>): (r: int)
    ensures 1 <= r <= CEILING_SECONDS
  {
    if asked.Some? then Min(Max(asked.value, 1), CEILING_SECONDS) else DEFAULT_SECONDS
  }

  function PollSeconds(asked: Option<int>, wait: int): (r: int)
    requires wait >= 1
    ensures 1 <= r <= wait
  {
    Min(if asked.Some? then Max(asked.value, 1) else POLL_SECONDS, wait)
  }

  predicate AllGreen(list: seq<Conclusion>) {
    list != [] && forall i :: 0 <= i < |list| ==> list[i] == Success
  }

  /** A list that is worth waiting on: nothing registered yet, or something pending and nothing failed. */
  predicate Unsettled(read: Read) {
    read.Checks? && Failure !in read.list && (read.list == [] || Pending in read.list)
  }

  /** How the step ends on a read, once it does not wait any longer. */
  function Verdict(read: Read): Outcome {
    match read
    case Throws => Unreadable
    case NotAList => Unreadable
    case Checks(list) =>
      if list == [] then NoChecks
      else if Failure in list then SomeFailed
      else if Pending in list then StillPending
      else if AllGreen(list) then Completed
      else NotAllGreen
  }

  function CeilSeconds(ms: nat): nat {
    (ms + 999) / 1000
  }

  lemma VerdictIsGreenExactlyWhen(read: Read)
    ensures Verdict(read) == Completed <==> read.Checks? && AllGreen(read.list)
  {
    if read.Checks? && AllGreen(read.list) {
      assert read.list[0] == Success;
    }
  }

  /**
   * Wait for a settled list. The outcome is that of the last list read, every earlier one was worth
   * waiting on, and the wait was given up only at the deadline. What was slept and what is reported
   * as waited stay within the budget, and differ only by the last second being counted whole. All
   * sleeps between two reads but the last are a full poll, so the host is not asked more often.
   */
  method Execute(setup: Setup, askedWait: Option<int>, askedPoll: Option<int>, clock: Clock)
    returns (outcome: Outcome, waited: nat, ghost seen: seq<Read>, ghost slept: nat, ghost deadline: int)
    modifies clock
    ensures setup != Prepared ==> outcome == Unreadable && seen == [] && slept == 0
    ensures setup == Prepared ==> seen != [] && outcome == Verdict(seen[|seen| - 1])
    ensures outcome == Completed <==> seen != [] && seen[|seen| - 1].Checks? && AllGreen(seen[|seen| - 1].list)
    ensures forall i :: 0 <= i < |seen| - 1 ==> Unsettled(seen[i])
    ensures seen != [] && Unsettled(seen[|seen| - 1]) ==> clock.now >= deadline
    ensures deadline >= old(clock.now) + WaitSeconds(askedWait) * 1000
    ensures slept <= WaitSeconds(askedWait) * 1000 && waited <= WaitSeconds(askedWait)
    ensures slept <= waited * 1000 < slept + 1000
    ensures |seen| >= 2 ==> Elapsed(|seen| - 2, PollSeconds(askedPoll, WaitSeconds(askedWait)) * 1000) <= slept
  {
    var wait := WaitSeconds(askedWait);
    var poll := PollSeconds(askedPoll, wait);
    waited, seen, slept := 0, [], 0;
    deadline := clock.now + wait * 1000;
    if setup != Prepared {
      return Unreadable, waited, seen, slept, deadline;
    }
    var start := clock.Time();
    var until := start + wait * 1000;
    deadline := until;
    while true
      invariant clock.now >= start + slept && slept <= wait * 1000 && waited <= wait
      invariant slept == waited * 1000 || (clock.now >= until && slept <= waited * 1000 < slept + 1000)
      invariant slept == Elapsed(|seen|, poll * 1000) ||
                (clock.now >= until && |seen| > 0 && slept >= Elapsed(|seen| - 1, poll * 1000))
      invariant forall i :: 0 <= i < |seen| ==> Unsettled(seen[i])
      decreases until - clock.now
    {
      var read: Read := Anything();
      seen := seen + [read];
      VerdictIsGreenExactlyWhen(read);
      if !Unsettled(read) {
        return Verdict(read), waited, seen, slept, deadline;
      }
      var t := clock.Time();
      var remaining := until - t;
      if remaining <= 0 {
        return Verdict(read), waited, seen, slept, deadline;
      }
      var ms := Min(poll * 1000, remaining);
      clock.Sleep(ms);
      slept := slept + ms;
      waited := waited + CeilSeconds(ms);
    }
  }
}
