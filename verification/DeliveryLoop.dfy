/**
 * The delivery loop: claim, then rounds of agent, deliver, checks, review and merge.
 *
 * The board, the host and the hooks answer whatever they like, including failing before or
 * after taking effect. `DeliveryRun` holds the loop's mutable evidence and a ghost trace of
 * what it asked; its methods are proved to follow the rules of DeliveryProtocol.
 */
module DeliveryLoop {
  import opened Wrappers
  import opened BoardState
  import opened DeliveryProtocol
  import opened ProviderErrors

  type Answer<+T> = Result<T, ErrorKind>

  /**
   * The board port, for the one item the plan names. A board that is not `reliable` may
   * throw from any call, before or after the call took effect. A board that is not
   * `undisturbed` is moved by others between any two calls.
   */
  class ItemBoard {
    var state: State
    var record: Option<Record>
    const reliable: bool
    const undisturbed: bool
    const canCreateWork: bool

    constructor (state: State, record: Option<Record>, reliable: bool, undisturbed: bool, canCreateWork: bool)
      ensures this.state == state && this.record == record && this.reliable == reliable
      ensures this.undisturbed == undisturbed && this.canCreateWork == canCreateWork
    {
      this.state, this.record := state, record;
      this.reliable, this.undisturbed, this.canCreateWork := reliable, undisturbed, canCreateWork;
    }

    /** What others did since the last call, and whether this call fails before it has an effect. */
    method Begin() returns (r: Answer<()>)
      modifies this
      ensures undisturbed ==> state == old(state) && record == old(record)
      ensures reliable ==> r.Ok?
    {
      if !undisturbed {
        state := Anything();
        record := Anything();
      }
      r := Fault();
    }

    method Fault() returns (r: Answer<()>)
      ensures reliable ==> r.Ok?
    {
      r := Ok(());
      if !reliable {
        r := Anything();
      }
    }

    method ReadState() returns (r: Answer<Option<Record>>)
      modifies this
      ensures undisturbed ==> state == old(state) && record == old(record)
      ensures reliable ==> r.Ok?
      ensures r.Ok? ==> r.value == record
    {
      var _ :- Begin();
      return Ok(record);
    }

    method GetWork() returns (r: Answer<State>)
      modifies this
      ensures undisturbed ==> state == old(state) && record == old(record)
      ensures reliable ==> r.Ok?
      ensures r.Ok? ==> r.value == state
    {
      var _ :- Begin();
      return Ok(state);
    }

    /** Read, decide, mark the item, write the record, confirm. */
    method Claim(runId: string) returns (r: Answer<bool>)
      modifies this
      ensures undisturbed && r == Ok(true) ==>
        state == Claimed && record == Some(Record(runId, 0, None, "", None, None)) &&
        DecideClaim(old(state), HolderOf(old(record)), runId).Accept?
      ensures undisturbed && r == Ok(false) ==>
        state == old(state) && record == old(record) &&
        DecideClaim(old(state), HolderOf(old(record)), runId).Refuse?
      ensures undisturbed && state != old(state) ==> state == Claimed
      ensures reliable ==> r.Ok?
    {
      var _ :- Begin();
      if DecideClaim(state, HolderOf(record), runId).Refuse? {
        return Ok(false);
      }
      state := Claimed;
      var _ :- Fault();
      record := Some(Record(runId, 0, None, "", None, None));
      var _ :- Fault();
      if !undisturbed {
        var lost: bool := Anything();
        state := Anything();
        record := Anything();
        return Ok(!lost);
      }
      return Ok(true);
    }

    /** The table decides before anything is written; an illegal move is thrown, not corrected. */
    method Transition(to: State) returns (r: Answer<()>)
      modifies this
      ensures undisturbed ==> record == old(record)
      ensures undisturbed ==> state == old(state) || (state == to && CanTransition(old(state), to))
      ensures undisturbed && r.Ok? ==> state == to && CanTransition(old(state), to)
      ensures undisturbed && reliable && CanTransition(old(state), to) ==> r.Ok?
    {
      var _ :- Begin();
      if !CanTransition(state, to) {
        return Err(Unclassified);
      }
      state := to;
      r := Fault();
    }

    method WriteState(next: Record) returns (r: Answer<()>)
      modifies this
      ensures undisturbed ==> state == old(state)
      ensures r.Ok? ==> record == Some(next)
      ensures reliable ==> r.Ok?
    {
      var _ :- Begin();
      record := Some(next);
      r := Fault();
    }

    /** A comment or a filed issue: nothing of this item's state changes. */
    method Say() returns (r: Answer<()>)
      modifies this
      ensures undisturbed ==> state == old(state) && record == old(record)
      ensures reliable ==> r.Ok?
    {
      r := Begin();
    }
  }

  function HolderOf(record: Option<Record>): Option<string> {
    if record.Some? then Some(record.value.runId) else None
  }

  datatype Outcome = DidMerge | DidBlock | TryLater | NotClaimed | Busy | AwaitingReview

  /** Why a run ended where it did, without an error being thrown. */
  datatype Reason =
    | ClaimRefused
    | ChecksStayedRed
    | ChecksStayedPending
    | HumanApprovalPending
    | FindingsStayed
    | ReviewWentStale
    | HeadKeptMoving
    | MergeabilityStayedUnknown
    | MergeDone
    | RoundsSpent

  function OutcomeOf(reason: Reason): Outcome {
    match reason
    case ClaimRefused => NotClaimed
    case HumanApprovalPending => AwaitingReview
    case MergeDone => DidMerge
    case _ => DidBlock
  }

  /** The evidence that has to be there for a run to end for this reason. */
  predicate Explains(plan: Plan, ev: Evidence, reason: Reason) {
    match reason
    case ClaimRefused => !ev.claimed && ev.delivery.None?
    case ChecksStayedRed => LastRound(plan, ev) && RedChecks(ev) && ev.review.None?
    case ChecksStayedPending => ChecksBudgetSpent(plan, ev) && ev.review.None?
    case HumanApprovalPending =>
      && ev.review.Some? && ev.review.value.verdict.AwaitingHuman?
      && ev.written.Some? && ev.written.value.record == RecordNow(plan, ev)
    case FindingsStayed => LastRound(plan, ev) && ev.review.Some? && ev.review.value.verdict.Findings?
    case ReviewWentStale => ReviewStale(plan, ev) && ev.status.None?
    case HeadKeptMoving => LastRound(plan, ev) && HeadMoved(ev)
    case MergeabilityStayedUnknown => MergeabilityUnknown(plan, ev)
    case MergeDone =>
      && ev.landed && ev.merges == 1
      && ev.delivery.Some? && ev.review == Some(Review(ev.delivery.value.round, ev.delivery.value.ref.head, Clean))
      && ev.written.Some? && ev.written.value.record == RecordNow(plan, ev)
    case RoundsSpent => plan.MaxRounds() <= 0 && ev.delivery.None?
  }

  /** Where an owned item is left, by outcome. */
  function StateAfter(outcome: Outcome): State {
    match outcome
    case DidMerge => State.Merged
    case AwaitingReview => PrOpen
    case _ => Blocked
  }

  datatype LoopResult = LoopResult(
    outcome: Outcome, rounds: nat, checksWaitedSeconds: Option<int>, reason: Option<Reason>)

  /** One exclusive slot per item; module SlotRace says when the lock file behind it is one. */
  class SlotLock {
    var holder: Option<string>

    constructor ()
      ensures holder == None
    {
      holder := None;
    }

    method Acquire(runId: string) returns (acquired: bool)
      modifies this
      ensures acquired == old(holder).None?
      ensures holder == if acquired then Some(runId) else old(holder)
    {
      acquired := holder.None?;
      if acquired {
        holder := Some(runId);
      }
    }

    method Release(runId: string)
      modifies this
      ensures holder == if old(holder) == Some(runId) then None else old(holder)
    {
      if holder == Some(runId) {
        holder := None;
      }
    }
  }

  datatype Input = HeadInput | BaseInput | PolicyInput | RulesetInput | ReviewerInput | RequirementInput

  datatype Stale = NoDigestOfThisRun | NothingPresented | RequirementUnknown | InputsDiffer(what: seq<Input>)

  predicate Differs(x: Input, a: Inputs, b: Inputs) {
    match x
    case HeadInput => a.head != b.head
    case BaseInput => a.base != b.base
    case PolicyInput => a.policy != b.policy
    case RulesetInput => a.ruleset != b.ruleset
    case ReviewerInput => a.reviewer != b.reviewer
    case RequirementInput => a.requirement != b.requirement
  }

  /** The names of the inputs that differ, in the order in which they are reported. */
  method Differing(a: Inputs, b: Inputs) returns (what: seq<Input>)
    ensures forall x :: x in what <==> Differs(x, a, b)
    ensures a != b ==> what != []
  {
    what := [];
    if a.head != b.head { what := what + [HeadInput]; }
    if a.base != b.base { what := what + [BaseInput]; }
    if a.policy != b.policy { what := what + [PolicyInput]; }
    if a.ruleset != b.ruleset { what := what + [RulesetInput]; }
    if a.reviewer != b.reviewer { what := what + [ReviewerInput]; }
    if a.requirement != b.requirement { what := what + [RequirementInput]; }
  }

  /**
   * Why the review on record cannot justify a merge, if it cannot. A refusal over differing
   * inputs names exactly the inputs that differ; when each digest was computed from the inputs
   * spelled out beside it, at least one is named.
   */
  method StaleReviewReason(onRecord: Option<Record>, current: Option<Reviewed>, requiresApproval: bool)
    returns (why: Option<Stale>)
    ensures why.None? <==>
      current.Some? &&
      (requiresApproval && onRecord.Some? && onRecord.value.deliveryRef.Some? ==>
         onRecord.value.reviewed.Some? && onRecord.value.reviewed.value.digest == current.value.digest)
    ensures why.Some? && why.value.InputsDiffer? ==>
      && current.Some? && onRecord.Some? && onRecord.value.reviewed.Some?
      && (forall x :: x in why.value.what <==> Differs(x, onRecord.value.reviewed.value.inputs, current.value.inputs))
      && ((onRecord.value.reviewed.value.digest == Digest(onRecord.value.reviewed.value.inputs) &&
           current.value.digest == Digest(current.value.inputs)) ==> why.value.what != [])
  {
    if current.None? {
      return Some(NoDigestOfThisRun);
    }
    if onRecord.None? || onRecord.value.deliveryRef.None? || !requiresApproval {
      return None;
    }
    if onRecord.value.reviewed.None? {
      return Some(NothingPresented);
    }
    var before, now := onRecord.value.reviewed.value, current.value;
    if before.digest == now.digest {
      return None;
    }
    if before.inputs.requirement == "" && now.inputs.requirement != NO_REQUIREMENT {
      return Some(RequirementUnknown);
    }
    var what := Differing(before.inputs, now.inputs);
    return Some(InputsDiffer(what));
  }

  /** The settled list is handed on, not read again. */
  datatype Settled = Settled(waitedSeconds: int, checks: seq<Conclusion>)

  datatype Gate = Pass | Retry | Stop(reason: Reason)

  class DeliveryRun {
    const plan: Plan
    const board: ItemBoard
    const slots: SlotLock
    var rounds: nat
    var pr: Option<string>
    var ref: Ref
    var deliveredBranch: Option<string>
    var reviewedBlock: Option<Reviewed>
    var approvalBlock: Option<Approval>
    var priorRecord: Option<Record>
    var owned: bool
    var checksWaited: int
    var lastProgressAt: int
    var lastProgressSignature: Option<Signature>
    var clock: int
    ghost var trace: Trace
    ghost var ev: Evidence
    ghost var settledPolls: nat

    constructor (plan: Plan, board: ItemBoard, slots: SlotLock)
      ensures this.plan == plan && this.board == board && this.slots == slots
      ensures Tracks() && trace == Start && !owned && rounds == 0 && checksWaited == 0
      ensures lastProgressSignature.None? && settledPolls == 0
    {
      this.plan, this.board, this.slots := plan, board, slots;
      rounds, pr, ref, deliveredBranch := 0, None, Ref("", ""), None;
      reviewedBlock, approvalBlock, priorRecord, owned := None, None, None, false;
      checksWaited, lastProgressAt, lastProgressSignature, clock := 0, 0, None, 0;
      trace, ev, settledPolls := Start, NOTHING, 0;
    }

    /** The loop's variables say what the trace says. */
    ghost predicate Tracks()
      reads this
    {
      && Faithful(plan, board.undisturbed, trace, ev)
      && !ev.rescued
      && owned == ev.claimed
      && priorRecord == ev.prior
      && (match ev.delivery
          case None => pr.None? && deliveredBranch.None?
          case Some(d) => pr == d.pr && ref == d.ref && deliveredBranch == Some(d.branch))
      && reviewedBlock == RecordNow(plan, ev).reviewed
      && approvalBlock == RecordNow(plan, ev).approval
      && (ev.written.Some? ==> ev.written.value.at <= clock)
    }

    /** The throttle remembers the last write, and nobody else wrote the record since. */
    ghost predicate InSync()
      reads this, board
    {
      match ev.written
      case None => lastProgressSignature.None?
      case Some(w) =>
        && lastProgressSignature == Some(SignatureOf(w.record))
        && lastProgressAt == w.at
        && (board.undisturbed ==> board.record == Some(w.record))
    }

    ghost predicate Running()
      reads this, board
    {
      Tracks() && InSync() && owned
    }

    /** Where the item is, when only this run moves it. */
    ghost predicate At(s: State)
      reads board
    {
      board.undisturbed ==> board.state == s
    }

    ghost predicate AtWork()
      reads board
    {
      board.undisturbed ==> InFlight(board.state)
    }

    twostate predicate KeepsState()
      reads board
    {
      board.undisturbed ==> board.state == old(board.state)
    }

    ghost method Emit(e: Event)
      requires Faithful(plan, board.undisturbed, trace, ev) && Allowed(plan, board.undisturbed, ev, e)
      modifies this`trace, this`ev
      ensures trace == Then(old(trace), e)
      ensures Faithful(plan, board.undisturbed, trace, ev) && ev == Observe(plan, old(ev), e)
    {
      trace := Then(trace, e);
      ev := Observe(plan, ev, e);
    }

    method Clock() returns (now: int)
      modifies this`clock
      ensures now == clock >= old(clock)
    {
      var elapsed: nat := Anything();
      clock := clock + elapsed;
      now := clock;
    }

    method Move(to: State) returns (r: Answer<()>)
      requires Running() && Allowed(plan, board.undisturbed, ev, Moved(board.state, to, false))
      modifies `trace, `ev, board
      ensures Running() && ev == old(ev)
      ensures r.Ok? ==> At(to)
      ensures board.reliable && board.undisturbed ==> r.Ok?
    {
      Emit(Moved(board.state, to, false));
      r := board.Transition(to);
    }

    /** Write the progress record, unless it would repeat a recent one and is not evidence. */
    method WriteRecord(reviewRound: int, force: bool) returns (r: Answer<()>)
      requires Running() && reviewRound == RecordNow(plan, ev).reviewRound
      requires force ==> ev.review.Some? && !ev.review.value.verdict.Findings?
      modifies `trace, `ev, `clock, `lastProgressAt, `lastProgressSignature, board
      ensures Tracks() && owned && KeepsState()
      ensures SameButWritten(old(ev), ev)
      ensures r.Ok? ==> Running() && ev.written.Some?
      ensures r.Ok? ==> SignatureOf(ev.written.value.record) == SignatureOf(RecordNow(plan, ev))
      ensures r.Ok? && force ==> ev.written.value.record == RecordNow(plan, ev)
      ensures board.reliable ==> r.Ok?
    {
      var signature := Signature(reviewRound, PrText(pr));
      var nowMs := Clock();
      if !force && lastProgressSignature == Some(signature) && nowMs - lastProgressAt < plan.IntervalMs() {
        return Ok(());
      }
      lastProgressAt := nowMs;
      lastProgressSignature := Some(signature);
      r := PutRecord(
        Record(plan.runId, reviewRound, pr, deliveredBranch.GetOr(plan.branch), reviewedBlock, approvalBlock),
        nowMs, force);
    }

    method PutRecord(record: Record, nowMs: int, force: bool) returns (r: Answer<()>)
      requires Tracks() && Allowed(plan, board.undisturbed, ev, Wrote(record, nowMs, force)) && nowMs <= clock
      modifies `trace, `ev, board
      ensures Tracks() && KeepsState()
      ensures r.Ok? ==>
        && ev == old(ev).(written := Some(Written(record, nowMs)))
        && board.record == Some(record)
      ensures r.Err? ==> ev == old(ev)
      ensures board.reliable ==> r.Ok?
    {
      var _ :- board.WriteState(record);
      Emit(Wrote(record, nowMs, force));
      return Ok(());
    }

    method RunAgent(round: int) returns (r: Answer<()>)
      requires Running() && Allowed(plan, board.undisturbed, ev, AgentRan(round))
      modifies `trace, `ev
      ensures Running() && SameRun(old(ev), ev) && ev.agent == round && ev.delivery == old(ev).delivery
    {
      Emit(AgentRan(round));
      r := Anything();
    }

    method Deliver(round: int) returns (r: Answer<()>)
      requires Running() && 0 <= round < plan.MaxRounds()
      requires ev.delivery.Some? ==> ev.delivery.value.round < round
      requires ev.agent == round || (plan.resumed && round == 0)
      requires ev.merges == 0
      modifies `trace, `ev, `pr, `ref, `deliveredBranch
      ensures Running() && SameRun(old(ev), ev) && ev.agent == old(ev).agent
      ensures r.Ok? ==> JustDelivered(ev, round)
    {
      var answer: Answer<(Option<Ref>, string, Sha)> := Anything();
      var outcome :- answer;
      Adopt(round, outcome.0, outcome.1, outcome.2);
      return Ok(());
    }

    /** The reference is the pull request when there is one, and the pushed branch when there is not. */
    method Adopt(round: int, surface: Option<Ref>, branch: string, head: Sha)
      requires Running() && 0 <= round < plan.MaxRounds()
      requires ev.delivery.Some? ==> ev.delivery.value.round < round
      requires ev.agent == round || (plan.resumed && round == 0)
      requires ev.merges == 0
      modifies `trace, `ev, `pr, `ref, `deliveredBranch
      ensures Running()
      ensures ev.delivery == Some(Delivery(
                round,
                if surface.Some? then surface.value else Ref(branch, head),
                if surface.Some? then Some(surface.value.number) else None,
                branch))
      ensures SameRun(old(ev), ev) && ev.agent == old(ev).agent && JustDelivered(ev, round)
    {
      pr := if surface.Some? then Some(surface.value.number) else None;
      ref := if surface.Some? then surface.value else Ref(branch, head);
      deliveredBranch := Some(branch);
      Emit(Delivered(round, ref, pr, branch));
    }

    method AskChecks() returns (r: Answer<seq<Conclusion>>)
      requires Running() && ev.delivery.Some? && ev.review.None?
      requires ev.checks.Some? ==> AnyPending(ev.checks.value)
      modifies `trace, `ev
      ensures Running() && SameRun(old(ev), ev) && SameDelivery(old(ev), ev) && SameReview(old(ev), ev)
      ensures ev.polls == old(ev).polls && ev.written == old(ev).written
      ensures ev.checks == if r.Ok? then Some(r.value) else old(ev).checks
    {
      r := Anything();
      if r.Ok? {
        Emit(ChecksAnswered(r.value));
      }
    }

    method AskReview(round: int) returns (r: Answer<Verdict>)
      requires Running() && ev.delivery.Some? && ev.delivery.value.round == round
      requires ev.checks.Some? && !AnyFailed(ev.checks.value) && !AnyPending(ev.checks.value)
      requires ev.review.None? && ev.merges == 0
      modifies `trace, `ev, `reviewedBlock, `approvalBlock
      ensures Running() && SameDelivery(old(ev), ev) && ev.checks == old(ev).checks && ev.merges == 0
      ensures ev.prior == old(ev).prior && ev.status == old(ev).status && ev.statusReads == old(ev).statusReads
      ensures r.Ok? ==> ev.review == Some(Review(round, ref.head, r.value))
      ensures r == Ok(Clean) ==> reviewedBlock == Some(ReviewedFor(plan, ref.head))
    {
      r := Anything();
      if r.Ok? {
        Emit(ReviewAnswered(round, ref.head, r.value));
        // The version presented for approval, and the version a clean review covers, are
        // recorded by the same computation.
        if !r.value.Findings? {
          reviewedBlock := Some(ReviewedFor(plan, ref.head));
        }
        if r.value.Clean? && plan.NeedsApproval() {
          approvalBlock := Some(ApprovalFor(plan, ref.head));
        }
      }
    }

    method AskStatus() returns (r: Answer<Status>)
      requires Running() && ev.merges == 0
      requires ev.review.Some? && ev.review.value.verdict.Clean?
      requires Fresh(plan, ev.prior, ev.review.value.head)
      requires ev.statusReads == 0 || ev.statusReads < plan.StatusReads()
      requires ev.status.Some? ==> ev.status.value.mergeable.None?
      modifies `trace, `ev
      ensures Running() && SameRun(old(ev), ev) && SameDelivery(old(ev), ev)
      ensures ev.checks == old(ev).checks && ev.written == old(ev).written && ev.review == old(ev).review
      ensures r.Ok? ==> ev.status == Some(r.value) && ev.statusReads == old(ev).statusReads + 1
    {
      r := Anything();
      if r.Ok? {
        Emit(StatusAnswered(r.value));
      }
    }

    /** What holds when a stage of round `round` has answered. */
    ghost predicate Gated(r: Answer<Gate>, round: int)
      reads this, board
    {
      && Tracks() && owned
      && match r
         case Ok(Pass) => Running() && At(PrOpen) && Within(round)
         case Ok(Retry) => Running() && At(FixNeeded) && Within(round) && round + 1 < plan.MaxRounds()
         case Ok(Stop(reason)) =>
           Running() && reason != ClaimRefused && Explains(plan, ev, reason) && At(StateAfter(OutcomeOf(reason)))
         case Err(_) => board.reliable ==> AtWork()
    }

    /** Round `round` has delivered, and nothing was merged. */
    ghost predicate Within(round: int)
      reads this
    {
      ev.delivery.Some? && ev.delivery.value.round == round && ev.agent <= round && ev.merges == 0
    }

    /** The waiting reported is a whole number of polls, and at most one budget for each of `n` rounds. */
    ghost predicate Counted(n: nat)
      reads this
    {
      && checksWaited == Elapsed(settledPolls, plan.Poll())
      && 0 <= checksWaited <= Elapsed(n, plan.Budget())
    }

    /** Let the agent work, unless this run finishes work an earlier one committed; then deliver. */
    method WorkAndDeliver(round: int) returns (r: Answer<()>)
      requires Running() && 0 <= round < plan.MaxRounds()
      requires ev.delivery.Some? ==> ev.delivery.value.round < round
      requires ev.agent < round && ev.merges == 0
      modifies `trace, `ev, `pr, `ref, `deliveredBranch, `rounds
      ensures Running() && rounds == round + 1
      ensures r.Ok? ==> Within(round) && JustDelivered(ev, round)
    {
      rounds := round + 1;
      if !(plan.resumed && round == 0) {
        var _ :- RunAgent(round);
      }
      r := Deliver(round);
    }

    /** A delivered item is under review, whether its pull request is new or reused. */
    method EnterReview(round: int) returns (r: Answer<()>)
      requires Running() && Within(round) && JustDelivered(ev, round)
      requires board.undisturbed ==> board.state == Claimed || board.state == FixNeeded
      modifies `trace, `ev, `clock, `lastProgressAt, `lastProgressSignature, board
      ensures Tracks() && owned
      ensures r.Ok? ==> Running() && At(PrOpen) && Within(round) && JustDelivered(ev, round)
      ensures r.Err? && board.reliable ==> AtWork()
    {
      var current :- board.GetWork();
      if current != PrOpen {
        var _ :- Move(PrOpen);
      }
      r := WriteRecord(round, false);
    }

    /** The checks of this round are still running; before the first poll none has failed. */
    ghost predicate Polling(round: int)
      reads this, board
    {
      && Running() && Within(round) && ev.review.None?
      && ev.checks.Some? && AnyPending(ev.checks.value) && (ev.polls == 0 ==> !AnyFailed(ev.checks.value))
    }

    /** Wait one interval, read the checks again, and let the board see that the run is still here. */
    method Poll(round: int) returns (r: Answer<seq<Conclusion>>)
      requires Polling(round)
      requires Elapsed(ev.polls + 1, plan.Poll()) <= plan.Wait()
      modifies `trace, `ev, `clock, `lastProgressAt, `lastProgressSignature, board
      ensures Tracks() && owned && KeepsState()
      ensures r.Ok? ==> Running() && Within(round) && ev.review.None? && ev.checks == Some(r.value)
      ensures r.Ok? && AnyPending(r.value) ==> Polling(round)
      ensures r.Ok? ==>
        ev.polls == old(ev).polls + 1 && ev.status == old(ev).status && ev.statusReads == old(ev).statusReads
    {
      Emit(Waited(plan.Poll()));
      var now :- AskChecks();
      var _ :- WriteRecord(round, false);
      return Ok(now);
    }

    /** One more poll; `None` when something is still pending. */
    method PollOnce(round: int, waited: int) returns (r: Answer<Option<Settled>>)
      requires Polling(round) && At(PrOpen) && waited == Elapsed(ev.polls, plan.Poll())
      requires waited + plan.Poll() <= plan.Wait()
      modifies `trace, `ev, `clock, `lastProgressAt, `lastProgressSignature, board
      ensures Tracks() && owned && At(PrOpen)
      ensures r.Ok? ==> ev.status == old(ev).status && ev.statusReads == old(ev).statusReads
      ensures r.Ok? && r.value.Some? ==>
        && Running() && Within(round) && ev.review.None?
        && ev.checks == Some(r.value.value.checks) && !AnyPending(r.value.value.checks)
        && r.value.value.waitedSeconds == Elapsed(ev.polls, plan.Poll()) <= plan.Wait()
      ensures r.Ok? && r.value.None? ==> Polling(round) && waited + plan.Poll() == Elapsed(ev.polls, plan.Poll())
    {
      var now :- Poll(round);
      return Ok(if AnyPending(now) then None else Some(Settled(waited + plan.Poll(), now)));
    }

    /** Poll until nothing is pending any more; `None` when the budget ran out. */
    method WaitForChecks(round: int) returns (r: Answer<Option<Settled>>)
      requires plan.Poll() > 0
      requires Running() && Within(round) && At(PrOpen) && ev.review.None? && ev.polls == 0
      requires ev.checks.Some? && AnyPending(ev.checks.value) && !AnyFailed(ev.checks.value)
      modifies `trace, `ev, `clock, `lastProgressAt, `lastProgressSignature, board
      ensures Tracks() && owned && At(PrOpen)
      ensures r.Ok? ==> Running() && Within(round) && ev.review.None? && ev.checks.Some?
      ensures r.Ok? ==> ev.status == old(ev).status && ev.statusReads == old(ev).statusReads
      ensures r.Ok? && r.value.Some? ==>
        && ev.checks == Some(r.value.value.checks) && !AnyPending(r.value.value.checks)
        && r.value.value.waitedSeconds == Elapsed(ev.polls, plan.Poll()) <= plan.Wait()
      ensures r.Ok? && r.value.None? ==> ChecksBudgetSpent(plan, ev)
    {
      var waited := 0;
      while waited + plan.Poll() <= plan.Wait()
        invariant Polling(round) && At(PrOpen) && waited == Elapsed(ev.polls, plan.Poll())
        invariant ev.status == old(ev).status && ev.statusReads == old(ev).statusReads
        decreases plan.Wait() - waited
      {
        var settled :- PollOnce(round, waited);
        if settled.Some? {
          return Ok(settled);
        }
        waited := waited + plan.Poll();
      }
      return Ok(None);
    }

    /** Stop here and leave the decision to a human. */
    method Block(round: int, reason: Reason) returns (r: Answer<Gate>)
      requires Running() && OutcomeOf(reason) == DidBlock && Explains(plan, ev, reason)
      requires Allowed(plan, board.undisturbed, ev, Moved(board.state, Blocked, false))
      modifies `trace, `ev, board
      ensures Gated(r, round) && (r.Ok? ==> r.value == Stop(reason))
    {
      var _ :- Move(Blocked);
      return Ok(Stop(reason));
    }

    /** Leave the rest to the next round. */
    method SendBack(round: int) returns (r: Answer<Gate>)
      requires Running() && Within(round) && round + 1 < plan.MaxRounds()
      requires Allowed(plan, board.undisturbed, ev, Moved(board.state, FixNeeded, false))
      modifies `trace, `ev, board
      ensures Gated(r, round) && (r.Ok? ==> r.value == Retry)
    {
      var _ :- Move(FixNeeded);
      return Ok(Retry);
    }

    /** A red pipeline is work while a round is left, and a human's decision after that. */
    method OnRedChecks(round: int) returns (r: Answer<Gate>)
      requires Running() && Within(round) && At(PrOpen) && RedChecks(ev) && ev.review.None?
      modifies `trace, `ev, board
      ensures Gated(r, round) && (r.Ok? ==> r.value != Pass)
    {
      if round + 1 >= plan.MaxRounds() {
        var _ :- Move(Blocked);
        if plan.fileIssueOnExhaustedChecks && board.canCreateWork {
          // Filing is best effort: its failure is not the run's failure.
          var _ := board.Say();
        }
        return Ok(Stop(ChecksStayedRed));
      }
      r := SendBack(round);
    }

    method SettleChecks(round: int) returns (r: Answer<Gate>)
      requires plan.Poll() > 0 && rounds > 0 && Counted(rounds - 1)
      requires Running() && Within(round) && At(PrOpen) && JustDelivered(ev, round)
      modifies `trace, `ev, `clock, `lastProgressAt, `lastProgressSignature, `checksWaited, `settledPolls, board
      ensures Gated(r, round) && Counted(rounds)
      ensures r == Ok(Pass) ==> ReadyForReview()
    {
      var checks :- AskChecks();
      if AnyFailed(checks) {
        r := OnRedChecks(round);
      } else if AnyPending(checks) {
        r := SettlePending(round);
      } else {
        r := Ok(Pass);
      }
    }

    method SettlePending(round: int) returns (r: Answer<Gate>)
      requires plan.Poll() > 0 && rounds > 0 && Counted(rounds - 1)
      requires Running() && Within(round) && At(PrOpen) && ev.review.None? && ev.polls == 0
      requires ev.status.None? && ev.statusReads == 0
      requires ev.checks.Some? && AnyPending(ev.checks.value) && !AnyFailed(ev.checks.value)
      modifies `trace, `ev, `clock, `lastProgressAt, `lastProgressSignature, `checksWaited, `settledPolls, board
      ensures Gated(r, round) && Counted(rounds)
      ensures r == Ok(Pass) ==> ReadyForReview()
    {
      var settled :- WaitForChecks(round);
      if settled.Some? {
        r := OnSettled(round, settled.value);
      } else {
        r := OnSpent(round);
      }
    }

    /** The budget ran out while something was pending. */
    method OnSpent(round: int) returns (r: Answer<Gate>)
      requires rounds > 0 && Counted(rounds - 1)
      requires Running() && Within(round) && At(PrOpen) && ChecksBudgetSpent(plan, ev) && ev.review.None?
      modifies `trace, `ev, board
      ensures Gated(r, round) && Counted(rounds) && r != Ok(Pass)
    {
      r := Block(round, ChecksStayedPending);
    }

    method OnSettled(round: int, settled: Settled) returns (r: Answer<Gate>)
      requires plan.Poll() > 0 && rounds > 0 && Counted(rounds - 1)
      requires Running() && Within(round) && At(PrOpen) && ev.review.None? && ev.status.None? && ev.statusReads == 0
      requires ev.checks == Some(settled.checks) && !AnyPending(settled.checks)
      requires settled.waitedSeconds == Elapsed(ev.polls, plan.Poll()) <= plan.Wait()
      modifies `trace, `ev, `clock, `lastProgressAt, `lastProgressSignature, `checksWaited, `settledPolls, board
      ensures Gated(r, round) && Counted(rounds)
      ensures r == Ok(Pass) ==> ReadyForReview()
    {
      CountWait(settled.waitedSeconds);
      if AnyFailed(settled.checks) {
        r := OnSettledRed(round);
        return;
      }
      return Ok(Pass);
    }

    method CountWait(waitedSeconds: int)
      requires plan.Poll() > 0 && rounds > 0 && Counted(rounds - 1)
      requires waitedSeconds == Elapsed(ev.polls, plan.Poll()) <= plan.Wait()
      modifies `checksWaited, `settledPolls
      ensures Counted(rounds)
    {
      ElapsedNonNegative(ev.polls, plan.Poll());
      ElapsedAdds(settledPolls, ev.polls, plan.Poll());
      checksWaited := checksWaited + waitedSeconds;
      settledPolls := settledPolls + ev.polls;
    }

    method OnSettledRed(round: int) returns (r: Answer<Gate>)
      requires Running() && Within(round) && At(PrOpen) && RedChecks(ev) && ev.review.None?
      modifies `trace, `ev, `clock, `lastProgressAt, `lastProgressSignature, board
      ensures Gated(r, round) && r != Ok(Pass)
    {
      var _ :- WriteRecord(round, false);
      r := OnRedChecks(round);
    }

    /** The checks settled without a failure, and nobody judged the change yet. */
    ghost predicate ReadyForReview()
      reads this
    {
      && ev.checks.Some? && !AnyFailed(ev.checks.value) && !AnyPending(ev.checks.value)
      && ev.review.None? && ev.status.None? && ev.statusReads == 0
    }

    /** A clean review of this very head, on record, and no stale approval in the way. */
    ghost predicate ReadyToMerge(round: int)
      reads this
    {
      && ev.checks.Some? && !AnyFailed(ev.checks.value) && !AnyPending(ev.checks.value)
      && ev.review == Some(Review(round, ref.head, Clean)) && Fresh(plan, ev.prior, ref.head)
      && ev.written.Some? && ev.written.value.record == RecordNow(plan, ev)
    }

    method ReviewHead(round: int) returns (r: Answer<Gate>)
      requires Running() && Within(round) && At(PrOpen) && ReadyForReview()
      modifies `trace, `ev, `clock, `lastProgressAt, `lastProgressSignature, `reviewedBlock, `approvalBlock, board
      ensures Gated(r, round)
      ensures r == Ok(Pass) ==> ReadyToMerge(round) && ev.status.None? && ev.statusReads == 0
    {
      var changedFiles: Answer<()> := Anything();
      var _ :- changedFiles;
      var verdict :- AskReview(round);
      match verdict
      case AwaitingHuman =>
        var _ :- WriteRecord(round, true);
        return Ok(Stop(HumanApprovalPending));
      case Findings =>
        r := OnFindings(round);
      case Clean =>
        r := OnClean(round);
    }

    method OnFindings(round: int) returns (r: Answer<Gate>)
      requires Running() && Within(round) && At(PrOpen)
      requires ev.review.Some? && ev.review.value.verdict.Findings?
      modifies `trace, `ev, board
      ensures Gated(r, round) && r != Ok(Pass)
    {
      if round + 1 >= plan.MaxRounds() {
        r := Block(round, FindingsStayed);
        return;
      }
      r := SendBack(round);
    }

    /** Put the evidence on record, even when the throttle would skip progress, and re-check it. */
    method OnClean(round: int) returns (r: Answer<Gate>)
      requires Running() && Within(round) && At(PrOpen)
      requires ev.checks.Some? && !AnyFailed(ev.checks.value) && !AnyPending(ev.checks.value)
      requires ev.review == Some(Review(round, ref.head, Clean)) && ev.status.None? && ev.statusReads == 0
      requires reviewedBlock == Some(ReviewedFor(plan, ref.head))
      modifies `trace, `ev, `clock, `lastProgressAt, `lastProgressSignature, board
      ensures Gated(r, round)
      ensures r == Ok(Pass) ==> ReadyToMerge(round) && ev.status.None? && ev.statusReads == 0
    {
      var _ :- WriteRecord(round, true);
      var stale := StaleReviewReason(priorRecord, reviewedBlock, plan.NeedsApproval());
      if stale.Some? {
        r := Block(round, ReviewWentStale);
        return;
      }
      return Ok(Pass);
    }

    /** Re-read an unknown mergeability a bounded number of times; a moved head ends the window. */
    method ReadStatus(round: int) returns (r: Answer<Status>)
      requires Running() && Within(round) && ReadyToMerge(round) && ev.status.None? && ev.statusReads == 0
      modifies `trace, `ev
      ensures Running() && SameDelivery(old(ev), ev)
      ensures r.Ok? ==> Within(round) && ReadyToMerge(round) && ev.status == Some(r.value)
      ensures r.Ok? && r.value.head == ref.head && r.value.mergeable.None? ==> ev.statusReads >= plan.StatusReads()
    {
      var status :- AskStatus();
      var attempt := 1;
      while attempt < plan.StatusReads() && status.mergeable.None?
        invariant Running() && SameDelivery(old(ev), ev) && Within(round) && ReadyToMerge(round)
        invariant ev.status == Some(status) && ev.statusReads == attempt
      {
        status :- AskStatus();
        if status.head != ref.head {
          return Ok(status);
        }
        attempt := attempt + 1;
      }
      return Ok(status);
    }

    method MergeReviewed(round: int) returns (r: Answer<Gate>)
      requires Running() && Within(round) && At(PrOpen)
      requires ReadyToMerge(round) && ev.status.None? && ev.statusReads == 0
      modifies `trace, `ev, board
      ensures Gated(r, round) && r != Ok(Pass)
    {
      var status :- ReadStatus(round);
      if status.head != ref.head {
        r := OnHeadMoved(round);
      } else if status.mergeable.None? {
        r := Block(round, MergeabilityStayedUnknown);
        if r.Ok? {
          var _ :- board.Say();
        }
      } else {
        r := Land(round);
      }
    }

    /** What would land is no longer what was reviewed. */
    method OnHeadMoved(round: int) returns (r: Answer<Gate>)
      requires Running() && Within(round) && At(PrOpen) && HeadMoved(ev)
      modifies `trace, `ev, board
      ensures Gated(r, round) && r != Ok(Pass)
    {
      var _ :- Move(FixNeeded);
      if round + 1 >= plan.MaxRounds() {
        r := Block(round, HeadKeptMoving);
        return;
      }
      return Ok(Retry);
    }

    /** Ask the host to merge exactly the reviewed head, then tell the board. */
    method Land(round: int) returns (r: Answer<Gate>)
      requires Running() && Within(round) && At(PrOpen) && ReadyToMerge(round)
      requires MergeJustified(plan, ev, ref.head)
      modifies `trace, `ev, board
      ensures Gated(r, round) && r != Ok(Pass)
    {
      var _ :- AskMerge();
      var _ :- Move(Merged);
      var _ :- board.Say();
      return Ok(Stop(MergeDone));
    }

    method AskMerge() returns (r: Answer<()>)
      requires Running() && MergeJustified(plan, ev, ref.head)
      modifies `trace, `ev
      ensures Running() && (r.Ok? ==> Explains(plan, ev, MergeDone))
    {
      Emit(MergeAsked(ref.head));
      r := Anything();
      if r.Ok? {
        Emit(MergeLanded);
      }
    }

    /** One round: work, deliver, enter review, settle the checks, review, merge. */
    method Round(round: int) returns (r: Answer<Gate>)
      requires plan.Poll() > 0
      requires Running() && 0 <= round < plan.MaxRounds() && rounds == round && Counted(rounds)
      requires ev.delivery.Some? ==> ev.delivery.value.round < round
      requires ev.agent < round && ev.merges == 0
      requires board.undisturbed ==> board.state == Claimed || board.state == FixNeeded
      modifies `trace, `ev, `clock, `lastProgressAt, `lastProgressSignature, `pr, `ref, `deliveredBranch, `rounds
      modifies `checksWaited, `settledPolls, `reviewedBlock, `approvalBlock, board
      ensures Gated(r, round) && r != Ok(Pass) && rounds == round + 1 && Counted(rounds)
    {
      r := Judge(round);
      if r == Ok(Pass) {
        r := MergeReviewed(round);
      }
    }

    /** Everything up to a clean review. */
    method Judge(round: int) returns (r: Answer<Gate>)
      requires plan.Poll() > 0
      requires Running() && 0 <= round < plan.MaxRounds() && rounds == round && Counted(rounds)
      requires ev.delivery.Some? ==> ev.delivery.value.round < round
      requires ev.agent < round && ev.merges == 0
      requires board.undisturbed ==> board.state == Claimed || board.state == FixNeeded
      modifies `trace, `ev, `clock, `lastProgressAt, `lastProgressSignature, `pr, `ref, `deliveredBranch, `rounds
      modifies `checksWaited, `settledPolls, `reviewedBlock, `approvalBlock, board
      ensures Gated(r, round) && rounds == round + 1 && Counted(rounds)
      ensures r == Ok(Pass) ==> ReadyToMerge(round) && ev.status.None? && ev.statusReads == 0
    {
      var _ :- PresentHead(round);
      r := Assess(round);
    }

    method Assess(round: int) returns (r: Answer<Gate>)
      requires plan.Poll() > 0 && rounds > 0 && Counted(rounds - 1)
      requires Running() && Within(round) && At(PrOpen) && JustDelivered(ev, round)
      modifies `trace, `ev, `clock, `lastProgressAt, `lastProgressSignature
      modifies `checksWaited, `settledPolls, `reviewedBlock, `approvalBlock, board
      ensures Gated(r, round) && Counted(rounds)
      ensures r == Ok(Pass) ==> ReadyToMerge(round) && ev.status.None? && ev.statusReads == 0
    {
      r := SettleChecks(round);
      if r == Ok(Pass) {
        r := ReviewHead(round);
      }
    }

    /** The head of this round is pushed, and its item is under review. */
    method PresentHead(round: int) returns (r: Answer<()>)
      requires Running() && 0 <= round < plan.MaxRounds()
      requires ev.delivery.Some? ==> ev.delivery.value.round < round
      requires ev.agent < round && ev.merges == 0
      requires board.undisturbed ==> board.state == Claimed || board.state == FixNeeded
      modifies `trace, `ev, `clock, `lastProgressAt, `lastProgressSignature, `pr, `ref, `deliveredBranch, `rounds, board
      ensures Tracks() && owned && rounds == round + 1
      ensures r.Ok? ==> Running() && At(PrOpen) && Within(round) && JustDelivered(ev, round)
      ensures r.Err? && board.reliable ==> AtWork()
    {
      var _ :- WorkAndDeliver(round);
      r := EnterReview(round);
    }

    /** Claim, then rounds. A thrown error leaves through `Err`. */
    method Attempt() returns (r: Answer<Reason>)
      requires plan.Poll() > 0
      requires Tracks() && !owned && rounds == 0 && checksWaited == 0 && settledPolls == 0
      requires lastProgressSignature.None? && ev == NOTHING.(prior := ev.prior)
      modifies `trace, `ev, `clock, `lastProgressAt, `lastProgressSignature, `pr, `ref, `deliveredBranch, `rounds
      modifies `checksWaited, `settledPolls, `reviewedBlock, `approvalBlock, `owned, board
      ensures Tracks() && Counted(rounds)
      ensures rounds == 0 || rounds <= plan.MaxRounds()
      ensures r.Ok? ==>
        Explains(plan, ev, r.value) && (r.value != ClaimRefused ==> Running() && At(StateAfter(OutcomeOf(r.value))))
      ensures r.Ok? ==> owned == (r.value != ClaimRefused)
      ensures r.Err? && owned && board.reliable ==> AtWork()
      ensures board.undisturbed && !owned ==>
        board.state == old(board.state) || (r.Err? && board.state == Claimed)
      ensures board.undisturbed && board.reliable ==>
        (owned <==> DecideClaim(old(board.state), HolderOf(old(board.record)), plan.runId).Accept?)
      ensures board.undisturbed && board.reliable && !owned ==>
        r.Ok? && board.state == old(board.state) && board.record == old(board.record)
    {
      var claimed :- board.Claim(plan.runId);
      Emit(ClaimAnswered(claimed));
      if !claimed {
        return Ok(ClaimRefused);
      }
      owned := true;
      var _ :- WriteRecord(0, false);
      r := Rounds();
    }

    method Rounds() returns (r: Answer<Reason>)
      requires plan.Poll() > 0
      requires Running() && At(Claimed) && rounds == 0 && Counted(rounds)
      requires ev.delivery.None? && ev.agent == -1 && ev.merges == 0 && settledPolls == 0
      modifies `trace, `ev, `clock, `lastProgressAt, `lastProgressSignature, `pr, `ref, `deliveredBranch, `rounds
      modifies `checksWaited, `settledPolls, `reviewedBlock, `approvalBlock, board
      ensures Tracks() && owned && Counted(rounds)
      ensures rounds == 0 || rounds <= plan.MaxRounds()
      ensures r.Ok? ==>
        r.value != ClaimRefused && Explains(plan, ev, r.value) && Running() && At(StateAfter(OutcomeOf(r.value)))
      ensures r.Err? && board.reliable ==> AtWork()
    {
      var round := 0;
      while round < plan.MaxRounds()
        invariant Running() && 0 <= round && (round == 0 || round < plan.MaxRounds()) && rounds == round
        invariant ev.agent < round && ev.merges == 0
        invariant if round == 0 then ev.delivery.None? else ev.delivery.Some? && ev.delivery.value.round < round
        invariant At(if round == 0 then Claimed else FixNeeded)
        invariant Counted(rounds)
      {
        var gate :- Round(round);
        match gate
        case Stop(reason) => return Ok(reason);
        case Retry => round := round + 1;
      }
      // Every round that does not stop leaves a further one, so only an empty budget ends here.
      var _ :- Move(Blocked);
      return Ok(RoundsSpent);
    }

    /** Best effort: block the item even when the board itself was the failure. */
    method Rescue()
      requires Tracks()
      modifies `trace, `ev, board
      ensures Faithful(plan, board.undisturbed, trace, ev) && ev == old(ev).(rescued := true)
      ensures board.undisturbed ==> board.state == old(board.state) || board.state == Blocked
      ensures board.undisturbed && board.reliable && old(InFlight(board.state)) ==> board.state == Blocked
    {
      Emit(Moved(board.state, Blocked, true));
      var _ := board.Transition(Blocked);
    }

    /** The loop's try and catch: every thrown error ends in an outcome, and an owned item is rescued. */
    method Guarded() returns (outcome: Outcome, reason: Option<Reason>)
      requires plan.Poll() > 0
      requires Tracks() && !owned && rounds == 0 && checksWaited == 0 && settledPolls == 0
      requires lastProgressSignature.None? && ev == NOTHING.(prior := ev.prior)
      modifies `trace, `ev, `clock, `lastProgressAt, `lastProgressSignature, `pr, `ref, `deliveredBranch, `rounds
      modifies `checksWaited, `settledPolls, `reviewedBlock, `approvalBlock, `owned, board
      ensures Faithful(plan, board.undisturbed, trace, ev) && Counted(rounds)
      ensures rounds == 0 || rounds <= plan.MaxRounds()
      ensures reason.Some? ==>
        && outcome == OutcomeOf(reason.value) && Explains(plan, ev, reason.value)
        && Tracks() && (owned ==> InSync())
      ensures reason.None? ==> outcome == DidBlock || outcome == TryLater
      ensures board.undisturbed && owned && reason.Some? ==> board.state == StateAfter(outcome)
      ensures board.undisturbed && board.reliable ==>
        (owned <==> DecideClaim(old(board.state), HolderOf(old(board.record)), plan.runId).Accept?)
      ensures board.undisturbed && board.reliable && owned ==> board.state == StateAfter(outcome)
      ensures board.undisturbed && board.reliable && !owned ==>
        reason == Some(ClaimRefused) && board.state == old(board.state) && board.record == old(board.record)
      ensures board.undisturbed && !owned && board.state != old(board.state) ==>
        reason.None? && (board.state == Claimed || (board.state == Blocked && outcome == DidBlock))
      ensures ev.prior == old(ev.prior)
    {
      var r := Attempt();
      if r.Ok? {
        return OutcomeOf(r.value), Some(r.value);
      }
      var retriable := Retriable(r.error);
      if !retriable || owned {
        Rescue();
      }
      return if retriable then TryLater else DidBlock, None;
    }

    /** What the board said before this run touched it; a failed read counts as nothing said. */
    method ReadPrior()
      requires Tracks() && ev == NOTHING && !owned && lastProgressSignature.None?
      modifies `trace, `ev, `priorRecord, board
      ensures Tracks() && ev == NOTHING.(prior := priorRecord)
      ensures board.undisturbed ==> board.state == old(board.state) && board.record == old(board.record)
      ensures priorRecord == None || priorRecord == board.record
      ensures board.reliable ==> priorRecord == board.record
    {
      var answer := board.ReadState();
      priorRecord := if answer.Ok? then answer.value else None;
      Emit(PriorRead(priorRecord));
    }

    /**
     * One delivery, from the prior read to the released slot. Whatever is answered, the trace
     * follows the rules and the slot is as it was found. On a board that nobody else moves, an item
     * this run claimed ends where the outcome says, unless an error was thrown on the way. On one
     * that does not fail either, it always does, and the run claims the item exactly if the slot was
     * free and the claim rule accepts.
     */
    method Run() returns (result: LoopResult)
      requires plan.Poll() > 0
      requires Tracks() && ev == NOTHING && !owned && rounds == 0 && checksWaited == 0 && settledPolls == 0
      requires lastProgressSignature.None?
      modifies this, board, slots
      ensures Faithful(plan, board.undisturbed, trace, ev)
      ensures board.reliable && board.undisturbed ==> ev.prior == old(board.record)
      ensures slots.holder == old(slots.holder)
      ensures result.outcome == Busy <==> plan.slotted && old(slots.holder).Some?
      ensures result.outcome == Busy ==> ev == NOTHING.(prior := ev.prior)
      ensures result.reason.Some? ==>
        && result.outcome == OutcomeOf(result.reason.value) && Explains(plan, ev, result.reason.value)
        && (owned && board.undisturbed && ev.written.Some? ==> board.record == Some(ev.written.value.record))
      ensures result.reason.None? ==> result.outcome == Busy || result.outcome == DidBlock || result.outcome == TryLater
      ensures board.undisturbed && owned && result.reason.Some? ==> board.state == StateAfter(result.outcome)
      ensures board.undisturbed && board.reliable ==>
        (owned <==>
          && (plan.slotted ==> old(slots.holder).None?)
          && DecideClaim(old(board.state), HolderOf(old(board.record)), plan.runId).Accept?)
      ensures board.undisturbed && board.reliable && owned ==> board.state == StateAfter(result.outcome)
      ensures board.undisturbed && board.reliable && !owned ==>
        && (result.outcome == Busy || result.outcome == NotClaimed)
        && board.state == old(board.state) && board.record == old(board.record)
      ensures result.rounds == rounds && (rounds == 0 || rounds <= plan.MaxRounds())
      ensures result.checksWaitedSeconds.GetOr(0) == Elapsed(settledPolls, plan.Poll())
      ensures 0 <= result.checksWaitedSeconds.GetOr(0) <= Elapsed(rounds, plan.Budget())
    {
      ReadPrior();
      if plan.slotted {
        var acquired := slots.Acquire(plan.runId);
        if !acquired {
          return LoopResult(Busy, 0, None, None);
        }
      }
      var outcome, reason := Guarded();
      result := LoopResult(outcome, rounds, if checksWaited == 0 then None else Some(checksWaited), reason);
      if plan.slotted {
        slots.Release(plan.runId);
      }
    }
  }
}
