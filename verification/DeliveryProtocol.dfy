/**
 * What a delivery run is allowed to do next, given what it has seen so far.
 *
 * A run leaves a trace of the questions it asked and the answers it got. `Observe` folds a
 * trace into the evidence it holds, and `Allowed` states the rule for each kind of step in
 * terms of that evidence only. The loop (module DeliveryLoop) is proved to leave a `Safe`
 * trace whatever the host, the board and the hooks answer; module DeliveryLaws draws the
 * consequences for every safe trace.
 */
module DeliveryProtocol {
  import opened Wrappers
  import opened BoardState

  type Sha = string

  datatype Conclusion = Success | Failure | Pending | Neutral | Unknown

  datatype Verdict = Clean | Findings | AwaitingHuman

  datatype ReviewMode = ChecksOnly | Label | Rules

  /** The review-relevant policy. Its hash is taken to be collision-free: equal hash, equal policy. */
  datatype Policy = Policy(
    reviewMode: Option<ReviewMode>,
    approvalLabel: Option<string>,
    maxReviewRounds: Option<int>,
    reviewRules: Option<string>)

  /** The six inputs a review is evidence about. */
  datatype Inputs = Inputs(
    head: Sha, base: Sha, policy: Policy, ruleset: string, reviewer: string, requirement: string)

  /** A digest is taken to be collision-free: it stands for the inputs it was computed from. */
  datatype Digest = Digest(inputs: Inputs)

  /** The block on record: the digest, and the inputs spelled out beside it. */
  datatype Reviewed = Reviewed(digest: Digest, inputs: Inputs)

  datatype Approval = Approval(digest: Digest, ref: string)

  /** `deliveryRef` holds the pull request's number. */
  datatype Record = Record(
    runId: string,
    reviewRound: int,
    deliveryRef: Option<string>,
    branch: string,
    reviewed: Option<Reviewed>,
    approval: Option<Approval>)

  datatype Ref = Ref(number: string, head: Sha)

  datatype Status = Status(mergeable: Option<bool>, head: Sha)

  const NO_REQUIREMENT := "none"
  const REVIEWER_DETERMINISTIC_RULES := "reviewer:rules"

  datatype Plan = Plan(
    runId: string,
    branch: string,
    baseSha: Sha,
    reviewer: Option<string>,
    requirementDigest: Option<string>,
    ruleset: string,
    policy: Policy,
    resumed: bool,
    fileIssueOnExhaustedChecks: bool,
    checksWaitSeconds: Option<int>,
    checksPollSeconds: Option<int>,
    mergeabilityReads: Option<int>,
    progressIntervalSeconds: Option<int>,
    slotted: bool)
  {
    function MaxRounds(): int { policy.maxReviewRounds.GetOr(3) }
    function Wait(): int { checksWaitSeconds.GetOr(300) }
    function Poll(): int { checksPollSeconds.GetOr(15) }
    function Budget(): int { if Wait() > 0 then Wait() else 0 }
    function StatusReads(): int { mergeabilityReads.GetOr(5) }
    function IntervalMs(): int { progressIntervalSeconds.GetOr(30) * 1000 }
    predicate NeedsApproval() { policy.reviewMode == Some(Label) }
  }

  /** What a review of `head` under this plan covers. */
  function InputsFor(plan: Plan, head: Sha): Inputs {
    Inputs(head, plan.baseSha, plan.policy, plan.ruleset,
           plan.reviewer.GetOr(REVIEWER_DETERMINISTIC_RULES),
           plan.requirementDigest.GetOr(NO_REQUIREMENT))
  }

  function ReviewedFor(plan: Plan, head: Sha): Reviewed {
    Reviewed(Digest(InputsFor(plan, head)), InputsFor(plan, head))
  }

  function ApprovalFor(plan: Plan, head: Sha): Approval {
    Approval(Digest(InputsFor(plan, head)), plan.policy.approvalLabel.GetOr(""))
  }

  /** The part of a record the progress throttle compares: the round and the pull request. */
  datatype Signature = Signature(round: int, pr: string)

  function PrText(pr: Option<string>): string {
    pr.GetOr("-")
  }

  function SignatureOf(record: Record): Signature {
    Signature(record.reviewRound, PrText(record.deliveryRef))
  }

  /** One step of a run: a question together with the answer it got. */
  datatype Event =
    | PriorRead(prior: Option<Record>)
    | ClaimAnswered(won: bool)
    | Wrote(record: Record, at: int, forced: bool)
    | AgentRan(round: int)
    | Delivered(round: int, ref: Ref, pr: Option<string>, branch: string)
    | ChecksAnswered(checks: seq<Conclusion>)
    | Waited(seconds: int)
    | ReviewAnswered(round: int, head: Sha, verdict: Verdict)
    | StatusAnswered(status: Status)
    | MergeAsked(head: Sha)
    | MergeLanded
    | Moved(from: State, to: State, rescue: bool)

  datatype Trace = Start | Then(past: Trace, event: Event)

  datatype Delivery = Delivery(round: int, ref: Ref, pr: Option<string>, branch: string)
  datatype Review = Review(round: int, head: Sha, verdict: Verdict)
  datatype Written = Written(record: Record, at: int)

  /** What a run knows: everything below `delivery` is about the delivery of the current round. */
  datatype Evidence = Evidence(
    prior: Option<Record>,
    claimed: bool,
    written: Option<Written>,
    agent: int,
    presented: Option<Sha>,
    approved: Option<Sha>,
    merges: nat,
    landed: bool,
    rescued: bool,
    delivery: Option<Delivery>,
    checks: Option<seq<Conclusion>>,
    polls: nat,
    review: Option<Review>,
    statusReads: nat,
    status: Option<Status>)

  const NOTHING := Evidence(None, false, None, -1, None, None, 0, false, false, None, None, 0, None, 0, None)

  function Observe(plan: Plan, ev: Evidence, e: Event): Evidence {
    match e
    case PriorRead(prior) => ev.(prior := prior)
    case ClaimAnswered(won) => ev.(claimed := won)
    case Wrote(record, at, _) => ev.(written := Some(Written(record, at)))
    case AgentRan(round) => ev.(agent := round)
    case Delivered(round, ref, pr, branch) =>
      ev.(delivery := Some(Delivery(round, ref, pr, branch)),
          checks := None, polls := 0, review := None, statusReads := 0, status := None)
    case ChecksAnswered(checks) => ev.(checks := Some(checks))
    case Waited(_) => ev.(polls := ev.polls + 1)
    case ReviewAnswered(round, head, verdict) =>
      ev.(review := Some(Review(round, head, verdict)),
          presented := if verdict.Findings? then ev.presented else Some(head),
          approved := if verdict.Clean? && plan.NeedsApproval() then Some(head) else ev.approved)
    case StatusAnswered(status) => ev.(status := Some(status), statusReads := ev.statusReads + 1)
    case MergeAsked(_) => ev.(merges := ev.merges + 1)
    case MergeLanded => ev.(landed := true)
    case Moved(_, _, rescue) => ev.(rescued := ev.rescued || rescue)
  }

  function Summary(plan: Plan, t: Trace): Evidence {
    match t
    case Start => NOTHING
    case Then(past, e) => Observe(plan, Summary(plan, past), e)
  }

  predicate AnyFailed(checks: seq<Conclusion>) {
    Failure in checks
  }

  predicate AnyPending(checks: seq<Conclusion>) {
    Pending in checks
  }

  predicate RedChecks(ev: Evidence) {
    ev.checks.Some? && AnyFailed(ev.checks.value)
  }

  predicate HeadMoved(ev: Evidence) {
    ev.delivery.Some? && ev.status.Some? && ev.status.value.head != ev.delivery.value.ref.head
  }

  predicate LastRound(plan: Plan, ev: Evidence) {
    ev.delivery.Some? && ev.delivery.value.round + 1 >= plan.MaxRounds()
  }

  /**
   * A human's approval, given in an earlier run, still describes what this run would merge.
   * Only a label-mode delivery that already had a pull request on record asks for one.
   */
  predicate Fresh(plan: Plan, prior: Option<Record>, head: Sha) {
    plan.NeedsApproval() && prior.Some? && prior.value.deliveryRef.Some? ==>
      prior.value.reviewed.Some? && prior.value.reviewed.value.digest == Digest(InputsFor(plan, head))
  }

  /** The record this run would write now. */
  function RecordNow(plan: Plan, ev: Evidence): Record {
    Record(
      plan.runId,
      if ev.delivery.Some? then ev.delivery.value.round else 0,
      if ev.delivery.Some? then ev.delivery.value.pr else None,
      if ev.delivery.Some? then ev.delivery.value.branch else plan.branch,
      if ev.presented.Some? then Some(ReviewedFor(plan, ev.presented.value)) else None,
      if ev.approved.Some? then Some(ApprovalFor(plan, ev.approved.value)) else None)
  }

  /** Work for the agent: a red pipeline or review findings with a round left, or a head that moved. */
  predicate NeedsFix(plan: Plan, ev: Evidence) {
    || (RedChecks(ev) && !LastRound(plan, ev))
    || (ev.review.Some? && ev.review.value.verdict.Findings? && !LastRound(plan, ev))
    || HeadMoved(ev)
  }

  /** Time is counted in polls, not read from a clock. */
  function Elapsed(polls: nat, interval: int): int {
    if polls == 0 then 0 else Elapsed(polls - 1, interval) + interval
  }

  lemma {:induction false} ElapsedAdds(a: nat, b: nat, interval: int)
    ensures Elapsed(a + b, interval) == Elapsed(a, interval) + Elapsed(b, interval)
  {
    if b > 0 {
      ElapsedAdds(a, b - 1, interval);
    }
  }

  lemma {:induction false} ElapsedNonNegative(polls: nat, interval: int)
    requires interval >= 0
    ensures Elapsed(polls, interval) >= 0
  {
    if polls > 0 {
      ElapsedNonNegative(polls - 1, interval);
    }
  }

  predicate ChecksBudgetSpent(plan: Plan, ev: Evidence) {
    ev.checks.Some? && AnyPending(ev.checks.value) && Elapsed(ev.polls + 1, plan.Poll()) > plan.Wait()
  }

  predicate ReviewStale(plan: Plan, ev: Evidence) {
    ev.review.Some? && ev.review.value.verdict.Clean? && !Fresh(plan, ev.prior, ev.review.value.head)
  }

  predicate MergeabilityUnknown(plan: Plan, ev: Evidence) {
    ev.status.Some? && ev.status.value.mergeable.None? && !HeadMoved(ev) && ev.statusReads >= plan.StatusReads()
  }

  /** A decision no automation may take. */
  predicate NeedsHuman(plan: Plan, ev: Evidence) {
    || (LastRound(plan, ev) && RedChecks(ev))
    || (LastRound(plan, ev) && ev.review.Some? && ev.review.value.verdict.Findings?)
    || (LastRound(plan, ev) && HeadMoved(ev))
    || ChecksBudgetSpent(plan, ev)
    || ReviewStale(plan, ev)
    || MergeabilityUnknown(plan, ev)
    || plan.MaxRounds() <= 0
  }

  /** Everything that has to be in hand before the host is asked to merge `head`. */
  predicate MergeJustified(plan: Plan, ev: Evidence, head: Sha) {
    && ev.merges == 0
    && ev.delivery.Some? && ev.delivery.value.ref.head == head
    && ev.checks.Some? && !AnyFailed(ev.checks.value) && !AnyPending(ev.checks.value)
    && ev.review == Some(Review(ev.delivery.value.round, head, Clean))
    && ev.status.Some? && ev.status.value.head == head && ev.status.value.mergeable.Some?
    && Fresh(plan, ev.prior, head)
    && ev.written.Some? && ev.written.value.record == RecordNow(plan, ev)
  }

  /** The rule for one step. `quiet` says that nobody but this run moves the item meanwhile. */
  predicate Allowed(plan: Plan, quiet: bool, ev: Evidence, e: Event) {
    && !ev.rescued
    && (e.PriorRead? || e.ClaimAnswered? || (e.Moved? && e.rescue) || ev.claimed)
    && match e
       case PriorRead(_) => ev == NOTHING
       case ClaimAnswered(_) => ev == NOTHING.(prior := ev.prior)
       case Wrote(record, at, forced) =>
         && record == RecordNow(plan, ev)
         && (ev.written.Some? ==> at >= ev.written.value.at)
         && (!forced && ev.written.Some? && SignatureOf(ev.written.value.record) == SignatureOf(record) ==>
               at - ev.written.value.at >= plan.IntervalMs())
         && (forced ==> ev.review.Some? && !ev.review.value.verdict.Findings?)
       case AgentRan(round) =>
         && 0 <= round < plan.MaxRounds()
         && ev.agent < round
         && (ev.delivery.Some? ==> ev.delivery.value.round < round)
         && !(plan.resumed && round == 0)
       case Delivered(round, ref, pr, branch) =>
         && 0 <= round < plan.MaxRounds()
         && (ev.delivery.Some? ==> ev.delivery.value.round < round)
         && (ev.agent == round || (plan.resumed && round == 0))
         && ev.merges == 0
       case ChecksAnswered(_) =>
         && ev.delivery.Some? && ev.review.None?
         && (ev.checks.Some? ==> AnyPending(ev.checks.value))
       case Waited(seconds) =>
         && seconds == plan.Poll()
         && ev.delivery.Some? && ev.review.None?
         && ev.checks.Some? && AnyPending(ev.checks.value) && (ev.polls == 0 ==> !AnyFailed(ev.checks.value))
         && Elapsed(ev.polls + 1, plan.Poll()) <= plan.Wait()
       case ReviewAnswered(round, head, _) =>
         && ev.delivery.Some? && ev.delivery.value.round == round && ev.delivery.value.ref.head == head
         && ev.checks.Some? && !AnyFailed(ev.checks.value) && !AnyPending(ev.checks.value)
         && ev.review.None? && ev.merges == 0
       case StatusAnswered(_) =>
         && ev.review.Some? && ev.review.value.verdict.Clean?
         && Fresh(plan, ev.prior, ev.review.value.head)
         && (ev.statusReads == 0 || ev.statusReads < plan.StatusReads())
         && (ev.status.Some? ==> ev.status.value.mergeable.None?)
         && ev.merges == 0
       case MergeAsked(head) => MergeJustified(plan, ev, head)
       case MergeLanded => ev.merges == 1
       case Moved(from, to, rescue) =>
         if rescue then to == Blocked
         else
           && (quiet ==> CanTransition(from, to))
           && match to
              case PrOpen => ev.delivery.Some? && ev.checks.None?
              case FixNeeded => NeedsFix(plan, ev)
              case Merged => ev.landed
              case Blocked => NeedsHuman(plan, ev)
              case _ => false
  }

  predicate Safe(plan: Plan, quiet: bool, t: Trace) {
    match t
    case Start => true
    case Then(past, e) => Safe(plan, quiet, past) && Allowed(plan, quiet, Summary(plan, past), e)
  }

  /** `ev` is what the trace amounts to, and the trace followed the rules. */
  predicate Faithful(plan: Plan, quiet: bool, t: Trace, ev: Evidence) {
    ev == Summary(plan, t) && Safe(plan, quiet, t)
  }

  /** Everything but the last record written is as before. */
  predicate SameButWritten(a: Evidence, b: Evidence) {
    SameRun(a, b) && SameDelivery(a, b) && a.checks == b.checks && a.polls == b.polls && SameReview(a, b)
  }

  predicate SameDelivery(a: Evidence, b: Evidence) {
    a.agent == b.agent && a.delivery == b.delivery
  }

  predicate SameReview(a: Evidence, b: Evidence) {
    a.review == b.review && a.statusReads == b.statusReads && a.status == b.status
  }

  /** What does not belong to one round is as before. */
  predicate SameRun(a: Evidence, b: Evidence) {
    && a.prior == b.prior && a.claimed == b.claimed && a.presented == b.presented && a.approved == b.approved
    && a.merges == b.merges && a.landed == b.landed && a.rescued == b.rescued
  }

  /** The branch of this round was delivered, and nothing was asked about it yet. */
  predicate JustDelivered(ev: Evidence, round: int) {
    && ev.delivery.Some? && ev.delivery.value.round == round
    && ev.checks.None? && ev.polls == 0 && ev.review.None? && ev.statusReads == 0 && ev.status.None?
  }
}
