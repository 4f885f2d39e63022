/**
 * What the rules of DeliveryProtocol amount to, for every safe trace. Each statement is in
 * terms of functions that read the trace directly, not of the evidence the rules fold it into.
 */
module DeliveryLaws {
  import opened Wrappers
  import opened BoardState
  import opened DeliveryProtocol

  ghost predicate Prefix(p: Trace, t: Trace) {
    p == t || (t.Then? && Prefix(p, t.past))
  }

  /** A prefix of a safe trace is safe; in particular its last step followed the rule. */
  lemma {:induction false} SafePrefix(plan: Plan, quiet: bool, p: Trace, t: Trace)
    requires Safe(plan, quiet, t) && Prefix(p, t)
    ensures Safe(plan, quiet, p)
  {
    if p != t {
      SafePrefix(plan, quiet, p, t.past);
    }
  }

  /** How one step changes what is known, field by field. */
  lemma StepEvidence(plan: Plan, ev: Evidence, e: Event)
    ensures var now := Observe(plan, ev, e);
      && now.delivery == (if e.Delivered? then Some(Delivery(e.round, e.ref, e.pr, e.branch)) else ev.delivery)
      && now.checks == (if e.Delivered? then None else if e.ChecksAnswered? then Some(e.checks) else ev.checks)
      && now.status == (if e.Delivered? then None else if e.StatusAnswered? then Some(e.status) else ev.status)
      && now.polls == (if e.Delivered? then 0 else if e.Waited? then ev.polls + 1 else ev.polls)
      && now.statusReads ==
         (if e.Delivered? then 0 else if e.StatusAnswered? then ev.statusReads + 1 else ev.statusReads)
      && now.prior == (if e.PriorRead? then e.prior else ev.prior)
      && now.written == (if e.Wrote? then Some(Written(e.record, e.at)) else ev.written)
      && now.agent == (if e.AgentRan? then e.round else ev.agent)
      && now.claimed == (if e.ClaimAnswered? then e.won else ev.claimed)
      && now.merges == (if e.MergeAsked? then ev.merges + 1 else ev.merges)
      && now.landed == (e.MergeLanded? || ev.landed)
  {
  }

  lemma StepReview(plan: Plan, ev: Evidence, e: Event)
    ensures var now := Observe(plan, ev, e);
      && now.review ==
         (if e.Delivered? then None
          else if e.ReviewAnswered? then Some(Review(e.round, e.head, e.verdict)) else ev.review)
      && now.presented == (if e.ReviewAnswered? && !e.verdict.Findings? then Some(e.head) else ev.presented)
      && now.approved ==
         (if e.ReviewAnswered? && e.verdict.Clean? && plan.NeedsApproval() then Some(e.head) else ev.approved)
  {
  }

  function MergeAsks(t: Trace): nat {
    match t
    case Start => 0
    case Then(past, e) => MergeAsks(past) + if e.MergeAsked? then 1 else 0
  }

  /** The host is asked to merge at most once in a run. */
  lemma {:induction false} MergeAskedAtMostOnce(plan: Plan, quiet: bool, t: Trace)
    requires Safe(plan, quiet, t)
    ensures MergeAsks(t) <= 1
    ensures MergeAsks(t) == Summary(plan, t).merges
  {
    if t.Then? {
      MergeAskedAtMostOnce(plan, quiet, t.past);
      StepEvidence(plan, Summary(plan, t.past), t.event);
      MergeAskedFresh(plan, quiet, Summary(plan, t.past), t.event);
    }
  }

  lemma MergeAskedFresh(plan: Plan, quiet: bool, ev: Evidence, e: Event)
    requires Allowed(plan, quiet, ev, e)
    ensures e.MergeAsked? ==> ev.merges == 0
    ensures e.MergeLanded? ==> ev.merges == 1
  {
  }

  /** The most recent delivery, and what was learned about it since. */
  function LatestDelivery(t: Trace): Option<Delivery> {
    match t
    case Start => None
    case Then(past, Delivered(round, ref, pr, branch)) => Some(Delivery(round, ref, pr, branch))
    case Then(past, _) => LatestDelivery(past)
  }

  function LatestChecks(t: Trace): Option<seq<Conclusion>> {
    match t
    case Start => None
    case Then(past, ChecksAnswered(checks)) => Some(checks)
    case Then(past, Delivered(_, _, _, _)) => None
    case Then(past, _) => LatestChecks(past)
  }

  function LatestReview(t: Trace): Option<Review> {
    match t
    case Start => None
    case Then(past, ReviewAnswered(round, head, verdict)) => Some(Review(round, head, verdict))
    case Then(past, Delivered(_, _, _, _)) => None
    case Then(past, _) => LatestReview(past)
  }

  function LatestStatus(t: Trace): Option<Status> {
    match t
    case Start => None
    case Then(past, StatusAnswered(status)) => Some(status)
    case Then(past, Delivered(_, _, _, _)) => None
    case Then(past, _) => LatestStatus(past)
  }

  function LatestWrite(t: Trace): Option<Record> {
    match t
    case Start => None
    case Then(past, Wrote(record, _, _)) => Some(record)
    case Then(past, _) => LatestWrite(past)
  }

  function PriorOf(t: Trace): Option<Record> {
    match t
    case Start => None
    case Then(past, PriorRead(prior)) => prior
    case Then(past, _) => PriorOf(past)
  }

  function PollsSinceDelivery(t: Trace): nat {
    match t
    case Start => 0
    case Then(past, Waited(_)) => PollsSinceDelivery(past) + 1
    case Then(past, Delivered(_, _, _, _)) => 0
    case Then(past, _) => PollsSinceDelivery(past)
  }

  function StatusReadsOf(t: Trace): nat {
    match t
    case Start => 0
    case Then(past, StatusAnswered(_)) => StatusReadsOf(past) + 1
    case Then(past, Delivered(_, _, _, _)) => 0
    case Then(past, _) => StatusReadsOf(past)
  }

  /** The evidence is what the trace says was seen last. */
  lemma {:induction false} EvidenceIsLatest(plan: Plan, t: Trace)
    ensures Summary(plan, t).delivery == LatestDelivery(t) && Summary(plan, t).checks == LatestChecks(t)
    ensures Summary(plan, t).review == LatestReview(t) && Summary(plan, t).status == LatestStatus(t)
    ensures Summary(plan, t).prior == PriorOf(t)
    ensures Summary(plan, t).polls == PollsSinceDelivery(t) && Summary(plan, t).statusReads == StatusReadsOf(t)
    ensures (if Summary(plan, t).written.Some? then Some(Summary(plan, t).written.value.record) else None) ==
      LatestWrite(t)
  {
    if t.Then? {
      EvidenceIsLatest(plan, t.past);
      StepEvidence(plan, Summary(plan, t.past), t.event);
      StepReview(plan, Summary(plan, t.past), t.event);
    }
  }

  /** A clean review is what `presented` remembers, until the next review. */
  lemma {:induction false} ReviewIsPresented(plan: Plan, t: Trace)
    ensures LatestReview(t).Some? && !LatestReview(t).value.verdict.Findings? ==>
      Summary(plan, t).presented == Some(LatestReview(t).value.head)
    ensures LatestReview(t).Some? && LatestReview(t).value.verdict.Clean? && plan.NeedsApproval() ==>
      Summary(plan, t).approved == Some(LatestReview(t).value.head)
  {
    if t.Then? {
      ReviewIsPresented(plan, t.past);
      StepReview(plan, Summary(plan, t.past), t.event);
    }
  }

  /**
   * Whatever was answered: when the host is asked to merge a head, that head is the one last
   * delivered; its checks were last seen without a failure and without a pending one; the last
   * review is of this round and this head and is clean; the host last reported this head with a
   * known mergeability; no approval on record is contradicted; and the record last written
   * names this run, this round and exactly the inputs of this review.
   */
  lemma MergeNeedsEverything(plan: Plan, quiet: bool, t: Trace, p: Trace, head: Sha)
    requires Safe(plan, quiet, t) && Prefix(Then(p, MergeAsked(head)), t)
    ensures LatestDelivery(p).Some? && LatestDelivery(p).value.ref.head == head
    ensures LatestChecks(p).Some? && Failure !in LatestChecks(p).value && Pending !in LatestChecks(p).value
    ensures LatestReview(p) == Some(Review(LatestDelivery(p).value.round, head, Clean))
    ensures LatestStatus(p).Some? && LatestStatus(p).value.head == head && LatestStatus(p).value.mergeable.Some?
    ensures Fresh(plan, PriorOf(p), head)
    ensures LatestWrite(p).Some? && LatestWrite(p).value.runId == plan.runId
    ensures LatestWrite(p).value.reviewRound == LatestDelivery(p).value.round
    ensures LatestWrite(p).value.deliveryRef == LatestDelivery(p).value.pr
    ensures LatestWrite(p).value.reviewed == Some(ReviewedFor(plan, head))
    ensures plan.NeedsApproval() ==> LatestWrite(p).value.approval == Some(ApprovalFor(plan, head))
  {
    SafePrefix(plan, quiet, Then(p, MergeAsked(head)), t);
    EvidenceIsLatest(plan, p);
    ReviewIsPresented(plan, p);
  }

  /**
   * Approval freshness across two runs: the first presented a head for approval and left its
   * record, naming a pull request; the second read that record before it started. If the second
   * merges anything in label mode, all six inputs are the ones that were presented.
   */
  lemma ApprovalBindsTheVersion(
    plan1: Plan, quiet1: bool, t1: Trace, presented: Review,
    plan2: Plan, quiet2: bool, t2: Trace, p: Trace, head: Sha)
    requires Safe(plan1, quiet1, t1) && LatestReview(t1) == Some(presented) && presented.verdict.AwaitingHuman?
    requires LatestWrite(t1).Some? && LatestWrite(t1).value == RecordNow(plan1, Summary(plan1, t1))
    requires LatestDelivery(t1).Some? && LatestDelivery(t1).value.pr.Some?
    requires Safe(plan2, quiet2, t2) && PriorOf(t2) == LatestWrite(t1) && plan2.NeedsApproval()
    requires Prefix(Then(p, MergeAsked(head)), t2)
    ensures head == presented.head && plan2.baseSha == plan1.baseSha && plan2.policy == plan1.policy
    ensures plan2.ruleset == plan1.ruleset
    ensures InputsFor(plan2, head) == InputsFor(plan1, presented.head)
  {
    EvidenceIsLatest(plan1, t1);
    ReviewIsPresented(plan1, t1);
    MergeNeedsEverything(plan2, quiet2, t2, p, head);
    SafePrefix(plan2, quiet2, Then(p, MergeAsked(head)), t2);
    StepEvidence(plan2, Summary(plan2, p), MergeAsked(head));
    PriorIsReadFirst(plan2, quiet2, Then(p, MergeAsked(head)), t2);
    assert LatestWrite(t1).value.reviewed == Some(ReviewedFor(plan1, presented.head));
    assert ReviewedFor(plan1, presented.head).digest == Digest(InputsFor(plan2, head));
  }

  // What a record on the board binds a later run to.

  predicate NamesPullRequest(prior: Option<Record>) {
    prior.Some? && prior.value.deliveryRef.Some?
  }

  /** A label-mode run is held to what was presented exactly if the record it read names a pull request. */
  lemma BindsExactlyWhen(plan: Plan, prior: Option<Record>)
    ensures (forall head :: Fresh(plan, prior, head)) <==> !(plan.NeedsApproval() && NamesPullRequest(prior))
  {
    assert InputsFor(plan, "a").head != InputsFor(plan, "b").head;
    assert plan.NeedsApproval() && NamesPullRequest(prior) ==> !Fresh(plan, prior, "a") || !Fresh(plan, prior, "b");
  }

  /** The record last written says what the run knew when it wrote it. */
  lemma {:induction false} LastWriteIsOf(plan: Plan, quiet: bool, t: Trace) returns (p: Trace)
    requires Safe(plan, quiet, t) && LatestWrite(t).Some?
    ensures Prefix(p, t) && LatestWrite(t) == Some(RecordNow(plan, Summary(plan, p)))
  {
    if t.event.Wrote? {
      p := t.past;
      assert Prefix(p, t.past);
    } else {
      p := LastWriteIsOf(plan, quiet, t.past);
    }
  }

  /**
   * A run that ends before its first delivery leaves a record without a pull request and without
   * what an earlier run presented, if it leaves one; so nothing binds the run that reads it.
   */
  lemma UndeliveredRunUnbinds(plan: Plan, quiet: bool, t: Trace, next: Plan, head: Sha)
    requires Safe(plan, quiet, t) && LatestDelivery(t).None? && LatestWrite(t).Some?
    ensures LatestWrite(t).value.reviewed.None? && !NamesPullRequest(LatestWrite(t))
    ensures Fresh(next, LatestWrite(t), head)
  {
    var p := LastWriteIsOf(plan, quiet, t);
    NoDeliveryBefore(p, t);
    SafePrefix(plan, quiet, p, t);
    NothingPresentedBeforeDelivery(plan, quiet, p);
  }

  lemma {:induction false} NoDeliveryBefore(p: Trace, t: Trace)
    requires Prefix(p, t) && LatestDelivery(t).None?
    ensures LatestDelivery(p).None?
  {
    if p != t {
      NoDeliveryBefore(p, t.past);
    }
  }

  lemma {:induction false} NothingPresentedBeforeDelivery(plan: Plan, quiet: bool, t: Trace)
    requires Safe(plan, quiet, t) && LatestDelivery(t).None?
    ensures Summary(plan, t).presented.None? && Summary(plan, t).delivery.None?
  {
    EvidenceIsLatest(plan, t);
    if t.Then? {
      EvidenceIsLatest(plan, t.past);
      NothingPresentedBeforeDelivery(plan, quiet, t.past);
      StepReview(plan, Summary(plan, t.past), t.event);
    }
  }

  /** One more step that follows the rules. */
  lemma Goes(plan: Plan, t: Trace, ev: Evidence, e: Event) returns (t': Trace, ev': Evidence)
    requires Faithful(plan, true, t, ev) && Allowed(plan, true, ev, e)
    ensures t' == Then(t, e) && ev' == Observe(plan, ev, e) && Faithful(plan, true, t', ev')
  {
    t', ev' := Then(t, e), Observe(plan, ev, e);
  }

  lemma ClaimedRun(plan: Plan, prior: Option<Record>) returns (t: Trace, ev: Evidence)
    ensures Faithful(plan, true, t, ev) && ev == NOTHING.(prior := prior, claimed := true)
    ensures LatestWrite(t) == None && PriorOf(t) == prior
  {
    t, ev := Goes(plan, Start, NOTHING, PriorRead(prior));
    t, ev := Goes(plan, t, ev, ClaimAnswered(true));
    EvidenceIsLatest(plan, t);
  }

  /** The record with which a run begins. */
  function FirstRecord(plan: Plan): Record {
    Record(plan.runId, 0, None, plan.branch, None, None)
  }

  /** A run that claims the item, writes its first record, and dies. */
  lemma DyingRun(plan: Plan, prior: Option<Record>) returns (t: Trace, ev: Evidence)
    ensures Faithful(plan, true, t, ev) && PriorOf(t) == prior && LatestDelivery(t).None?
    ensures LatestWrite(t) == Some(FirstRecord(plan))
    ensures ev == NOTHING.(prior := prior, claimed := true, written := Some(Written(FirstRecord(plan), 0)))
  {
    var claimed;
    t, claimed := ClaimedRun(plan, prior);
    assert RecordNow(plan, claimed) == FirstRecord(plan);
    t, ev := Goes(plan, t, claimed, Wrote(FirstRecord(plan), 0, false));
    EvidenceIsLatest(plan, t);
  }

  lemma DeliveredRun(plan: Plan, prior: Option<Record>, head: Sha, branch: string) returns (t: Trace, ev: Evidence)
    requires plan.MaxRounds() > 0 && !plan.resumed
    ensures Faithful(plan, true, t, ev) && JustDelivered(ev, 0) && !ev.rescued && ev.merges == 0 && ev.claimed
    ensures ev.prior == prior && ev.delivery == Some(Delivery(0, Ref("", head), None, branch))
    ensures ev.written == Some(Written(FirstRecord(plan), 0))
    ensures ev.presented.None? && ev.approved.None?
  {
    t, ev := DyingRun(plan, prior);
    t, ev := Goes(plan, t, ev, AgentRan(0));
    t, ev := Goes(plan, t, ev, Delivered(0, Ref("", head), None, branch));
    t, ev := Goes(plan, t, ev, Moved(Claimed, PrOpen, false));
  }

  /** From there, one that delivers `head` and has it reviewed. */
  lemma ReviewedRun(plan: Plan, prior: Option<Record>, head: Sha) returns (t: Trace, ev: Evidence)
    requires plan.MaxRounds() > 0 && !plan.resumed
    ensures Faithful(plan, true, t, ev) && PriorOf(t) == prior && !ev.rescued && ev.merges == 0 && ev.claimed
    ensures ev.prior == prior && ev.delivery == Some(Delivery(0, Ref("", head), None, plan.branch))
    ensures ev.checks == Some([Success]) && ev.review == Some(Review(0, head, Clean)) && ev.status.None?
    ensures ev.statusReads == 0 && ev.written.Some? && ev.written.value.record == RecordNow(plan, ev)
  {
    t, ev := DeliveredRun(plan, prior, head, plan.branch);
    t, ev := Goes(plan, t, ev, ChecksAnswered([Success]));
    t, ev := Goes(plan, t, ev, ReviewAnswered(0, head, Clean));
    t, ev := Goes(plan, t, ev, Wrote(RecordNow(plan, ev), 0, true));
    EvidenceIsLatest(plan, t);
  }

  /** And merged, if no approval on record speaks against it. */
  lemma MergingRun(plan: Plan, prior: Option<Record>, head: Sha) returns (p: Trace, t: Trace, ev: Evidence)
    requires plan.MaxRounds() > 0 && !plan.resumed && Fresh(plan, prior, head)
    ensures Faithful(plan, true, t, ev) && PriorOf(t) == prior && ev.landed && !ev.rescued && ev.claimed
    ensures Prefix(Then(p, MergeAsked(head)), t)
  {
    t, ev := ReviewedRun(plan, prior, head);
    t, ev := Goes(plan, t, ev, StatusAnswered(Status(Some(true), head)));
    p := t;
    t, ev := Goes(plan, t, ev, MergeAsked(head));
    t, ev := Goes(plan, t, ev, MergeLanded);
    EvidenceIsLatest(plan, t);
    assert Prefix(Then(p, MergeAsked(head)), t.past);
  }

  /**
   * So freshness does not carry over a run in between that died early: whatever was presented and is
   * on record, a second run that dies after its first record lets a third one, in label mode, merge
   * any head under any policy.
   */
  lemma ApprovalIsLostInBetween(presented: Option<Record>, plan2: Plan, plan3: Plan, head: Sha)
    returns (t2: Trace, t3: Trace, p: Trace)
    requires plan3.NeedsApproval() && plan3.MaxRounds() > 0 && !plan3.resumed
    ensures Safe(plan2, true, t2) && PriorOf(t2) == presented
    ensures Safe(plan3, true, t3) && PriorOf(t3) == LatestWrite(t2) && Prefix(Then(p, MergeAsked(head)), t3)
  {
    var ev2, ev3;
    t2, ev2 := DyingRun(plan2, presented);
    UndeliveredRunUnbinds(plan2, true, t2, plan3, head);
    p, t3, ev3 := MergingRun(plan3, LatestWrite(t2), head);
  }

  /**
   * The board can say `merged` while the run ends by rescuing the item, which the table refuses:
   * after the last move something can still throw.
   */
  lemma MergedThenRescued(plan: Plan, prior: Option<Record>, head: Sha) returns (t: Trace)
    requires plan.MaxRounds() > 0 && !plan.resumed && Fresh(plan, prior, head)
    ensures Safe(plan, true, Then(Then(t, Moved(PrOpen, Merged, false)), Moved(Merged, Blocked, true)))
    ensures !CanTransition(Merged, Blocked) && MergeAsks(t) == 1
  {
    var p, ev;
    p, t, ev := MergingRun(plan, prior, head);
    LandedAfterAsking(plan, true, t);
    var t', ev' := Goes(plan, t, ev, Moved(PrOpen, Merged, false));
    t', ev' := Goes(plan, t', ev', Moved(Merged, Blocked, true));
  }

  /** The prior record is read before anything else, and never again. */
  lemma {:induction false} PriorIsReadFirst(plan: Plan, quiet: bool, p: Trace, t: Trace)
    requires Safe(plan, quiet, t) && Prefix(p, t) && Summary(plan, p).claimed
    ensures Summary(plan, t).claimed && PriorOf(p) == PriorOf(t)
  {
    if p != t {
      PriorIsReadFirst(plan, quiet, p, t.past);
      StepEvidence(plan, Summary(plan, t.past), t.event);
      NothingReadAfterClaim(plan, quiet, Summary(plan, t.past), t.event);
    }
  }

  lemma NothingReadAfterClaim(plan: Plan, quiet: bool, ev: Evidence, e: Event)
    requires Allowed(plan, quiet, ev, e) && ev.claimed
    ensures !e.PriorRead? && !e.ClaimAnswered?
  {
  }

  function AgentRuns(t: Trace): nat {
    match t
    case Start => 0
    case Then(past, AgentRan(_)) => AgentRuns(past) + 1
    case Then(past, _) => AgentRuns(past)
  }

  /** The agent runs at most once a round; a resumed run spends its first round without it. */
  lemma {:induction false} AgentRunsBounded(plan: Plan, quiet: bool, t: Trace)
    requires Safe(plan, quiet, t)
    ensures AgentRuns(t) <= Summary(plan, t).agent + 1
    ensures plan.resumed ==> AgentRuns(t) <= Summary(plan, t).agent || AgentRuns(t) == 0
    ensures -1 <= Summary(plan, t).agent
    ensures AgentRuns(t) > 0 ==>
      AgentRuns(t) <= if plan.resumed then plan.MaxRounds() - 1 else plan.MaxRounds()
  {
    if t.Then? {
      AgentRunsBounded(plan, quiet, t.past);
      StepEvidence(plan, Summary(plan, t.past), t.event);
      if t.event.AgentRan? {
        AgentRoundsGrow(plan, quiet, Summary(plan, t.past), t.event);
      }
    }
  }

  lemma AgentRoundsGrow(plan: Plan, quiet: bool, ev: Evidence, e: Event)
    requires Allowed(plan, quiet, ev, e) && e.AgentRan?
    ensures ev.agent < e.round < plan.MaxRounds() && 0 <= e.round && (plan.resumed ==> e.round > 0)
  {
  }

  /** Counting polls is multiplying. */
  lemma {:induction false} ElapsedIsProduct(polls: nat, interval: int)
    ensures Elapsed(polls, interval) == polls * interval
  {
    if polls > 0 {
      ElapsedIsProduct(polls - 1, interval);
    }
  }

  /**
   * In each round the checks are polled at most as often as the interval fits into the budget,
   * and the status is read at most `mergeabilityReads` times, but at least the once it needs.
   */
  lemma {:induction false} WaitingBounded(plan: Plan, quiet: bool, t: Trace)
    requires Safe(plan, quiet, t) && plan.Poll() > 0
    ensures PollsSinceDelivery(t) * plan.Poll() <= plan.Budget()
    ensures StatusReadsOf(t) <= if plan.StatusReads() > 1 then plan.StatusReads() else 1
  {
    if t.Then? {
      WaitingBounded(plan, quiet, t.past);
      EvidenceIsLatest(plan, t.past);
      EvidenceIsLatest(plan, t);
      ElapsedIsProduct(PollsSinceDelivery(t), plan.Poll());
    }
  }

  /** Every move asked for outside the rescue is in the table, when nobody else moves the item. */
  lemma MovesAreLegal(plan: Plan, t: Trace, p: Trace, from: State, to: State)
    requires Safe(plan, true, t) && Prefix(Then(p, Moved(from, to, false)), t)
    ensures CanTransition(from, to)
    ensures to == Merged ==> MergeAsks(p) == 1
  {
    SafePrefix(plan, true, Then(p, Moved(from, to, false)), t);
    LandedAfterAsking(plan, true, p);
  }

  lemma {:induction false} LandedAfterAsking(plan: Plan, quiet: bool, t: Trace)
    requires Safe(plan, quiet, t)
    ensures Summary(plan, t).landed ==> MergeAsks(t) == 1
  {
    MergeAskedAtMostOnce(plan, quiet, t);
    if t.Then? {
      LandedAfterAsking(plan, quiet, t.past);
      MergeAskedAtMostOnce(plan, quiet, t.past);
      StepEvidence(plan, Summary(plan, t.past), t.event);
      MergeAskedFresh(plan, quiet, Summary(plan, t.past), t.event);
    }
  }

  /** When the last unforced write of a signature was made. */
  function LastUnforced(t: Trace, sig: Signature): Option<int> {
    match t
    case Start => None
    case Then(past, Wrote(record, at, forced)) =>
      if !forced && SignatureOf(record) == sig then Some(at) else LastUnforced(past, sig)
    case Then(past, _) => LastUnforced(past, sig)
  }

  /** A signature this run has left behind. */
  predicate Past(plan: Plan, ev: Evidence, sig: Signature) {
    var now := SignatureOf(RecordNow(plan, ev));
    sig.round < now.round || (sig.round == now.round && sig != now)
  }

  /** An earlier signature is either the one last written, or one that cannot come back. */
  lemma {:induction false} SignatureNeverReturns(plan: Plan, quiet: bool, t: Trace, sig: Signature)
    requires Safe(plan, quiet, t) && LastUnforced(t, sig).Some?
    ensures Unrepeatable(plan, Summary(plan, t), sig, LastUnforced(t, sig).value)
  {
    var ev := Summary(plan, t.past);
    DeliveryRoundNonNegative(plan, quiet, t.past);
    if LastUnforced(t.past, sig).Some? {
      SignatureNeverReturns(plan, quiet, t.past, sig);
      StaysUnrepeatable(plan, quiet, ev, t.event, sig, LastUnforced(t.past, sig).value);
    }
    if t.event.Wrote? {
      WrittenIsUnrepeatable(plan, quiet, ev, t.event);
    }
  }

  /** A write of `sig` at time `at` is behind the run, or is the one the throttle remembers. */
  ghost predicate Unrepeatable(plan: Plan, ev: Evidence, sig: Signature, at: int) {
    && ev.written.Some? && at <= ev.written.value.at
    && (sig == SignatureOf(ev.written.value.record) || Past(plan, ev, sig))
    && sig.round <= SignatureOf(RecordNow(plan, ev)).round
    && (ev.delivery.None? ==> sig == SignatureOf(RecordNow(plan, ev)))
  }

  lemma StaysUnrepeatable(plan: Plan, quiet: bool, ev: Evidence, e: Event, sig: Signature, at: int)
    requires Allowed(plan, quiet, ev, e) && Unrepeatable(plan, ev, sig, at)
    requires ev.delivery.Some? ==> ev.delivery.value.round >= 0
    ensures Unrepeatable(plan, Observe(plan, ev, e), sig, at)
  {
    StepEvidence(plan, ev, e);
  }

  lemma WrittenIsUnrepeatable(plan: Plan, quiet: bool, ev: Evidence, e: Event)
    requires e.Wrote? && Allowed(plan, quiet, ev, e)
    ensures Unrepeatable(plan, Observe(plan, ev, e), SignatureOf(e.record), e.at)
  {
  }

  lemma {:induction false} DeliveryRoundNonNegative(plan: Plan, quiet: bool, t: Trace)
    requires Safe(plan, quiet, t)
    ensures Summary(plan, t).delivery.Some? ==> Summary(plan, t).delivery.value.round >= 0
  {
    if t.Then? {
      DeliveryRoundNonNegative(plan, quiet, t.past);
      StepEvidence(plan, Summary(plan, t.past), t.event);
      DeliveredRound(plan, quiet, Summary(plan, t.past), t.event);
    }
  }

  lemma DeliveredRound(plan: Plan, quiet: bool, ev: Evidence, e: Event)
    requires Allowed(plan, quiet, ev, e)
    ensures e.Delivered? ==> e.round >= 0
  {
  }

  /**
   * The throttle takes two records for the same exactly if they have the same round and pull request,
   * where none counts as "-".
   */
  lemma SameSignatureExactlyWhen(a: Record, b: Record)
    ensures SignatureOf(a) == SignatureOf(b) <==>
      a.reviewRound == b.reviewRound && a.deliveryRef.GetOr("-") == b.deliveryRef.GetOr("-")
  {
  }

  /**
   * So the record on the board may keep an older branch: here a run without a pull request has
   * delivered `branch`, may not write again before the interval is over, and has another on record.
   */
  lemma OlderBranchStays(plan: Plan, prior: Option<Record>, head: Sha, branch: string, at: int)
    returns (t: Trace, now: Record)
    requires plan.MaxRounds() > 0 && !plan.resumed && branch != plan.branch
    ensures Safe(plan, true, t) && now == RecordNow(plan, Summary(plan, t)) && now.branch == branch
    ensures LatestWrite(t).Some? && LatestWrite(t).value.branch == plan.branch
    ensures Allowed(plan, true, Summary(plan, t), Wrote(now, at, false)) ==> at >= plan.IntervalMs()
  {
    var ev;
    t, ev := DeliveredRun(plan, prior, head, branch);
    now := RecordNow(plan, ev);
    EvidenceIsLatest(plan, t);
    SameSignatureExactlyWhen(ev.written.value.record, now);
  }

  /** Two progress writes that say the same round and pull request are at least the interval apart. */
  lemma ProgressWritesAreSpaced(plan: Plan, quiet: bool, t: Trace, p: Trace, record: Record, at: int)
    requires Safe(plan, quiet, t) && Prefix(Then(p, Wrote(record, at, false)), t)
    requires LastUnforced(p, SignatureOf(record)).Some?
    ensures at - LastUnforced(p, SignatureOf(record)).value >= plan.IntervalMs()
  {
    SafePrefix(plan, quiet, Then(p, Wrote(record, at, false)), t);
    SignatureNeverReturns(plan, quiet, p, SignatureOf(record));
  }
}
