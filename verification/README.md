# Takumi's protocols and codecs, modelled in Dafny

Takumi lets coding agents work on the items of a task board and decides when what they committed may
land. This project models the parts of it that make that decision and that keep its evidence, and
proves what they guarantee.

- **The delivery loop** (`DeliveryProtocol`, `DeliveryLoop`, `DeliveryLaws`, on `BoardState`): claim,
  agent, deliver, checks, review, merge, with every hook, host and board answer left open. The loop is
  a class over the board, the slot and its own evidence variables; a ghost trace records what it
  asked. Its methods are proved to follow a rule for each step, and the laws are proved for every trace
  that follows the rules.
- **Claim races** (`ClaimRaceGitLab`, `ClaimRaceGitHub`): any number of claimers whose requests
  interleave in any order on a board without conditional writes; and the **slot lock** (`SlotRace`), the
  lock file that is to keep them apart.
- **Ref moves** (`CommitGraph`, `GitDelivery`, `GitLabDelivery`): a commit graph, a remote on which others
  act between any two commands, and the two deliveries that push to it and merge on it.
- **Hidden markers and records** (`CreateMarker`, `HiddenBlock`, `JsonText`, `StateRecord`): what the tools
  write into arbitrary text and have to find there again.
- **Notion** (`NotionContent`, `NotionRecord`, on `Lines`): page bodies that are written in batches and
  completed after a crash, and a property that two writers share.
- **Mirrors** (`FakeBoard`, `MirrorProjection`, `Mirroring`, `MirrorSync`): the reference board, and one
  authority with projections that fail at any request and an id map that may be lost.
- **The bounded poller** (`AwaitChecks`), **label moves** (`StateLabels`), and the two structure editors
  (`ConfigMerge`; `Requirement` on `BlockEdit`).

Requests fail before they take effect, after it, or not at all; unless a contract says `reliable`,
`answered` or `steady`, nothing is assumed about that, and unless it says `undisturbed`, `alone` or `quiet`,
nothing about what others do meanwhile.
`dafny verify dfyconfig.toml` checks everything.

Where the code does not do what its comments promise, the code is modelled and the exact condition is
proved:

- `merge` of the GitLab delivery treats only 405, 406 and 409 as refusals. Any other error status with a
  JSON body that names no state is reported as a merge (`ServerErrorReadsAsMerged`); the report is
  reliable exactly for a 2xx that names the state (`ReportIsReliableExactlyWhen`).
- Two processes that find an abandoned slot lock may both be given the slot, and a process that is
  refused in its second attempt has removed the lock of the one that holds it
  (`AbandonedLockIsTakenTwice`, `RefusedProcessFreesTheSlot`); among processes that stay alive the slot is
  exclusive exactly if no abandoned lock lies there for two to find (`ExclusiveExactlyWhen`).
- A record string that contains `-->` makes its block unreadable (`RecordRoundTrip`, `NoteCanCorrupt`),
  and an opening marker that is never closed counts as no record (`NoRecordExactlyWhen`).
- A transition moves the column of a Notion page, or the labels of a GitHub issue, before it reads the
  record. With an unreadable record it throws after the item has moved (`MoveOfACorruptPage`); a failed
  Notion transition changed nothing exactly if the move is not in the table, no request being lost
  (`NotionRecord.NotionPage.Transition`, `StateLabels.Issue.Transition`).
- `newestBoardStateRecord` never replaces a first record whose date cannot be parsed (`NewestRecord`).
- The claim rule takes over items in flight under another run's record, but on GitHub the delete of
  `ready` then answers 404 and the claim fails after the label was added (`TakeoverFailsHalfway`): of what
  the rule accepts, exactly the items with `ready` can be claimed (`WinsAloneExactlyWhen`). The same delete
  admits one winner at most until somebody puts `ready` back (`DeleteAdmitsOneWinner`,
  `PuttingReadyBackLetsBothWin`).
- A mirror that confirms a search hit by the first create key, as GitLab's board does, files a second copy
  of an item that is projected anew exactly if the item's text carries a create key of its own
  (`RefilingFindsExactlyWhen`, `KeyedItemIsDuplicated`).
- The reference board joins item and run with a colon to find a comment, so two runs on two items can
  share one (`CommentsSharedExactlyWhen`).
- A re-run of the Notion `createWork` reports the body as the page's text whenever it appended something;
  the page does spell it exactly when it held whole first lines of it (`RerunCompletesExactlyWhen`,
  `PartOfALineIsMisreported`).
- A claim is not projected, and a mirror keeps its own table of moves. So the copy of an item that was
  filed in `ready` follows the primary exactly until the first claim (`FollowsExactlyUntilClaimed`) and
  then stays in `ready` although the mirror is reliable (`ClaimStrands`, `StrandedExactlyUntilRefiled`,
  `DeliveryOnAMirror`). A rebuild does not bring it back in general: it repairs exactly the items that the
  mirror takes (`ResyncRepairsExactly`), of these copies only those of items that are `claimed` just then
  (`StrandedIsRebuiltExactlyWhen`), and a second one changes nothing (`ResyncTwice`).
- A transition or comment that the primary has committed still throws when the mirroring board cannot read
  the primary again, and no other call does (`Mirroring.MirroringBoard.Do`).
- An override mapping that lands on something else than a mapping keeps its nulls, so that merging it
  again changes the result (`MergeAgainExactlyWhen`). The report joins keys with dots, and
  two overrides with different results can have one report (`DotsAreAmbiguous`). It can be read back
  exactly if no key that is reported, or leads to one, contains a dot and no empty outermost key leads to
  one (`LegibleExactlyWhen`, `DottedParses`, `MergeConfigWithChanges`).
- After the board says `merged`, a comment that throws still turns the outcome into blocked or retriable
  (`MergedThenRescued`); board and outcome agree whenever no error was thrown, on any board that nobody
  else moves (`Guarded`, `Run`). A claim call that throws may leave the item claimed, or move it to
  `blocked`, without this run owning it.
- The approval that an earlier run presented binds the next one exactly if its record names a pull request
  (`BindsExactlyWhen`). A run in between that dies after its first record erases it, and the run after
  that may merge anything (`ApprovalIsLostInBetween`).
- The throttle compares round and pull request only (`SameSignatureExactlyWhen`), so a throttled record may
  keep an older branch (`OlderBranchStays`).

## Model

| member | source | states |
|---|---|---|
| `BoardState.MergedWalkPassesReview` | `packages/core/src/board-state.ts:55-62` | every walk through the table from `ready` to `merged` is claimed second, `pr_open` last but one, and in between only in states the automation may leave |
| `BoardState.ClaimAcceptedExactlyWhen` | `packages/core/src/task-board.ts:466-505` | a claim is accepted if and only if the record does not name this run and the item is `ready`, or is in flight under another run's record |
| `DeliveryLoop.DeliveryRun.Run` | `packages/core/src/delivery-loop.ts:323-1082` | one whole delivery: the trace of what it asked follows the rules; the slot is as it was found; a reason given is explained by the evidence; on a board that nobody else moves, an item this run claimed ends `merged`, `pr_open` or `blocked` exactly as the outcome says unless an error was thrown, and always if the board does not fail, which then is claimed if and only if the slot was free and the claim rule accepts; an unclaimed one is then untouched; rounds and reported waiting are bounded |
| `DeliveryLoop.DeliveryRun.Guarded` | `packages/core/src/delivery-loop.ts:1022-1061` | every thrown error ends in an outcome; without one the item is left exactly where the outcome says, on any board that nobody else moves; on one that does not fail an owned item is blocked even when the outcome is retriable; an item that was not claimed changes only if the claim call itself threw |
| `DeliveryLoop.DeliveryRun.Attempt` | `packages/core/src/delivery-loop.ts:589-1021` | claim, first progress record, rounds: whatever ends it without an error is explained by the evidence and left in the state for it; on a board that does not fail and is left alone, the item is claimed if and only if the claim rule accepts |
| `DeliveryLoop.DeliveryRun.Rounds` | `packages/core/src/delivery-loop.ts:644-1021` | each round that does not stop leaves a further one, so the exit after the loop needs an empty round budget; at most `maxReviewRounds` rounds |
| `DeliveryLoop.DeliveryRun.Round` | `packages/core/src/delivery-loop.ts:644-1016` | one round never passes: it stops for an explained reason, leaves the rest to an existing next round, or throws with the item in flight |
| `DeliveryLoop.DeliveryRun.Judge` | `packages/core/src/delivery-loop.ts:678-931` | it goes on to merging only with settled checks, a clean review of this round's head, that review on record, and no stale approval |
| `DeliveryLoop.DeliveryRun.Deliver` | `packages/core/src/delivery-loop.ts:678-725` | a delivery of a later round than the last one, after the agent ran in it or on a resumed first round, forgets everything learned about the head before |
| `DeliveryLoop.DeliveryRun.Adopt` | `packages/core/src/delivery.ts:128-150` | the reference is the pull request when there is one and the pushed branch when there is not; the recorded pull request is exactly the one there is |
| `DeliveryLoop.DeliveryRun.EnterReview` | `packages/core/src/delivery-loop.ts:726-743` | after delivering the item is `pr_open`, moved only if it was not there, and progress is on record |
| `DeliveryLoop.DeliveryRun.WaitForChecks` | `packages/core/src/delivery-loop.ts:491-522` | polls only while something is pending, never past the budget; seconds waited are polls times the interval; giving up means that one more poll would exceed the budget |
| `DeliveryLoop.DeliveryRun.OnRedChecks` | `packages/core/src/delivery-loop.ts:535-587` | red checks go back to the agent if a round is left and block the item if none is |
| `DeliveryLoop.DeliveryRun.SettleChecks` | `packages/core/src/delivery-loop.ts:746-817` | the review is reached only with the last list read free of failures and of pending entries, and the waiting counter is exact |
| `DeliveryLoop.DeliveryRun.ReviewHead` | `packages/core/src/delivery-loop.ts:827-931` | the review is asked about the delivered head only; a pass means clean, on record and not stale |
| `DeliveryLoop.DeliveryRun.OnClean` | `packages/core/src/delivery-loop.ts:895-931` | the record is forced out before the approval is re-checked, and then names exactly the inputs of this review |
| `DeliveryLoop.DeliveryRun.ReadStatus` | `packages/core/src/delivery-loop.ts:945-962` | an unknown mergeability is re-read up to the bound; an unknown answer on the same head means that the bound is used up |
| `DeliveryLoop.DeliveryRun.MergeReviewed` | `packages/core/src/delivery-loop.ts:945-1016` | the host is asked only for a head it still reports with a known mergeability; a moved head goes back to work or blocks |
| `DeliveryLoop.DeliveryRun.AskMerge` | `packages/core/src/delivery-loop.ts:991-1001` | asking needs everything in `MergeJustified`, for exactly the reviewed head |
| `DeliveryLoop.DeliveryRun.WriteRecord` | `packages/core/src/delivery-loop.ts:455-481` | after a successful call the record last written has the current round and pull request, as if it were never throttled; a forced one is on record in full |
| `DeliveryLoop.DeliveryRun.ReadPrior` | `packages/core/src/delivery-loop.ts:370-375` | the record read before anything else; a failed read counts as none |
| `DeliveryLoop.StaleReviewReason` | `packages/core/src/delivery-loop.ts:287-321` | no objection if and only if this run has a digest and, where an earlier approval is needed, the record carries this very digest; an objection over inputs names exactly those that differ |
| `DeliveryLoop.Differing` | `packages/core/src/delivery-loop.ts:312-320` | the names pushed are exactly those of the differing inputs, and there is one if any input differs |
| `DeliveryLoop.SlotLock.Acquire` | `packages/core/src/slot-lock.ts:144-206` | the slot is given to one holder at a time; when its lock file really gives that is stated in `SlotRace` |
| `SlotRace.ExclusiveWithoutTakeover` | `packages/core/src/slot-lock.ts:144-246` | in every interleaving of any number of processes in which nobody has found an abandoned lock so far, at most one holds the slot, and the file is its own |
| `SlotRace.ExclusiveExactlyWhen` | `packages/core/src/slot-lock.ts:144-246` | among processes that do not lapse, the slot is exclusive in every interleaving if and only if no abandoned lock was lying there for two of them to find |
| `SlotRace.AbandonedLockIsTakenTwice` | `packages/core/src/slot-lock.ts:176-201` | any two processes that come upon an abandoned lock may both be given the slot: the second removes the file of the first |
| `SlotRace.RefusedProcessFreesTheSlot` | `packages/core/src/slot-lock.ts:164-204` | a process whose second attempt is refused has removed the lock of the process that holds the slot, and a third is given it |
| `DeliveryLaws.MergeAskedAtMostOnce` | `packages/core/src/delivery-loop.ts:991-1001` | in every run the host is asked to merge at most once |
| `DeliveryLaws.MergeNeedsEverything` | `packages/core/src/delivery-loop.ts:746-991` | whenever it is asked: the head last delivered, checks last seen without failure and pending entry, a clean review of this round and head, the host last reporting this head with a known mergeability, no contradicted approval, and the record already naming exactly these inputs |
| `DeliveryLaws.ApprovalBindsTheVersion` | `packages/core/src/delivery-loop.ts:370-931` | across two runs: after a presentation with a pull request on record that was read back, a label-mode run merges only if all six inputs are those presented |
| `DeliveryLaws.BindsExactlyWhen` | `packages/core/src/delivery-loop.ts:287-321` | a label-mode run is held to what was presented if and only if the record it read names a pull request |
| `DeliveryLaws.UndeliveredRunUnbinds` | `packages/core/src/delivery-loop.ts:416-481` | the record that a run leaves before its first delivery names no pull request and nothing presented, and binds nobody |
| `DeliveryLaws.ApprovalIsLostInBetween` | `packages/core/src/delivery-loop.ts:370-481` | so freshness does not carry over a run in between that dies after its first record: the third run may merge any head under any policy |
| `DeliveryLaws.EvidenceIsLatest` | `packages/core/src/delivery-loop.ts:604-643` | the evidence variables hold what the trace shows as seen last since the last delivery |
| `DeliveryLaws.ReviewIsPresented` | `packages/core/src/delivery-loop.ts:849-895` | the recorded block is that of the last review that was not findings |
| `DeliveryLaws.PriorIsReadFirst` | `packages/core/src/delivery-loop.ts:370-402` | the prior record is read before the claim and never again |
| `DeliveryLaws.AgentRunsBounded` | `packages/core/src/delivery-loop.ts:644-677` | the agent runs at most `maxReviewRounds` times, one fewer when resumed |
| `DeliveryLaws.WaitingBounded` | `packages/core/src/delivery-loop.ts:491-522` | per round the polls fit into the budget and the status reads into max(1, `mergeabilityReads`) |
| `DeliveryLaws.ElapsedIsProduct` | `packages/core/src/delivery-loop.ts:1064-1081` | reported waiting is a whole number of poll intervals |
| `DeliveryLaws.MovesAreLegal` | `packages/core/src/delivery-loop.ts:405-415` | every move asked for outside the catch handler is in the table, and `merged` only after the merge was asked for |
| `DeliveryLaws.LandedAfterAsking` | `packages/core/src/delivery-loop.ts:991-1003` | what landed was asked for exactly once |
| `DeliveryLaws.MergedThenRescued` | `packages/core/src/delivery-loop.ts:1001-1061` | after the move to `merged` something can still throw, and the run then asks for `blocked`, which the table refuses |
| `DeliveryLaws.SignatureNeverReturns` | `packages/core/src/delivery-loop.ts:416-481` | a round and pull request that the run has left behind never come back |
| `DeliveryLaws.ProgressWritesAreSpaced` | `packages/core/src/delivery-loop.ts:416-481` | two unforced writes that say the same round and pull request are at least the interval apart, however far apart in the run |
| `DeliveryLaws.SameSignatureExactlyWhen` | `packages/core/src/delivery-loop.ts:455-465` | the throttle takes two records for the same if and only if round and pull request agree |
| `DeliveryLaws.OlderBranchStays` | `packages/core/src/delivery-loop.ts:455-481` | so the record may keep an older branch: a run that delivered another one must not write it before the interval is over |
| `ClaimRaceGitLab.VerdictExactlyWhen` | `boards/gitlab/src/index.ts:980-999` | the verdict is a yes if and only if the newest note is uniquely this run's |
| `ClaimRaceGitLab.TieRefusesEveryone` | `boards/gitlab/src/index.ts:980-999` | two notes sharing the newest stamp refuse everybody |
| `ClaimRaceGitLab.BothWinOnlyByLateWrite` | `boards/gitlab/src/index.ts:497-554` | in every interleaving of any number of claims, two runs both win only if one's note landed after the other read its verdict |
| `ClaimRaceGitLab.WinnerBeatsWhatItSaw` | `boards/gitlab/src/index.ts:497-554` | a winner's stamp is strictly later than that of every claim whose note it could see |
| `ClaimRaceGitLab.SlotAdmitsOneWinner` | `boards/gitlab/src/index.ts:497-554` | under a per-item mutex at most one run wins, however the winner moves the item while it holds the slot and whoever closes it later, as long as the item is not left or put back in a state that the claim rule may accept |
| `ClaimRaceGitLab.SlottedClaimSucceeds` | `boards/gitlab/src/index.ts:497-554` | under the mutex every claim that the rule accepts can be won, a takeover in flight included |
| `ClaimRaceGitLab.LeftOpenIsWonTwice` | `boards/gitlab/src/index.ts:497-554` | an item that its winner leaves in `pr_open` when it releases the slot can be won a second time |
| `ClaimRaceGitLab.LateWriteLetsBothWin` | `boards/gitlab/src/index.ts:497-554` | without it the window is real: a run in which two claims both win |
| `ClaimRaceGitLab.UpsertVisible` | `boards/gitlab/src/index.ts:676-703` | a record write replaces this run's own visible note or adds one, and touches no other |
| `ClaimRaceGitLab.Reachable` | `boards/gitlab/src/index.ts:497-554` | what every step of every interleaving keeps about notes, stamps and verdicts |
| `ClaimRaceGitHub.BothWinOnlyByLateWrite` | `boards/github/src/index.ts:304-344` | in every interleaving, with the record comment found in one request and written in another, two runs both win only if a run other than the first winner wrote a record between their verdicts; with no third claim about, it is the second claim itself, written after the first had confirmed |
| `ClaimRaceGitHub.DeleteAdmitsOneWinner` | `boards/github/src/index.ts:304-344` | while nobody puts `ready` back, whatever else happens to the labels, the delete that must find it lets at most one claim through, without a lock |
| `ClaimRaceGitHub.InFlightTakeoverNeverSucceeds` | `boards/github/src/index.ts:304-344` | the same delete makes every claim of an item without `ready` fail as long as nobody adds it, in every interleaving |
| `ClaimRaceGitHub.WinsAloneExactlyWhen` | `boards/github/src/index.ts:304-344` | a claim that is left alone can win if and only if the claim rule accepts the item and the item carries `ready` |
| `ClaimRaceGitHub.ClaimFailsHalfway` | `boards/github/src/index.ts:304-344` | on an accepted item without `ready` the claim ends without the item, with the `claimed` label added to it |
| `ClaimRaceGitHub.TakeoverFailsHalfway` | `boards/github/src/index.ts:304-344` | such as an item shown as `pr_open` under another run's record |
| `ClaimRaceGitHub.PuttingReadyBackLetsBothWin` | `boards/github/src/index.ts:304-344` | once somebody puts `ready` back under a winner, a second claim wins beside it |
| `ClaimRaceGitHub.HolderProgresses` | `boards/github/src/index.ts:376-403` | whoever the newest record names keeps it by writing on, whichever of the comments its write finds |
| `ClaimRaceGitHub.TakeoverIsDecided` | `packages/core/src/task-board.ts:478-495` | although the claim rule accepts that takeover |
| `CommitGraph.AncestorTransitive` | `deliveries/git/src/index.ts:195-200` | ancestry composes |
| `CommitGraph.AncestorStable` | `deliveries/git/src/index.ts:195-200` | new commits do not change the ancestry of old ones |
| `CommitGraph.AncestorAntisymmetric` | `deliveries/git/src/index.ts:195-200` | two commits that descend from each other are one |
| `CommitGraph.Remote.PlainPush` | `deliveries/git/src/index.ts:115-116` | a plain push is accepted if and only if the branch is new or moves to a descendant; every position the base ever had stays an ancestor of the tip |
| `CommitGraph.Remote.Interfere` | `deliveries/git/src/index.ts:84-185` | whatever others commit, push or delete in between keeps all that, and is recorded as theirs |
| `CommitGraph.Remote.KeptIsAdvanced` | `deliveries/git/src/index.ts:157-185` | over any stretch of a history in which nothing recorded is lost, the base only moved to descendants |
| `CommitGraph.Remote.MergeRequest` | `deliveries/gitlab/src/index.ts:577-604` | the host merges only the head it was asked for, and answers in one of the ways a host may |
| `GitDelivery.GitDeliveryProvider.Deliver` | `deliveries/git/src/index.ts:84-131` | success means a clean head on the named branch, beyond the frozen base and descending from it, pushed by this call and read back; an undeliverable worktree is refused exactly as a precondition and nothing is pushed; no other branch is moved |
| `GitDelivery.GitDeliveryProvider.PushAndReadBack` | `deliveries/git/src/index.ts:115-125` | only what the remote reports on being asked again counts as landed |
| `GitDelivery.GitDeliveryProvider.Merge` | `deliveries/git/src/index.ts:157-185` | the only move this call ever makes is the base to the expected head; success means that it made it and read it back; another method than merge is refused before the remote is touched |
| `GitDelivery.GitDeliveryProvider.Status` | `deliveries/git/src/index.ts:133-149` | closed if and only if the branch is gone, landed if and only if its head is in the base, mergeable if and only if the head is strictly ahead of the base; asking moves nothing |
| `GitDelivery.StatusPredictsThePush` | `deliveries/git/src/index.ts:133-149` | mergeable is answered exactly when the plain push of a merge right away would be accepted and move the base; of an open branch it is withheld exactly when the two have diverged |
| `GitDelivery.LandedIsNeverLost` | `deliveries/git/src/index.ts:133-149` | work that landed stays in the base, whoever acts on the remote |
| `GitLabDelivery.MergeableFrom` | `deliveries/gitlab/src/index.ts:785-795` | the first recognised of the three status fields decides; without one the answer is a conflict or unknown, never yes |
| `GitLabDelivery.ReportIsReliableExactlyWhen` | `deliveries/gitlab/src/index.ts:588-612` | of the replies read as a merge, those that no host gives without having merged are exactly the 2xx naming the state `merged` |
| `GitLabDelivery.ServerErrorReadsAsMerged` | `deliveries/gitlab/src/index.ts:588-612` | a 500 with a JSON body that names no state is read as a merge although none happened |
| `GitLabDelivery.GitLabDeliveryProvider.Absorb` | `deliveries/gitlab/src/index.ts:366-395` | the base is merged plainly: the head stays, moves to the base that contains it, or becomes a merge of the two; a conflict changes nothing |
| `GitLabDelivery.GitLabDeliveryProvider.Deliver` | `deliveries/gitlab/src/index.ts:304-407` | the pushed head descends from the frozen base, from the base as it was fetched, and from the agent's head; the fetched base lies between the base before and the base after; only the work branch is moved; an undeliverable worktree is refused before the host is touched |
| `GitLabDelivery.GitLabDeliveryProvider.Gates` | `deliveries/gitlab/src/index.ts:553-575` | the three gates before the call: the reviewed head, an open request, a known yes |
| `GitLabDelivery.GitLabDeliveryProvider.Merge` | `deliveries/gitlab/src/index.ts:546-613` | this call never lands another head than the expected one, whatever moves between the read and the call; it is reported as merged exactly when the reply reads so, and truly if the host answered 2xx and named the state |
| `CreateMarker.ScannerMeetsForm` | `packages/core/src/create-marker.ts:23-43` | the scanner finds exactly the texts of the marker pattern |
| `CreateMarker.MarkerIsUnique` | `packages/core/src/create-marker.ts:23` | a text starts with at most one marker, so greedy or lazy matching makes no difference |
| `CreateMarker.ParseCut` | `packages/core/src/create-marker.ts:41-43` | a text may be cut before any `<` without changing its markers |
| `CreateMarker.MarkerHomomorphism` | `packages/core/src/create-marker.ts:30-43` | for every valid key and all texts around it, the markers are those of the text before, the key, those of the text behind |
| `CreateMarker.CreateKeyOfExactlyWhen` | `packages/core/src/create-marker.ts:46-59` | an appended marker is always carried, and names the creation if and only if no other key came before |
| `CreateMarker.QuotedMarkerHidesTheKey` | `packages/core/src/create-marker.ts:56-59` | a body that quotes another marker hides the key appended to it |
| `CreateMarker.ParsedKeysAreValid` | `packages/core/src/create-marker.ts:41-43` | every key that is found satisfies the key grammar |
| `CreateMarker.QuietTail` | `packages/core/src/create-marker.ts:41-43` | text without angle brackets behind another adds no marker and completes none |
| `JsonText.PutParses` | `packages/core/src/board-state-record.ts:100-108` | every printed JSON value is read back, whatever follows it |
| `JsonText.PutStringParses` | `packages/core/src/board-state-record.ts:100-108` | strings round-trip, with the escapes of section 7 of RFC 8259 |
| `JsonText.StringifyParses` | `packages/core/src/board-state-record.ts:115-134` | `JSON.parse` of a printed value is that value |
| `JsonText.ValueExtends` | `packages/core/src/board-state-record.ts:115-134` | what was read stays read when the text goes on, except for a number at its very end |
| `JsonText.TruncatedDoesNotParse` | `packages/core/src/board-state-record.ts:115-134` | the text of an object, cut short anywhere, is not JSON |
| `JsonText.ArrowPut` | `packages/core/src/board-state-record.ts:80-108` | printed text contains `-->` if and only if one of the strings does |
| `HiddenBlock.PayloadExactlyWhen` | `packages/core/src/board-state-record.ts:84-122` | a payload is found if and only if some opening marker has `-->` behind it |
| `HiddenBlock.PrefixIsPassed` | `packages/core/src/board-state-record.ts:84-122` | text that opens no block is passed over |
| `HiddenBlock.BlockFound` | `packages/core/src/board-state-record.ts:84-122` | the payload of a written block ends at the first `-->` |
| `StateRecord.RecordComesBack` | `packages/core/src/board-state-record.ts:137-172` | validating a record's own fields gives that record if and only if it is valid |
| `StateRecord.ValidateExactlyWhen` | `packages/core/src/board-state-record.ts:137-222` | exactly which objects are accepted; a review or an approval that is present is in the record or the record is refused, never dropped |
| `StateRecord.ReadBackIsWritten` | `packages/core/src/board-state-record.ts:100-134` | whatever can be read of a block that was written is the record that was written |
| `StateRecord.ReadRecordsAreValid` | `packages/core/src/board-state-record.ts:115-172` | whatever is read can be written again |
| `StateRecord.NoRecordExactlyWhen` | `packages/core/src/board-state-record.ts:115-134` | no record is answered if and only if there is no closed block; a block that cannot be read is an error |
| `StateRecord.RecordRoundTrip` | `packages/core/src/board-state-record.ts:100-134` | between any text that opens no block and any other, a valid record is read back unchanged if and only if none of its strings contains `-->`, and is reported as corrupt otherwise |
| `StateRecord.NoteCanCorrupt` | `packages/core/src/board-state-record.ts:100-134` | in particular a note makes a readable record unreadable if and only if it contains `-->` |
| `StateRecord.ReviewSurvivesRewrites` | `packages/core/src/board-state-record.ts:250-270` | review, approval, branch, base and delivery reference survive any number of read, carry forward, write by adapters that write no `-->` |
| `StateRecord.NewestRecord` | `packages/core/src/board-state-record.ts:224-234` | the first corrupt text is reported; otherwise the latest date wins, the last of equal ones, except that a first record with an unreadable date is never replaced |
| `StateRecord.NewestStep` | `packages/core/src/board-state-record.ts:229-231` | one more text is chosen if its date is not before that of the chosen one |
| `NotionContent.ParagraphBlock` | `boards/notion/src/index.ts:88-99` | the loop cuts a line into its runs |
| `NotionContent.RunsSpellTheLine` | `boards/notion/src/index.ts:88-99` | the runs spell the line and each has 1 to 2000 characters |
| `NotionContent.BodyReadsBack` | `boards/notion/src/index.ts:105-123` | a body of any length is spelled exactly by its blocks |
| `NotionContent.RerunCompletesExactlyWhen` | `boards/notion/src/index.ts:859-877` | appending the missing lines makes a page spell the body if and only if the page spelled whole first lines of it |
| `NotionContent.ReportIsTrueExactlyWhen` | `boards/notion/src/index.ts:859-879` | the text reported by a re-run is what the page spells if and only if nothing was missing or the page held whole first lines |
| `NotionContent.PartOfALineIsMisreported` | `boards/notion/src/index.ts:866-875` | a page that holds a part of the first line is reported as the body although it does not spell it |
| `NotionContent.PartialIsPrefix` | `boards/notion/src/index.ts:859-877` | a page left by an interrupted run is such a page, and lacks exactly the remaining blocks |
| `NotionContent.NotionBoard.AppendBlocks` | `boards/notion/src/index.ts:934-954` | batches of at most 100; a failure leaves whole batches and no other page is touched |
| `NotionContent.NotionBoard.AdoptExisting` | `boards/notion/src/index.ts:859-879` | nothing is rewritten or removed, only missing lines are appended; the text reported is the body whenever something was appended |
| `NotionContent.NotionBoard.FileNew` | `boards/notion/src/index.ts:480-513` | a new page carries the first 100 blocks and then whole batches |
| `NotionContent.NotionBoard.CreateWork` | `boards/notion/src/index.ts:456-514` | however many runs are cut short anywhere, the page stays a batch prefix of the body, and a run that returns normally leaves exactly the body |
| `NotionContent.NotionBoard.ReadBlocks` | `boards/notion/src/index.ts:903-923` | all pages of the content, in order |
| `NotionRecord.WriteKeepsKey` | `boards/notion/src/index.ts:617-645` | writing any record keeps the create key of the property |
| `NotionRecord.WriteAddsNoKey` | `boards/notion/src/index.ts:617-645` | and no key appears where none was, if the record can be read back |
| `NotionRecord.WrittenReadsBack` | `boards/notion/src/index.ts:617-645` | beside the key the record is read back if and only if none of its strings contains `-->` |
| `NotionRecord.NotionPage.WriteState` | `boards/notion/src/index.ts:617-645` | the key survives whatever others write and wherever the request fails; a record of another item, or one over 2000 characters, is not written |
| `NotionRecord.NotionPage.Claim` | `boards/notion/src/index.ts:516-556` | the key survives, and a claim that succeeded has this run on record; alone, it succeeds exactly when the claim rule accepts, and then column and record are exactly those of the claim, the rest carried forward; one that failed, no request being lost, changed nothing if and only if the record was unreadable |
| `NotionRecord.NotionPage.Transition` | `boards/notion/src/index.ts:558-579` | the key survives; alone, a move that succeeds is in the table and wrote exactly the column and the carried record; one that is not in the table changes nothing; a legal one of a page whose record cannot be read fails with the text as it was and the column moved, unless the request for that got lost; no request being lost, a move that failed changed nothing if and only if it is not in the table |
| `NotionRecord.ArrowNoteIsCorrupt` | `boards/notion/src/index.ts:617-645` | a record whose note contains `-->` makes any page it is written to unreadable |
| `NotionRecord.MoveOfACorruptPage` | `boards/notion/src/index.ts:558-579` | such a page, undisturbed and with every request answered, is moved from `claimed` to `pr_open` by a call that throws |
| `FakeBoard.Board.Do` | `boards/fake/src/index.ts:150-317` | each method does to the board and answers exactly what the reference function says |
| `FakeBoard.Board.CreateItem` | `boards/fake/src/index.ts:150-172` | the in-place creation, against the reference function |
| `FakeBoard.Board.Take` | `boards/fake/src/index.ts:198-225` | the in-place claim, against the reference function |
| `FakeBoard.PerformKeeps` | `boards/fake/src/index.ts:150-317` | every call keeps ids unique, removes no item, changes no item but its state, and moves that only as the table or a claim says |
| `FakeBoard.CreateIsIdempotent` | `boards/fake/src/index.ts:150-172` | under one key there is one item, however often it is filed and with what |
| `FakeBoard.UntrustedNeverSteers` | `boards/fake/src/index.ts:260-317` | a record from an untrusted author changes nothing that is ever read back |
| `FakeBoard.ClaimExcludes` | `boards/fake/src/index.ts:198-225` | a claim that succeeded is on record, and then no run can claim the item as it stands |
| `FakeBoard.TrustedIsRead` | `boards/fake/src/index.ts:260-317` | a trusted record is what is read next, for that item and no other |
| `FakeBoard.CommentIsEdited` | `boards/fake/src/index.ts:233-249` | saying something again under one comment key edits the one comment there and no other |
| `FakeBoard.CommentsSharedExactlyWhen` | `boards/fake/src/index.ts:233-249` | two runs share a comment if and only if item and run are the same, or one item's id is the other's, a colon, and how the other's run begins |
| `FakeBoard.TwoRunsShareAComment` | `boards/fake/src/index.ts:233-249` | such as run `b:c` on item `a` and run `c` on item `a:b` |
| `FakeBoard.PlainIdsShareNothing` | `boards/fake/src/index.ts:233-249` | on items whose ids hold no colon it cannot happen |
| `FakeBoard.ListedExactly` | `boards/fake/src/index.ts:174-192` | exactly the items in one of the states are listed |
| `FakeBoard.ListedInOrder` | `boards/fake/src/index.ts:174-192` | and in the board's order |
| `MirrorProjection.CopyBodyMarkers` | `packages/core/src/board-mirror.ts:318-326` | the body of a copy carries the markers of the text and its own, the mirror comment adding none |
| `MirrorProjection.NewCopyIsOf` | `packages/core/src/board-mirror.ts:318-326` | a copy made from a text without mirror keys is the copy of that item and of no other |
| `MirrorProjection.SoundCreates` | `packages/core/src/board-mirror.ts:318-329` | filing keeps at most one copy of each primary item, and no item the copy of two, on a mirror that confirms a hit by the exact marker |
| `MirrorProjection.RefilingFindsExactlyWhen` | `boards/gitlab/src/index.ts:440-444` | on a mirror that confirms a hit by its first create key, filing again finds the copy if and only if the item's text carries no create key; otherwise there are two copies |
| `MirrorProjection.KeyedItemIsDuplicated` | `boards/gitlab/src/index.ts:872-877` | so every item that the primary filed under a key of its own is duplicated there |
| `MirrorProjection.TakenExactlyWhen` | `packages/core/src/board-mirror.ts:257-284` | a projection succeeds if and only if the mirror can hold the copy and the copy it holds, if any, may move to the state |
| `MirrorProjection.TakesStays` | `packages/core/src/board-mirror.ts:141-157` | whether the mirror takes one item does not depend on the others projected before |
| `MirrorProjection.CacheHit` | `packages/core/src/board-mirror.ts:302-303` | what the id map remembers is what creating again would find, so trusting it changes nothing |
| `MirrorProjection.StaysProjectable` | `packages/core/src/board-mirror.ts:193-216` | the primary's calls keep its bodies free of mirror keys |
| `Mirroring.MirroringBoard.EnsureCopy` | `packages/core/src/board-mirror.ts:296-333` | remembered or created, the copy is the same, and every entry of the id map stays true |
| `Mirroring.MirroringBoard.ProjectItem` | `packages/core/src/board-mirror.ts:257-284` | a projection that succeeds leaves the copy in the state, one that fails changes nothing but that copy |
| `Mirroring.MirroringBoard.Do` | `packages/core/src/board-mirror.ts:161-255` | the primary ends as if it were alone whatever the mirrors do, and the caller gets its answer unless the call needs the primary to be read again and it cannot be; a reliable mirror then holds what the call projects, whatever the map remembered |
| `Mirroring.MirroringBoard.Serve` | `packages/core/src/board-mirror.ts:161-346` | over every run of calls, with any part of the id map forgotten at any point: same primary, and each answer is the primary's or, only where the primary had to be read again, an error; if the primary can always be read, or no call needs to read it again, the same answers and reliable mirrors that depend on the calls only |
| `Mirroring.MirroringBoard.Resync` | `packages/core/src/board-mirror.ts:141-157` | for each mirror projected plus failed is the number of items, and every item counted as projected has a copy in the primary's state at the end; a reliable mirror holds what projecting every item in turn gives, and the items counted are exactly those that it takes; it fails only if the primary cannot be listed, and then touches nothing |
| `Mirroring.SaysStays` | `packages/core/src/board-mirror.ts:141-157` | projecting one item leaves the copies of the others as they were |
| `MirrorSync.CallSaysExactlyWhen` | `packages/core/src/board-mirror.ts:161-284` | after a call that files or moves an item, the copy on a reliable mirror says what the primary says if and only if the mirror took the item as it stood before |
| `MirrorSync.FollowsExactlyUntilClaimed` | `packages/core/src/board-mirror.ts:179-211` | a copy that says what the primary says does so after any further call if and only if that call is not a successful claim of the item |
| `MirrorSync.FollowsUnclaimedRun` | `packages/core/src/board-mirror.ts:161-284` | so it follows over every run in which the item is not claimed |
| `MirrorSync.ClaimStrands` | `packages/core/src/board-mirror.ts:179-181` | the first claim leaves the copy behind in `ready` |
| `MirrorSync.StrandedExactlyUntilRefiled` | `packages/core/src/board-mirror.ts:161-284` | where it stays after any call if and only if that call does not file the item again while it is `claimed` |
| `MirrorSync.StrandedOverRun` | `packages/core/src/board-mirror.ts:161-284` | and so over every run without such a call |
| `MirrorSync.ResyncRepairsExactly` | `packages/core/src/board-mirror.ts:141-157` | after a rebuild the copy says what the primary says if and only if the mirror took the item as it stood |
| `MirrorSync.StrandedIsRebuiltExactlyWhen` | `packages/core/src/board-mirror.ts:141-157` | a copy left behind in `ready` is repaired by a rebuild if and only if the item is `claimed` at that time |
| `MirrorSync.ResyncTwice` | `packages/core/src/board-mirror.ts:141-157` | a second rebuild changes nothing |
| `MirrorSync.DeliveryOnAMirror` | `packages/core/src/board-mirror.ts:141-284` | file, claim, `pr_open` on a board with one reliable mirror: the copy says `ready`, and a rebuild reports the item as failed |
| `AwaitChecks.Execute` | `packages/core/src/ci-pipeline.ts:468-586` | completed if and only if the last read was a non-empty list of successes; every earlier read was empty or pending; given up only at the deadline; sleep and reported seconds within the clamped budget; no more reads than full polls allow; it ends |
| `AwaitChecks.WaitSeconds` | `packages/core/src/ci-pipeline.ts:497-499` | the budget is clamped to 1..1800 seconds |
| `AwaitChecks.VerdictIsGreenExactlyWhen` | `packages/core/src/ci-pipeline.ts:561-583` | success of every check is the only pass |
| `ConfigMerge.MergeConfigWithChanges` | `apps/cli/src/commands.ts:200-206` | the report is exactly the paths that the override sets or clears, each once; replaying them on the base gives exactly the merged configuration; the dotted report is read back as those paths if and only if no key that is reported, or leads to one, contains a dot and no empty outermost key leads to one, and is then replayed itself; each reported path says what the override says; no path that stands apart from all reported ones has changed |
| `ConfigMerge.MergeInto` | `apps/cli/src/commands.ts:209-231` | in whatever order the keys come, the loop computes the merge, and reports in dotted form exactly the paths that are set or cleared, which replay it |
| `ConfigMerge.DottedParses` | `apps/cli/src/commands.ts:213` | a path is found again in its dotted form if and only if no key contains a dot and the first key is not empty unless it is the only one |
| `ConfigMerge.LegibleExactlyWhen` | `apps/cli/src/commands.ts:209-231` | a condition on base and override alone that holds if and only if every reported path is found again |
| `ConfigMerge.DotsAreAmbiguous` | `apps/cli/src/commands.ts:209-231` | otherwise the report does not say what happened: two overrides of one base with different results, each of which is reported as `a.b` being set |
| `ConfigMerge.MergeAgainExactlyWhen` | `apps/cli/src/commands.ts:209-231` | merging the same override again is a no-op if and only if no null sits inside an override mapping that landed on something else than a mapping |
| `ConfigMerge.SelfMerge` | `apps/cli/src/commands.ts:209-231` | a configuration merged over itself stays if and only if it holds no null |
| `ConfigMerge.UnreportedStays` | `apps/cli/src/commands.ts:200-231` | a replay touches nothing apart from its own paths |
| `StateLabels.StateOfIsFurthest` | `boards/github/src/index.ts:576-593` | the state is that of the present label furthest along the delivery |
| `StateLabels.MidwayIsEither` | `boards/github/src/index.ts:346-355` | between any two of the label requests of a legal move the issue is seen in the old or in the new state |
| `StateLabels.Issue.MoveLabels` | `boards/github/src/index.ts:352-355` | when all went well the new label is the only state label; a move that is not in the table sends nothing |
| `StateLabels.Issue.Transition` | `boards/github/src/index.ts:346-355` | after every request, wherever the sequence ends, the issue is seen in the old or in the new state and no other label was touched; the record is written only after all labels were moved, so a legal move of an issue whose record cannot be read moves them and throws; with every request answered it succeeds if and only if the move is legal and the record readable |
| `StateLabels.LabelsDiffer` | `boards/github/src/index.ts:438-440` | different states have different labels |
| `Requirement.WithChosen` | `apps/cli/src/requirement-command.ts:106-129` | the editor computes the reference edit of the document, and refuses exactly a document without the id |
| `Requirement.LastAnswerWins` | `apps/cli/src/requirement-command.ts:106-129` | of two answers to one question the last stands, as if the first had not been written |
| `Requirement.AnswersCommute` | `apps/cli/src/requirement-command.ts:106-129` | answers to different questions can be written in either order |
| `Requirement.OnlyTheBlockChanges` | `apps/cli/src/requirement-command.ts:106-129` | one line of the block is replaced or one is added; every other line is unchanged |
| `BlockEdit.EditLines` | `apps/cli/src/requirement-command.ts:106-129` | the index loops and the in-place edit, against the reference edit of lines |
| `BlockEdit.SetTwice` | `apps/cli/src/requirement-command.ts:106-129` | a second edit of the same block overwrites the first |
| `BlockEdit.SetCommutes` | `apps/cli/src/requirement-command.ts:106-129` | edits of different blocks commute |
| `BlockEdit.SetChangesOneLine` | `apps/cli/src/requirement-command.ts:106-129` | an edit succeeds exactly where the head is found, and changes one line of its block and no other |
| `BlockEdit.SetParts` | `apps/cli/src/requirement-command.ts:106-129` | an edit changes the block and nothing around it |
| `Lines.SplitJoin` | `boards/notion/src/index.ts:105-123` | newline-free lines are recovered from the text they are joined to |
| `Lines.JoinSplit` | `boards/notion/src/index.ts:105-123` | the lines of a text spell it |

## Left out

- DeliveryLoop.DeliveryRun.Run: the event trail, messages, metrics and the text of comments are not modelled; a comment or a filed issue is a call that may fail. `pollSeconds` has to be positive, as the polling loop does not end otherwise. The agent's workspace is not part of the state.
- DeliveryLoop.DeliveryRun.ReviewHead: the verdict, the requirement document and the list of changed files are answers; the review digest is an injective constructor over its six inputs, where the source hashes them.
- DeliveryLoop.SlotLock.Acquire: within a delivery the slot is a mutex; its lock file is the subject of `SlotRace`.
- SlotRace.ExclusiveExactlyWhen: whether an owner is gone, by process probe or by the age of the file, is one fact about the process; a process asks for the slot once, and reading age and content of the file is one step.
- ClaimRaceGitLab.Reachable: notes are reduced to the run and the stamp they carry, untrusted notes are left away, and one read sees one page of 100 notes, as in the source. Claims of one run are not repeated within a history.
- ClaimRaceGitHub.BothWinOnlyByLateWrite: a comment is a trusted record or chatter, records that cannot be read are left away, and a claim that a request fails is one that stops; claims of one run are not repeated within a history.
- ClaimRaceGitLab.UpsertVisible: `transition`, `stateOf` and `putStateLabels` of the GitLab board are not modelled beyond the label swap of a claim; there all labels change in one request, a simpler case than GitHub's.
- CommitGraph.Remote.Interfere: one graph stands for all repositories; forced pushes by others and removal of the base branch are not modelled, as the base is taken to be protected.
- GitDelivery.GitDeliveryProvider.Status: the local git commands and the status read are taken to answer, of one moment; only the remote of a delivery or a merge may be unreachable.
- GitLabDelivery.GitLabDeliveryProvider.Deliver: the search for an open merge request (by source branch only) and its creation after the push are not modelled; capability flags that switch operations off are not either.
- GitLabDelivery.GitLabDeliveryProvider.Merge: the merge request is taken to target the base branch; a JSON body that is `null` is not distinguished from a body that is not JSON.
- CreateMarker.ScannerMeetsForm: text is a sequence of Unicode scalar values, where the source has UTF-16 code units; the same holds for all other texts.
- JsonText.PutParses: numbers are printed as plain integers and read exactly, where the source has doubles; a lone surrogate escape, which the source reads as half a character, is not read.
- StateRecord.NewestRecord: the reader and the clock that parses dates are parameters; `ParseRecord` is the reader in use.
- NotionContent.NotionBoard.CreateWork: one run at a time and one body for a key; the search by key is taken to see every page, where the source reads the first 100 hits. Titles, labels, columns, and boards that do not read content are left out. Runs are cut by characters, so that a character is never cut in two.
- NotionRecord.NotionPage.Transition: only the shared property and the column are modelled, and the column as one of the six states.
- FakeBoard.Board.Do: `updateComment`, `bootstrapStates`, text search, limits, seeding over an existing item, time stamps and capabilities other than the defaults are left out.
- Mirroring.MirroringBoard.Serve: mirrors are boards of the reference kind behind requests that may fail; the primary's own writes are taken not to fail halfway. The nested id map is a map over pairs. It is a driver that the source does not have, to state what holds over runs.
- AwaitChecks.Execute: the clock is in whole milliseconds and never runs backwards, and a sleep takes at least as long as asked for.
- ConfigMerge.MergeInto: keys that JavaScript objects inherit are not modelled.
- StateLabels.Issue.Transition: nobody else changes labels or the record comment meanwhile.
- MirrorProjection.SoundCreates: the projections of `Mirroring` are onto mirrors of the reference kind, which confirm by the exact marker; of the other kind only the filing is modelled.
- Requirement.WithChosen: the id is compared literally, where the source puts it into a pattern unquoted; answers are taken to contain no newline where results of two edits are compared.
- The Jira and Redmine adapters, which claim and move items in the same shape.
- `runManagerLoop`, the sandbox decision, option tables, clone URLs, `bootstrapStates` and the other confirmation writers: folds and tables that one reading settles.
- HTTP and child processes, file system, signals, prompts, argument parsing, the web console and reports.
