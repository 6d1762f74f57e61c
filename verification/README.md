# Verification of the background worker

The background worker of the browser extension keeps small state machines in a key-value store that
may fail at any write and outlives the worker itself. This project models those machines in Dafny and
proves what they promise over every run: safety under crashes, interleavings and contradictory
events, conservation, exact stored forms and round trips.

Pure logic is given as functions on datatypes. The classes carry the fields the original objects
mutate; their methods follow the same branches and loops, and each is proved against the step
function that the run theorems are about.

* **Save-capture correlator** (`SaveCapture*`, `ConfirmationFence`). Submitted forms are matched
  against network events in a mutable journal. Matching and settling (`SaveCaptureEvaluation`), the
  life of one request (`SaveCaptureRequests`), the operations (`SaveCaptureSteps`), the object that
  mutates the journal (`SaveCaptureCoordinator`), one confirmation attempt
  (`SaveCaptureConfirmation`), the stored form (`SaveCaptureStorage`), whole runs with crashes
  (`SaveCaptureRuns`, with one of them in full in `SaveCaptureBlockedRun`), what of a run can be read back
  (`SaveCaptureReadBack`, with two runs that lose their journal in `SaveCaptureLostRun`), and the bounded
  fences that stand for an unbounded event log.
* **Client events** (`ClientEvent*`, `RetryPolicy`, `ScopeDirectory`, `LogoutCleanup`). A durable
  at-least-once queue with leases, batch limits and backoff, its uploader, a directory with verified
  writes, and a two-phase clean-up after logout.
* **Pending saves** (`PendingSave*`). A lease-and-consume store over authenticated encryption.
* **Clipboard ownership** (`Clipboard`). Who may clear the clipboard, under every interleaving.
* **Ceremonies and the transfer port** (`DeviceLoginStore`, `AccountPasskey*`, `BinaryTransfer`).

## Assumptions

* The clock stays at or below the largest safe integer. Where a theorem over runs needs a clock that
  does not go back, its hypothesis says so. Each operation reads it once, except where the original
  reads it again with a visible effect.
* The timestamp of a browser event is not later than the clock.
* The source of random ids never repeats itself; the code compares only with what is stored.
* Digests are injective, so a record holds the value where the original holds its digest. Encryption
  is an ideal AEAD: a box opens only with its key, under the data it was sealed with.
* The registrable domain of a host is an uninterpreted function; byte sizes are abstract functions.
* A write may commit or not and may throw or not. Over runs of the queue, the pending saves and the
  account passkeys, one that returns has committed. A restart keeps the store and loses everything
  else. An operation interrupted by a crash stops after one of its durable writes.

## Findings

These are results about the code as it stands; each is a lemma listed below.

* A cross-site submission of a known runtime, and an event that overtakes the continuation of a 307
  or 308 redirect, can store a journal that the parser refuses. The next read replaces it by an empty
  journal that blocks every runtime for one network lifetime. `CrossSiteRequestLosesJournal`,
  `OvertakenContinuationLosesJournal` and their like say exactly when, the evaluation in between
  included; `RunReadsBackExactly` lifts this to runs, and `OvertakenRunLosesJournal` and
  `CrossSiteRunLosesJournal` are two runs that lose a journal.
* An early completion that does not fit its admission is lost, so it does not commute with the
  announcement of its request (`CompletionCommutes` gives the exact condition).
* An evaluation that ends by blocking the journal can leave a capture of a retired runtime in it,
  exactly if the capture stands behind the one that blocked (`RetiredCaptureExactly`). Over runs this
  takes a retirement known from memory alone (`RetiredCaptureOnlyBehindBlock`), and there is such a run
  (`BlockLeavesRetiredCapture`). The block keeps the capture from being confirmed.
* A full fence map rejects confirmations of unrelated frames (`OverflowRejectsAnUnrelatedFence`).
* A clock that goes back can make the queue write an envelope it cannot read: exactly if a claim hands
  out an event enqueued after its own time (`ClaimExact`; `BackwardClockBreaksTheRecord` is an input).
* Logout markers are keyed by identity: a marker is dropped uncleaned exactly by confirming a logout of
  another account of the same identity (`MarkerStays`). The way to that is opened exactly by binding the
  identity to another account while a logout of the earlier one is under way (`RebindingExactly`); it
  takes neither overlapping logouts nor a second receipt, for the discard of a server confirms whatever
  the directory lists (`ServerDiscardDropsMarker`; `SecondAccountDropsMarker` is a run with receipts).
* A capture of the directory is accepted exactly in its own epoch, so the test for pending mutations
  adds nothing to it (`AcceptedIsCurrent`).
* A pending save whose claim has lapsed but has not been reclaimed can still be taken by the document
  that claimed it: `TakeExact` says exactly when a take succeeds and does not mention the lease, and
  `LapsedClaimIsTaken` is a run that takes one.

## Model

| member | source | states |
|---|---|---|
| ConfirmationFence.FenceExact | src/background/autofill-save-capture-coordinator.ts:1404-1526 | The five bounded comparisons decide exactly what an unbounded log would: a fence is accepted after any run of bumps if and only if no new generation began and nothing recorded since affects its frame |
| ConfirmationFence.FenceSound | src/background/autofill-save-capture-coordinator.ts:1411-1422 | An accepted fence has seen no global, tab or frame bump for its tab and frame, through subsumption by a tab, overflow and sequence wrap |
| ConfirmationFence.RunAdvances | src/background/autofill-save-capture-coordinator.ts:1424-1499 | Over any run of bumps the compared height rises above the fence exactly when some recorded bump affects the frame, and otherwise stays the same |
| ConfirmationFence.ApplyAdvances | src/background/autofill-save-capture-coordinator.ts:1438-1499 | One bump, with the global bump a full map forces, raises the height of the frames it affects and of no other frame |
| ConfirmationFence.RecordKey | src/background/autofill-save-capture-coordinator.ts:1446-1499 | Recording the key itself raises the height of the affected frames to the fresh sequence and leaves every other frame as it was after making room |
| ConfirmationFence.RunLogHoldsEveryBump | src/background/autofill-save-capture-coordinator.ts:1438-1499 | No bump is lost: every one of them has an entry in the log the bounded maps are measured against |
| ConfirmationFence.OverflowRejectsAnUnrelatedFence | src/background/autofill-save-capture-coordinator.ts:1455-1465 | Overflow costs precision: a concrete run where a bump of one tab rejects the fence of another tab |
| ConfirmationFence.ConfirmationFences.NextSequence | src/background/autofill-save-capture-coordinator.ts:1424-1436 | The fields move to the next sequence, or to a new generation with empty maps when the sequence is exhausted |
| ConfirmationFence.ConfirmationFences.RecordGlobal | src/background/autofill-save-capture-coordinator.ts:1438-1444 | The object does the global bump that the fence theorems are about |
| ConfirmationFence.ConfirmationFences.RecordRuntimeTab | src/background/autofill-save-capture-coordinator.ts:1446-1453 | The object does the runtime tab bump of the theorems, keeps every map within capacity and every number behind the sequence |
| ConfirmationFence.ConfirmationFences.RecordRuntimeFrame | src/background/autofill-save-capture-coordinator.ts:1455-1465 | The same for a runtime frame |
| ConfirmationFence.ConfirmationFences.RecordNetworkTab | src/background/autofill-save-capture-coordinator.ts:1467-1474 | The same for a network tab |
| ConfirmationFence.ConfirmationFences.RecordNetworkFrame | src/background/autofill-save-capture-coordinator.ts:1491-1499 | The same for a network frame, once the scope has let the event through |
| ConfirmationFence.DeleteFrames | src/background/autofill-save-capture-coordinator.ts:1522-1527 | Exactly the frames of the tab leave the map, and the other numbers stay |
| SaveCaptureEvaluation.SettledJournalIsUnambiguous | src/background/autofill-save-capture-coordinator.ts:1739-1823 | After any evaluation no unconfirmed capture has a failed match, two matches or a match shared with another; and one of a retired runtime is left only behind a capture whose attempt blocked the journal |
| SaveCaptureEvaluation.RetiredCaptureExactly | src/background/autofill-save-capture-coordinator.ts:1739-1823 | An unconfirmed capture of a retired runtime is left by an evaluation if and only if nothing blocked the journal before and it stands behind a capture whose attempt blocks it now |
| SaveCaptureEvaluation.JudgeBlocks | src/background/autofill-save-capture-coordinator.ts:1798-1822 | The loop blocks the journal exactly when it holds a capture whose attempt does |
| SaveCaptureEvaluation.JudgeSpares | src/background/autofill-save-capture-coordinator.ts:1798-1822 | The loop spares a capture it ought to discard exactly when an earlier attempt blocks the journal |
| SaveCaptureEvaluation.ConfirmationNeedsEvidence | src/background/autofill-save-capture-coordinator.ts:1774-1822 | A capture that becomes confirmed had exactly one unexpired match, which succeeded and which no other capture matched; its after-window was closed, no admission fell in its window, and the journal was not blocked |
| SaveCaptureEvaluation.JudgeKeeps | src/background/autofill-save-capture-coordinator.ts:1798-1822 | The loop keeps only captures that were there, and confirmation is the only change it makes to one |
| SaveCaptureEvaluation.JudgeUnblocked | src/background/autofill-save-capture-coordinator.ts:1798-1822 | While no attempt blocks the journal, the in-place loop settles every capture independently of the others |
| SaveCaptureEvaluation.VerdictIgnoresOrder | src/background/autofill-save-capture-coordinator.ts:1785-1822 | The verdict on a capture is the same for every permutation of the captures |
| SaveCaptureEvaluation.EvaluateIgnoresOrder | src/background/autofill-save-capture-coordinator.ts:1739-1823 | Permuting the captures leaves the same set of captures, with the same phases, after the evaluation |
| SaveCaptureRequests.RunKeepsChain | src/background/autofill-save-capture-coordinator.ts:1043-1184 | Over any run of events of a tracked request: the redirect count is the number of hops and at most ten, the current URL is the last target, the hops connect and stay on the site, and a success was the completion of that target, by GET only after a hop that changes the method |
| SaveCaptureRequests.StepKeepsChain | src/background/autofill-save-capture-coordinator.ts:1059-1150 | Each single event keeps the record in step with the history of its hops |
| SaveCaptureRequests.RedirectKeepsChain | src/background/autofill-save-capture-coordinator.ts:1059-1116 | An accepted redirect extends the history by one connected same-site hop, and 307/308 with the same method are the hops that preserve it |
| SaveCaptureRequests.CompletionKeepsChain | src/background/autofill-save-capture-coordinator.ts:1135-1150 | A completion makes the record succeed only for the URL its hops led to |
| SaveCaptureRequests.AddedRequestStartsChain | src/background/autofill-save-capture-coordinator.ts:1383-1402 | A new record starts with no hops, also when an early outcome already decides its phase |
| SaveCaptureRequests.FailedIsAbsorbing | src/background/autofill-save-capture-coordinator.ts:1135-1184 | A failed request stays failed whatever the browser reports afterwards |
| SaveCaptureSteps.CompletionCommutes | src/background/autofill-save-capture-coordinator.ts:676-702 | A completion and the announced request it completes leave the same record in either order if and only if the completion is of a POST, PUT or PATCH, fits the admission, has not expired and is of no runtime under clean-up; otherwise the record stays open one way and is decided the other way |
| SaveCaptureSteps.ResolveThenCompleteRecord | src/background/autofill-save-capture-coordinator.ts:1119-1152 | Request first: the record succeeds exactly when the completion matches it with a success status |
| SaveCaptureSteps.CompleteThenResolveRecord | src/background/autofill-save-capture-coordinator.ts:1139-1145 | Completion first: a fitting, live completion is kept as an early outcome and decides the record the same way; any other is lost |
| SaveCaptureSteps.AddRequestKeepsInv | src/background/autofill-save-capture-coordinator.ts:1383-1402 | Adding a request keeps the keys unique and every list within capacity |
| SaveCaptureSteps.ObserveKeepsInv | src/background/autofill-save-capture-coordinator.ts:1043-1184 | So do redirect, completion and error events |
| SaveCaptureSteps.AdmissionStepsKeepInv | src/background/autofill-save-capture-coordinator.ts:624-712 | So do announcing, resolving and failing an admission |
| SaveCaptureSteps.CaptureStepsKeepInv | src/background/autofill-save-capture-coordinator.ts:945-1016 | So do staging a capture, clearing a tab and noting a navigation |
| SaveCaptureSteps.PruneKeepsInv | src/background/autofill-save-capture-coordinator.ts:1743-1773 | So does pruning expired and retired records |
| SaveCaptureSteps.EvaluateKeepsInv | src/background/autofill-save-capture-coordinator.ts:1739-1823 | So does a whole evaluation |
| SaveCaptureSteps.EvaluateKeepsLive | src/background/autofill-save-capture-coordinator.ts:1739-1823 | An evaluation that blocks nothing keeps precisely the unexpired admissions, requests and outcomes of runtimes without pending clean-up |
| SaveCaptureRuns.RunIsSound | src/background/autofill-save-capture-coordinator.ts:1577-1687 | Over every run of operations, whatever the environment answers, wherever the worker stops and whichever write is too large: every stored journal has unique keys within capacity, no unconfirmed capture with failed, double or shared evidence and none of a runtime whose retirement is finished, and only requests whose record is explained by the hops and the completion this very run reported, at most ten of them, connected and on the site |
| SaveCaptureRuns.RetiredCaptureOnlyBehindBlock | src/background/autofill-save-capture-coordinator.ts:1739-1823 | Over every run: a settling that leaves an unconfirmed capture of a retired runtime knew of the retirement from memory alone, and blocked on an earlier capture |
| SaveCaptureRuns.CapturesAreAccounted | src/background/autofill-save-capture-coordinator.ts:1863-1896 | Over every run: each stored capture was staged by some step, and each confirmed one was confirmed by a step that held the full evidence for it and whose attempt committed; between the request for the step and the last look at the fence there was no global event, none of its tab or frame, and no network event of its frame that the scope did not skip |
| SaveCaptureRuns.StepIsSound | src/background/autofill-save-capture-coordinator.ts:1577-1687 | One operation with its read, settling and two writes, each of which may be the last or overflow, keeps what every stored journal promises |
| SaveCaptureRuns.OpenedIsProper | src/background/autofill-save-capture-coordinator.ts:1601-1631 | Reading a stored journal, dropping expired records and the captures the store does not vouch for, keeps it sound and adds no capture |
| SaveCaptureRuns.SettledIsSound | src/background/autofill-save-capture-coordinator.ts:1587-1593 | Settling any sound journal leaves nothing ambiguous in it |
| SaveCaptureRuns.SettledIsInterred | src/background/autofill-save-capture-coordinator.ts:1743-1764 | A settled journal holds no unconfirmed capture of any runtime whose retirement it records, finished or not |
| SaveCaptureRuns.ChangeIsProper | src/background/autofill-save-capture-coordinator.ts:463-622 | What an activation does to the journal keeps it sound, at each of its intermediate writes, and finishes no retirement whose captures are still there |
| SaveCaptureRuns.OverflowedIsProper | src/background/autofill-save-capture-coordinator.ts:1651-1683 | The blocked journal stored in place of one that is too large keeps what every stored journal promises |
| SaveCaptureRuns.TurnIsInterred | src/background/autofill-save-capture-coordinator.ts:945-1232 | No operation but an activation adds a tombstone, and staging refuses every runtime that has one |
| SaveCaptureRuns.TurnOrigin | src/background/autofill-save-capture-coordinator.ts:1577-1599 | No operation adds a capture except the one it stages |
| SaveCaptureRuns.StepOrigin | src/background/autofill-save-capture-coordinator.ts:1577-1687 | A capture stored after one operation was stored before it, was staged by it, or was confirmed by it with evidence |
| SaveCaptureRuns.ClearShrinks | src/background/autofill-save-capture-coordinator.ts:1689-1737 | Removing captures and requests cannot make the evidence of a remaining capture ambiguous |
| SaveCaptureReadBack.RunReadsBackExactly | src/background/autofill-save-capture-coordinator.ts:1577-1687 | Over every run: everything it ever stores is read back, expired records aside, if and only if no step lets a request that leaves the site of its document, or is overtaken while its continuation is pending, reach the store |
| SaveCaptureReadBack.StepStorableExactly | src/background/autofill-save-capture-coordinator.ts:1577-1687 | One operation with its evaluation and writes stores what parses if and only if it is harmless to what it read, the evaluation drops the offending record or blocks on an attempt, or that journal is not what is stored |
| SaveCaptureReadBack.SettledStorableExactly | src/background/autofill-save-capture-coordinator.ts:1739-1823 | Settling makes a journal storable exactly when an attempt blocks, or each request kept (live and of no runtime under clean-up) is storable |
| SaveCaptureReadBack.CrossSiteRequestLosesJournal | src/background/autofill-save-capture-coordinator.ts:1018-1041 | A reported request costs the stored journal if and only if it is new, of a known runtime, with room for it, off the site of its document, still live at the evaluation, of no runtime under clean-up, no attempt blocks, and the settled journal is stored |
| SaveCaptureReadBack.CrossSiteResolutionLosesJournal | src/background/autofill-save-capture-coordinator.ts:676-702 | The same for an announced request, which must in addition be the one its admission describes, of an unretired runtime |
| SaveCaptureReadBack.OvertakenContinuationLosesJournal | src/background/autofill-save-capture-coordinator.ts:1119-1152 | A completion costs the stored journal if and only if its request waits for the continuation of a 307 or 308 redirect, its runtime is under no clean-up, no attempt blocks, and the settled journal is stored |
| SaveCaptureReadBack.OvertakingRedirectLosesJournal | src/background/autofill-save-capture-coordinator.ts:1043-1117 | The same for a redirect |
| SaveCaptureReadBack.OvertakingErrorLosesJournal | src/background/autofill-save-capture-coordinator.ts:1154-1184 | The same for an error that fits its request |
| SaveCaptureReadBack.RefusedIsLost | src/background/autofill-save-capture-coordinator.ts:1601-1631 | What is read in place of a journal the parser refuses holds nothing and blocks every runtime for one network lifetime |
| SaveCaptureReadBack.NextIsRefused | src/background/autofill-save-capture-coordinator.ts:1577-1687 | The step after a run that has read back so far stores an unreadable journal exactly when it is harmful |
| SaveCaptureReadBack.TurnStorable | src/background/autofill-save-capture-coordinator.ts:463-1232 | Before the evaluation: an operation on a readable store hands on a journal that parses if and only if it neither starts an off-site request nor overtakes a pending continuation |
| SaveCaptureReadBack.StepStaysStorable | src/background/autofill-save-capture-coordinator.ts:1577-1687 | Such an operation stores only what can be read back, wherever it stops and whichever write overflows |
| SaveCaptureReadBack.ChangeStorable | src/background/autofill-save-capture-coordinator.ts:463-622 | An activation at a time within range leaves only tombstones that can be stored |
| SaveCaptureStorage.RoundTrip | src/background/autofill-save-capture-coordinator.ts:1633-1687 | What is written parses back to itself, expired records aside, if and only if keys and limits hold, the deadlines are in range and every record is storable |
| SaveCaptureStorage.EvaluatedRoundTrip | src/background/autofill-save-capture-coordinator.ts:2509-2565 | A storable journal that has just been evaluated is read back exactly as written |
| SaveCaptureStorage.KeySetSize | src/background/autofill-save-capture-coordinator.ts:2509-2565 | Comparing the size of the key set with the length of a list finds precisely the lists with a repeated key |
| SaveCaptureStorage.FreshStorable | src/background/autofill-save-capture-coordinator.ts:2625-2699 | A new request can be stored if and only if its URL is on the site of its document |
| SaveCaptureStorage.StepStorable | src/background/autofill-save-capture-coordinator.ts:1059-1150 | An event keeps a record storable if and only if it holds no continuation or the event is the continuing request |
| SaveCaptureStorage.CompletionStorable | src/background/autofill-save-capture-coordinator.ts:1135-1150 | A completion keeps the journal storable if and only if its request waits for no continuation |
| SaveCaptureStorage.RedirectStorable | src/background/autofill-save-capture-coordinator.ts:1059-1082 | A redirect keeps the journal storable under the same condition |
| SaveCaptureStorage.ErrorStorable | src/background/autofill-save-capture-coordinator.ts:1154-1184 | An error keeps the journal storable unless it fails a request that waits for its continuation |
| SaveCaptureStorage.AddStorable | src/background/autofill-save-capture-coordinator.ts:1383-1402 | Adding a request keeps the journal storable if and only if the request is known, there is no room, or it is storable itself |
| SaveCaptureStorage.BeforeStorable | src/background/autofill-save-capture-coordinator.ts:1018-1041 | An observed request costs the journal exactly when its runtime is known, it is new, there is room, and it leaves the site |
| SaveCaptureStorage.ResolveStorable | src/background/autofill-save-capture-coordinator.ts:676-702 | The same for an announced request, which must in addition be accepted |
| SaveCaptureStorage.EvaluateKeepsStorable | src/background/autofill-save-capture-coordinator.ts:1739-1823 | An evaluation never makes a journal unstorable |
| SaveCaptureStorage.EvaluateKeepsOthers | src/background/autofill-save-capture-coordinator.ts:1739-1823 | It adds no request, and everything but the requests stays storable on its own |
| SaveCaptureStorage.AdmissionStepsKeepStorable | src/background/autofill-save-capture-coordinator.ts:624-712 | Announcing and failing an admission keep the journal storable |
| SaveCaptureStorage.StageKeepsStorable | src/background/autofill-save-capture-coordinator.ts:984-1000 | Staging a storable capture keeps the journal storable |
| SaveCaptureStorage.ClearTabKeepsStorable | src/background/autofill-save-capture-coordinator.ts:1190-1221 | So does clearing a tab |
| SaveCaptureStorage.UnstorableIsLost | src/background/autofill-save-capture-coordinator.ts:1601-1631 | A journal that cannot be parsed is replaced by one that holds nothing and blocks every runtime |
| SaveCaptureCoordinator.Coordinator.EvaluateJournal | src/background/autofill-save-capture-coordinator.ts:1739-1823 | The loops over the mutable fields compute the evaluation that the theorems are about |
| SaveCaptureCoordinator.Coordinator.JudgeCaptures | src/background/autofill-save-capture-coordinator.ts:1798-1822 | The loop that removes and confirms captures in place gives the verdict-by-verdict judgement of the journal before the loop, stopping at the first attempt that blocks |
| SaveCaptureCoordinator.Coordinator.JudgeAt | src/background/autofill-save-capture-coordinator.ts:1798-1822 | One round of that loop: what is kept so far and what is left make up the whole judgement |
| SaveCaptureCoordinator.Coordinator.Decide | src/background/autofill-save-capture-coordinator.ts:1800-1819 | The branches over the prepared match maps give the verdict defined by candidates and owners |
| SaveCaptureCoordinator.Coordinator.CarryOut | src/background/autofill-save-capture-coordinator.ts:1798-1822 | Each verdict and attempt removes, confirms, keeps or blocks, and changes nothing else |
| SaveCaptureCoordinator.Coordinator.PrepareMatches | src/background/autofill-save-capture-coordinator.ts:1785-1796 | The two match maps hold the candidates of every unconfirmed capture and the owners of every request |
| SaveCaptureCoordinator.MatchAll | src/background/autofill-save-capture-coordinator.ts:1785-1796 | One pass over the captures builds both directions of the match graph |
| SaveCaptureCoordinator.AddOwner | src/background/autofill-save-capture-coordinator.ts:1791-1795 | The reverse map gains the capture for its candidates and for no other request |
| SaveCaptureCoordinator.Coordinator.RetirePending | src/background/autofill-save-capture-coordinator.ts:1744-1764 | Retiring runtime by runtime removes precisely the records of all pending retirements and ends those whose callbacks went through |
| SaveCaptureCoordinator.Coordinator.ExpireAdmissions | src/background/autofill-save-capture-coordinator.ts:1765-1767 | Expired admissions go, and together they discard precisely the captures one of them might have belonged to |
| SaveCaptureCoordinator.Coordinator.RecordRequest | src/background/autofill-save-capture-coordinator.ts:1383-1402 | The object adds a request as the step function does, block and early outcome included |
| SaveCaptureCoordinator.Coordinator.RecordEarlyTerminal | src/background/autofill-save-capture-coordinator.ts:1139-1145 | The object keeps an early outcome only for a mutation whose admissions name one runtime |
| SaveCaptureCoordinator.Coordinator.HandleRedirect | src/background/autofill-save-capture-coordinator.ts:1043-1117 | The object follows or fails a redirect as the chain theorem assumes |
| SaveCaptureCoordinator.Coordinator.HandleCompleted | src/background/autofill-save-capture-coordinator.ts:1119-1152 | The object completes a request as the chain theorem assumes |
| SaveCaptureCoordinator.Coordinator.HandleError | src/background/autofill-save-capture-coordinator.ts:1154-1184 | The object fails the request an error fits and blocks the journal on one that contradicts it |
| SaveCaptureCoordinator.Coordinator.HandleBefore | src/background/autofill-save-capture-coordinator.ts:1018-1041 | The object tracks an unannounced request of a known runtime and blocks on an unknown one |
| SaveCaptureCoordinator.Coordinator.BeginAdmission | src/background/autofill-save-capture-coordinator.ts:624-674 | The object admits only from one active, unretired runtime, and blocks when it has no room |
| SaveCaptureCoordinator.Coordinator.ResolveAdmission | src/background/autofill-save-capture-coordinator.ts:676-702 | The object replaces a described admission by its request, and fails one that is not described |
| SaveCaptureCoordinator.Coordinator.FailAdmissionById | src/background/autofill-save-capture-coordinator.ts:704-712 | The object fails the admission and the captures of its window |
| SaveCaptureCoordinator.Coordinator.StageCapture | src/background/autofill-save-capture-coordinator.ts:984-1000 | The shifting loop leaves the newest captures up to capacity, the new one replacing its slot |
| SaveCaptureCoordinator.Coordinator.ForgetTab | src/background/autofill-save-capture-coordinator.ts:1190-1221 | Nothing of the tab stays in any of the six lists, nor among the retirements held in memory |
| SaveCaptureCoordinator.Coordinator.NoteNavigation | src/background/autofill-save-capture-coordinator.ts:788-822 | Only the runtimes that survive the navigation stay active, and only their retirements stay in memory |
| SaveCaptureCoordinator.Coordinator.RememberRetirement | src/background/autofill-save-capture-coordinator.ts:1315-1334 | A retirement is remembered exactly when it is known or there is room; otherwise the volatile fence rises and the memory stays |
| SaveCaptureCoordinator.Coordinator.NoteRetirement | src/background/autofill-save-capture-coordinator.ts:541-588 | A retirement is noted in memory and as one new pending tombstone, or the journal is blocked and both lists stay |
| SaveCaptureCoordinator.Coordinator.RetirePrevious | src/background/autofill-save-capture-coordinator.ts:532-597 | The previous runtime has nothing left that could be confirmed before the new one is recorded; the journal changes only as reported |
| SaveCaptureCoordinator.Coordinator.AdmitRuntime | src/background/autofill-save-capture-coordinator.ts:494-620 | A runtime is accepted only as the sole holder of its frame (of its tab at the top), and never after its own retirement |
| SaveCaptureCoordinator.Coordinator.ActivateRuntime | src/background/autofill-save-capture-coordinator.ts:463-622 | The whole activation: accepted means sole holder, not retired, and nothing confirmable left of the one it replaces; the journal is the settled result of the reported change; a retirement remembered on the way is forgotten again once settled, and a call that throws leaves it in memory or in the journal |
| SaveCaptureCoordinator.EvaluationRevivesNothing | src/background/autofill-save-capture-coordinator.ts:1739-1823 | An evaluation brings nothing of a finished runtime back, and finishes one whose clean-up is pending |
| SaveCaptureCoordinator.WithoutOneMore | src/background/autofill-save-capture-coordinator.ts:1260-1298 | Removing the pending runtimes one after the other removes precisely the records of all of them |
| SaveCaptureConfirmation.NoConfirmedLeftBehind | src/background/autofill-save-capture-coordinator.ts:1863-1919 | However the attempt goes, a store that throws included: an entry the store confirmed is withdrawn or the journal blocks, and only a missing key can leave it untouched |
| SaveCaptureConfirmation.CommittedSawNoEvent | src/background/autofill-save-capture-coordinator.ts:1863-1896 | A recorded attempt saw no global, tab or frame event of its capture since its operation was asked for, and no network event of its frame but skipped ones |
| SaveCaptureConfirmation.BumpNetworkFrame | src/background/autofill-save-capture-coordinator.ts:1476-1499 | The object records a network event exactly when the scope does not skip it |
| SaveCaptureConfirmation.NotedDecides | src/background/autofill-save-capture-coordinator.ts:1476-1499 | Nothing recorded affects the capture if and only if every event leaves it alone or is skipped |
| SaveCaptureConfirmation.UndisturbedIsIrrelevant | src/background/autofill-save-capture-coordinator.ts:1476-1499 | With a scope that covers the journal, a network event that did not disturb a waiting capture lay outside its window and was of no request that matches it |
| SaveCaptureConfirmation.Refresh | src/background/autofill-save-capture-coordinator.ts:1689-1714 | The scope holds the window of every waiting capture, no other window, and every request that matches one |
| SaveCaptureConfirmation.SkippedIsIrrelevant | src/background/autofill-save-capture-coordinator.ts:1476-1499 | An event skipped by the scope lies outside the window of every waiting capture of its frame and is of no matching request |
| SaveCaptureBlockedRun.BlockLeavesRetiredCapture | src/background/autofill-save-capture-coordinator.ts:549-574 | A concrete run that stores an unconfirmed capture of a retired runtime: the write of its tombstone failed, and the next evaluation blocked on the capture before it |
| SaveCaptureLostRun.OvertakenRunLosesJournal | src/background/autofill-save-capture-coordinator.ts:1119-1152 | A concrete run of two activations, two captures, a request, its 307 redirect and a completion before the repeated request: the next read is the empty, blocked journal, and the capture of the other tab is gone |
| SaveCaptureLostRun.CrossSiteRunLosesJournal | src/background/autofill-save-capture-coordinator.ts:1018-1041 | A concrete run whose last request leaves the site: the next read is the empty, blocked journal |
| SaveCaptureBlockedRun.RunOfSteps | src/background/autofill-save-capture-coordinator.ts:463-1152 | The eight operations of that run and the journal each of them stores |
| RetryPolicy.BackoffRange | src/background/client-event-queue.ts:576-584 | For any jitter in [0,1) and any failure count the backoff lies between 2.5 seconds and the cap, and at least at half the nominal delay |
| RetryPolicy.NominalMonotone | src/background/client-event-queue.ts:576-581 | The nominal delay never shrinks with more failures |
| RetryPolicy.NominalDoubles | src/background/client-event-queue.ts:576-581 | Each further failure doubles the nominal delay up to the cap |
| RetryPolicy.SecondsAreCapped | src/background/client-event-queue.ts:557-574 | A Retry-After of digits is read as seconds and capped at a day (section 10.2.3 of RFC 9110) |
| RetryPolicy.RetryAtRange | src/background/client-event-queue.ts:367-371 | A release schedules the retry between 2.5 seconds and a day ahead, saturation aside, for any Retry-After text |
| RetryPolicy.ServerDelayHonoured | src/background/client-event-queue.ts:367-371 | The retry is never earlier than the server asked for |
| RetryPolicy.BatchLimitShrinks | src/background/client-event-queue.ts:361-366 | The batch limit stays at least 1, never grows, and drops on a 413 while above 1 |
| RetryPolicy.BatchLimitReachesOne | src/background/client-event-queue.ts:361-366 | Enough 413 answers bring any batch limit down to 1 |
| ClientEventEnvelope.ParseEnvelope | src/background/client-event-queue.ts:610-692 | The loop accepts an envelope if and only if it is well formed (unique ids, tokens of one scope and one time, batches within count and bytes, failure count zero exactly without a retry, claim not before enqueue), and returns it unchanged |
| ClientEventEnvelope.ParseStoredScope | src/background/client-event-queue.ts:694-725 | One scope is accepted exactly when its numbers, its events and its single claim token are in order |
| ClientEventEnvelope.AddEvent | src/background/client-event-queue.ts:657-675 | Walking the id and token sets event by event detects exactly the first inconsistency |
| ClientEventEnvelope.GroupsFit | src/background/client-event-queue.ts:645-683 | In a well-formed envelope no claim token spans more than the batch limit allows in events or bytes |
| ClientEventEnvelope.CleanupEvents | src/background/client-event-queue.ts:752-764 | The in-place clean-up drops the aged events, frees the lapsed claims and keeps the rest in order |
| ClientEventEnvelope.CleanupEnvelope | src/background/client-event-queue.ts:744-772 | Cleaning every scope and removing the empty ones is reported as a change exactly when it is one |
| ClientEventInvariant.CleanSound | src/background/client-event-queue.ts:744-772 | Clean-up keeps an envelope acceptable to the parser |
| ClientEventInvariant.EnqueueKeeps | src/background/client-event-queue.ts:202-237 | Whatever an enqueue writes is accepted by the parser |
| ClientEventInvariant.ClaimExact | src/background/client-event-queue.ts:239-301 | What a claim writes is accepted by the parser if and only if it hands out nothing that was enqueued after the time of the claim; events it leaves alone may be ahead of the clock |
| ClientEventInvariant.AcknowledgeKeeps | src/background/client-event-queue.ts:304-329 | Whatever an acknowledgement writes is accepted |
| ClientEventInvariant.ReleaseKeeps | src/background/client-event-queue.ts:332-380 | Whatever a release writes is accepted |
| ClientEventInvariant.InspectKeeps | src/background/client-event-queue.ts:382-400 | Whatever an inspection writes is accepted |
| ClientEventInvariant.DiscardKeeps | src/background/client-event-queue.ts:402-413 | Whatever a discard writes is accepted |
| ClientEventInvariant.GrantIsPrefix | src/background/client-event-queue.ts:283-289 | The events a claim marks are a prefix of the scope |
| ClientEventInvariant.ReleaseClears | src/background/client-event-queue.ts:347-354 | After a release no event of the scope is claimed |
| ClientEventQueue.ClientEventQueue.Enqueue | src/background/client-event-queue.ts:202-237 | The object takes the enqueue step of the ledger theorems: limits checked after clean-up, event appended under a fresh id, nothing changed on failure |
| ClientEventQueue.ClientEventQueue.Claim | src/background/client-event-queue.ts:239-301 | The object takes the claim step for any clock: busy under a live lease, deferred before the retry time, otherwise the longest allowed prefix under a fresh token; its record stays readable exactly when what it grants is not ahead of the clock or the write does not take effect |
| ClientEventQueue.ClientEventQueue.BeginSettlement | src/background/client-event-queue.ts:472-496 | A claim may be settled once at a time and only if this worker handed it out |
| ClientEventQueue.ClientEventQueue.Acknowledge | src/background/client-event-queue.ts:304-329 | The object removes exactly the events still held by the token, and forgets the claim unless the write threw, whether or not it took effect |
| ClientEventQueue.ClientEventQueue.Release | src/background/client-event-queue.ts:332-380 | The object frees exactly the events still held by the token and schedules the retry |
| ClientEventQueue.ClientEventQueue.Inspect | src/background/client-event-queue.ts:382-400 | The object reports the scope after clean-up |
| ClientEventQueue.ClientEventQueue.DiscardScope | src/background/client-event-queue.ts:402-413 | The object removes the scope and nothing else |
| ClientEventQueue.ClientEventQueue.ReadEnvelope | src/background/client-event-queue.ts:440-458 | An envelope is read exactly when the parser accepts it |
| ClientEventQueue.ClientEventQueue.WriteEnvelope | src/background/client-event-queue.ts:460-470 | An envelope over the byte limit leaves the store as it was; any other write may take effect or not, and may throw or not |
| ClientEventQueue.SelectEvents | src/background/client-event-queue.ts:266-275 | The batch is the longest prefix within the count and byte limits |
| ClientEventQueue.NewUniqueId | src/background/client-event-queue.ts:514-527 | The id drawn is the first candidate that no stored id or token uses |
| ClientEventQueue.ReleaseHeld | src/background/client-event-queue.ts:347-354 | The loop frees the held events in place, counts them and keeps the order |
| ClientEventQueue.RetryScope | src/background/client-event-queue.ts:344-372 | What the token holds is freed and the scope scheduled and shrunk, exactly when it held something |
| ClientEventQueue.DeleteHeld | src/background/client-event-queue.ts:313-329 | What the token holds leaves its scope, and the scope goes with its last event |
| ClientEventLedger.StepView | src/background/client-event-queue.ts:202-413 | Seen per scope, each operation appends one event, marks a prefix, removes or frees what a token holds, or empties the scope; other scopes see clean-up at most |
| ClientEventRuns.StepKeepsInv | src/background/client-event-queue.ts:202-413 | Each operation, its write taking effect or not and throwing or not, keeps the ledger invariant: parseable store, fresh ids, claims as registered, held events at the front |
| ClientEventRuns.RunKeepsInv | src/background/client-event-queue.ts:202-413 | So does every run of operations, and its store is well formed |
| ClientEventRuns.Conservation | src/background/client-event-queue.ts:202-413 | One operation gives an id at most one fate, and an id is present afterwards exactly when it was enqueued or was present and met none |
| ClientEventRuns.Ledger | src/background/client-event-queue.ts:202-413 | Over every run from the empty queue, in which any write may fail and may throw after taking effect: an id is enqueued at most once, then acknowledged by the token holding it, aged out or discarded at most once, and it is queued exactly while nothing has followed the enqueue |
| ClientEventDelivery.LapsedClaimDoesNothing | src/background/client-event-queue.ts:304-380 | A claim whose lease has lapsed deletes and releases nothing |
| ClientEventDelivery.LiveLeaseHolds | src/background/client-event-queue.ts:744-772 | A claimed event stays as it is under every operation of others while its lease lives and it has not aged |
| ClientEventDelivery.LeaseHolds | src/background/client-event-queue.ts:239-413 | The same over whole runs |
| ClientEventDelivery.AcknowledgedWithinLease | src/background/client-event-queue.ts:239-329 | Acknowledging within the lease, after any run of others, removes every event of the claim that has not aged |
| ClientEventDelivery.LeaseExcludes | src/background/client-event-queue.ts:239-262 | While a lease lives nobody else can claim from the scope |
| ClientEventDelivery.DeliveredInOrder | src/background/client-event-queue.ts:202-413 | From any valid queue, acknowledged ids followed by the remaining ones are a subsequence of the initial ids followed by the enqueued ones |
| ClientEventDelivery.DeliveredInOrderFromNew | src/background/client-event-queue.ts:202-413 | From the empty queue, acknowledged ids come out in enqueue order |
| ClientEventDelivery.BackwardClockBreaksTheRecord | src/background/client-event-queue.ts:727-742 | A concrete claim one millisecond before the enqueue stores an envelope the parser rejects |
| ClientEventBackoff.ReleaseSchedules | src/background/client-event-queue.ts:332-380 | Every successful release schedules within the retry range and sets a batch limit of at least 1 that is not larger, and strictly smaller on a 413 above 1 |
| ClientEventBackoff.LimitNeverGrows | src/background/client-event-queue.ts:202-413 | No operation raises the batch limit of a scope during its life |
| ClientEventBackoff.ScopeOrigin | src/background/client-event-queue.ts:202-413 | Every scope after an operation comes from one with a batch limit at least as large, strictly larger after a 413 |
| ClientEventUploader.ClientEventUploader.Start | src/background/client-event-uploader.ts:80-96 | The first half of a flush is one claim; its answer is passed on, and a ticket is kept exactly when events were handed out; a record that cannot be read is reported and left alone |
| ClientEventUploader.ClientEventUploader.Settle | src/background/client-event-uploader.ts:97-142 | The second half acknowledges an accepted batch and releases any other, and reports the outcome of that one settlement; a record that cannot be read is reported, and the claim may be settled again |
| ClientEventUploader.RefusedBatchStays | src/background/client-event-uploader.ts:97-142 | No outcome but an accepted batch removes an event that has not aged |
| ClientEventUploader.SupersededMeansNothingHeld | src/background/client-event-uploader.ts:97-142 | The count reported is the number of events still held, and "superseded" is reported exactly when none was |
| ScopeDirectory.ClientEventScopeDirectory.ReplaceVerified | src/background/client-event-production.ts:255-313 | Return means the new directory is stored and the guard held all three times; a throw means the old one is stored or the directory is unavailable for good; without interference it succeeds exactly as its writes do |
| ScopeDirectory.ClientEventScopeDirectory.RestoreOwned | src/background/client-event-production.ts:328-363 | The roll-back ends with the previous value stored, or makes the directory unavailable |
| ScopeDirectory.ClientEventScopeDirectory.Upsert | src/background/client-event-production.ts:176-202 | Success stores the old directory with the one entry; failure leaves it or makes it unavailable |
| ScopeDirectory.ClientEventScopeDirectory.Remove | src/background/client-event-production.ts:204-228 | Success removes the entry only if it still names the expected account; failure leaves the directory or makes it unavailable |
| ScopeDirectory.ClientEventScopeDirectory.BeginMutation | src/background/client-event-production.ts:375-382 | Requesting a mutation is the call step of the interleaving theorems, and ends every capture of earlier epochs at once |
| ScopeDirectory.ClientEventScopeDirectory.EndMutation | src/background/client-event-production.ts:379-381 | Its settlement is the settlement step |
| ScopeDirectory.ClientEventScopeDirectory.StartCapture | src/background/client-event-production.ts:146-152 | The first half of a capture is the step that begins a reading, and goes on exactly when that step does |
| ScopeDirectory.ClientEventScopeDirectory.FinishCapture | src/background/client-event-production.ts:152-163 | The second half is the step that ends the reading: it hands out exactly the capture that step adds, with what is stored, only if nothing was requested during the read |
| ScopeDirectory.ClientEventScopeDirectory.AssertCurrent | src/background/client-event-production.ts:165-174 | A capture is accepted exactly with no mutation pending in its own epoch |
| ScopeDirectory.StepKeepsInv | src/background/client-event-production.ts:375-408 | Every call, job and settlement keeps captures of the present epoch equal to the store |
| ScopeDirectory.FreshMachine | src/background/client-event-production.ts:120-145 | A directory object without captures starts in the invariant, whatever is stored |
| ScopeDirectory.AcceptedIsCurrent | src/background/client-event-production.ts:165-174 | Under every interleaving: while a capture is accepted the stored binding is the captured one, and acceptance is decided by the epoch alone |
| ScopeDirectory.CallEndsCaptures | src/background/client-event-production.ts:375-382 | Requesting a mutation ends every earlier capture for ever, before the mutation runs; this is what counting it as pending and advancing the epoch at once are for |
| LogoutCleanup.MarkerStays | src/background/client-event-production.ts:782-816 | A durable success marker stays, or goes in a step that has already had the queue scope and the directory entry removed, if and only if the step does not write the marker of another account of the same identity |
| LogoutCleanup.MarkerStaysOverRuns | src/background/client-event-production.ts:782-964 | Over any run with a crash after any write: the marker is still there, or some step cleaned up first |
| LogoutCleanup.LogoutIsFinished | src/background/client-event-production.ts:782-964 | From a durable success marker, any run with crashes and then one failure-free reconciliation leave no marker, and the data is gone or had been gone before the marker was dropped |
| LogoutCleanup.TakeKeepsOneAccount | src/background/client-event-production.ts:782-996 | While no identity is rebound under a logout of it, receipts, listings, markers and the directory name one account for each identity; confirmations come from receipts, reconciliations and discards of whole servers |
| LogoutCleanup.NewSession | src/background/client-event-production.ts:917-964 | A worker that finds no markers starts in that condition |
| LogoutCleanup.MarkerStaysWithoutRebinding | src/background/client-event-production.ts:782-996 | Hence, with no other assumption on accounts: over any run with a crash after any write the marker is still there, or some step cleaned up first |
| LogoutCleanup.LogoutIsFinishedWithoutRebinding | src/background/client-event-production.ts:782-996 | And then one failure-free reconciliation leaves no marker, and the data is gone or had been gone before the marker was dropped |
| LogoutCleanup.RebindingExactly | src/background/client-event-production.ts:739-764 | A new binding opens the way to losing a marker if and only if it gives its identity another account while a receipt, a listing or a prepared marker of the earlier account is outstanding |
| LogoutCleanup.RebindingLosesMarker | src/background/client-event-production.ts:965-996 | After such a binding a run of four calls loses the marker of the earlier account, with its events still stored |
| LogoutCleanup.SecondAccountDropsMarker | src/background/client-event-production.ts:861-910 | A concrete run with two receipts: the account changes between two preparations, and the second confirmation drops the marker of the first with its data still stored |
| LogoutCleanup.ServerDiscardDropsMarker | src/background/client-event-production.ts:965-996 | A concrete run with one logout and no receipt at the end: the discard of the server confirms the new binding it finds in the directory and drops the marker of the earlier account with its data still stored |
| LogoutCleanup.ServerIsDiscarded | src/background/client-event-production.ts:965-996 | A discard of a completely listed server that meets no failure leaves nothing of it in the directory, the markers or the queue, and touches no other server |
| LogoutCleanup.ReconciledIsClean | src/background/client-event-production.ts:917-964 | One failure-free reconciliation leaves no marker and none of the data the success markers stood for |
| LogoutCleanup.PreparedOnlyKeepsData | src/background/client-event-production.ts:917-964 | A prepared-only marker of a registered account, listed in the directory or not, loses only the marker |
| LogoutCleanup.ReloginSurvives | src/background/client-event-production.ts:739-764 | A session opened after a confirmed logout is not removed by a later reconciliation |
| LogoutCleanup.ClientEventProduction.DiscardLoggedOutBinding | src/background/client-event-production.ts:791-803 | The object removes data first and markers only after both removals reported, and answers true only when everything did |
| LogoutCleanup.ClientEventProduction.DiscardServerScopes | src/background/client-event-production.ts:965-996 | The loop confirms and discards every listed binding; whatever fails it is a run of the crash model, it counts every binding once, and without failures it leaves precisely the rest |
| LogoutCleanup.ClientEventProduction.DiscardBinding | src/background/client-event-production.ts:766-771 | Removing an account removes the queue scope, then the directory entry, and no marker; it answers true only when both are gone |
| LogoutCleanup.ClientEventProduction.MarkLogoutSucceeded | src/background/client-event-production.ts:782-789 | The object writes the success marker before it removes the prepared one |
| LogoutCleanup.ClientEventProduction.SettleConfirmedLogout | src/background/client-event-production.ts:805-816 | The object finishes the confirmed logout of the identity before the identity is used again |
| LogoutCleanup.ClientEventProduction.CaptureLogout | src/background/client-event-production.ts:861-878 | The object marks the bound account as prepared after settling |
| LogoutCleanup.ClientEventProduction.SynchronizeBinding | src/background/client-event-production.ts:739-764 | The object records the binding of a new session only after settling the confirmed logout |
| LogoutCleanup.ClientEventProduction.ReconcileSucceeded | src/background/client-event-production.ts:917-964 | The first loop leaves what discarding every success marker, as far as each attempt went, leaves |
| LogoutCleanup.ClientEventProduction.ReconcilePrepared | src/background/client-event-production.ts:917-964 | The second loop preserves, discards or counts as failed each prepared marker, and its counts add up |
| LogoutCleanup.ClientEventProduction.ReconcileLogoutDiscards | src/background/client-event-production.ts:917-964 | The whole reconciliation is a run of the crash model, and without failures it ends in the reconciled state |
| PendingSaveRuns.TakeReturnsWhatWasPut | src/background/autofill-pending-save-store.ts:563-608 | From the empty store, over any run of puts, confirmations, claims, reclaims and restarts: a successful take returns exactly the credentials put under that id, to the user who put them, after a confirmation and not after an earlier take |
| PendingSaveRuns.NothingIsTakenTwice | src/background/autofill-pending-save-store.ts:563-608 | No entry is ever taken twice |
| PendingSaveRuns.ClaimedWasConfirmed | src/background/autofill-pending-save-store.ts:328-557 | A stored claimed entry was put confirmed or confirmed by a write that took effect and was not taken back |
| PendingSaveRuns.ConfirmedHow | src/background/autofill-pending-save-store.ts:328-388 | An entry becomes confirmed only by a confirmed put that fits and takes effect, or by a confirmation that fits, takes effect and is not rolled back |
| PendingSaveRuns.TamperedConfirmationOpensNothing | src/background/autofill-pending-save-store.ts:981-1005 | Marking a stored unconfirmed entry as confirmed makes its credentials undecryptable |
| PendingSaveRuns.MovedBoxOpensNothing | src/background/autofill-pending-save-store.ts:981-1005 | A ciphertext moved under any other base opens nothing |
| PendingSaveRuns.ClaimedEntryIsTaken | src/background/autofill-pending-save-store.ts:437-557 | Claiming re-encrypts nothing away: the same user gets the same credentials and decision from the claimed entry, and no other user the decision |
| PendingSaveRuns.TakeExact | src/background/autofill-pending-save-store.ts:563-608 | A take hands something out if and only if the prompt is held in the store by this document, its entry has not expired, its decision opens and the write that removes it succeeds; the end of the lease is not asked for |
| PendingSaveRuns.HeldIsTaken | src/background/autofill-pending-save-store.ts:563-608 | It then answers with the credentials, source and decision of that entry, which always open under the same key |
| PendingSaveRuns.LapsedClaimIsTaken | src/background/autofill-pending-save-store.ts:563-608 | A concrete run: a claim of one second is taken most of a minute later |
| PendingSaveRuns.OfferIsStored | src/background/autofill-pending-save-store.ts:437-557 | An offered prompt belongs to a stored entry claimed for the same document and user |
| PendingSaveRuns.OfferedIsTaken | src/background/autofill-pending-save-store.ts:437-608 | After any offer its entry is stored with credentials that open, and a take of it before the entry expires hands over exactly those and the offered decision once its write succeeds |
| PendingSaveRuns.StepKeepsInv | src/background/autofill-pending-save-store.ts:260-657 | Every operation, with the write committed or not and reported or not, keeps the store readable and every entry genuine |
| PendingSaveRuns.RunKeepsInv | src/background/autofill-pending-save-store.ts:260-657 | So does every run, restarts included |
| PendingSaveRuns.PutKeeps | src/background/autofill-pending-save-store.ts:260-325 | In particular a put with its eviction |
| PendingSaveRuns.ConfirmKeeps | src/background/autofill-pending-save-store.ts:328-388 | In particular a confirmation with its roll-back |
| PendingSaveRuns.ClaimKeeps | src/background/autofill-pending-save-store.ts:437-557 | In particular a claim, which looks at each entry in turn |
| PendingSaveRuns.TakeKeeps | src/background/autofill-pending-save-store.ts:563-608 | In particular a take |
| PendingSaveStore.ParseEnvelope | src/background/autofill-pending-save-store.ts:1092-1152 | The loop accepts exactly the envelopes with unique ids, prompts and live lifetimes, and returns the live entries with lapsed claims reclaimed |
| PendingSaveStore.AutofillPendingSaveStore.Put | src/background/autofill-pending-save-store.ts:260-325 | The object takes the put step of the run theorems |
| PendingSaveStore.AutofillPendingSaveStore.ConfirmUnconfirmed | src/background/autofill-pending-save-store.ts:328-388 | The object takes the confirm step; a guard lost after the write rolls it back to the entries that were read |
| PendingSaveStore.AutofillPendingSaveStore.Claim | src/background/autofill-pending-save-store.ts:437-557 | The object takes the claim step, entry by entry |
| PendingSaveStore.AutofillPendingSaveStore.Take | src/background/autofill-pending-save-store.ts:563-608 | The object takes the take step: the entry leaves the store before its credentials are handed out |
| PendingSaveStore.AutofillPendingSaveStore.Dismiss | src/background/autofill-pending-save-store.ts:611-639 | The object dismisses only a prompt claimed by the same document |
| PendingSaveStore.AutofillPendingSaveStore.DiscardCapture | src/background/autofill-pending-save-store.ts:391-401 | The object removes the one entry |
| PendingSaveStore.AutofillPendingSaveStore.ClearTab | src/background/autofill-pending-save-store.ts:641-650 | The object removes the entries of the tab |
| PendingSaveStore.AutofillPendingSaveStore.Clear | src/background/autofill-pending-save-store.ts:652-657 | The object removes everything |
| PendingSaveStore.AutofillPendingSaveStore.Evict | src/background/autofill-pending-save-store.ts:305-319 | The loop drops the oldest entries until the envelope fits |
| PendingSaveStore.AutofillPendingSaveStore.DrawId | src/background/autofill-pending-save-store.ts:688-704 | The id drawn is the first candidate that no stored id or prompt uses |
| PendingSaveStore.AutofillPendingSaveStore.ReadEnvelope | src/background/autofill-pending-save-store.ts:706-721 | Reading parses the record, or answers empty and in need of tidying, and raises the high-water revision; it writes nothing |
| PendingSaveStore.AutofillPendingSaveStore.WriteEnvelope | src/background/autofill-pending-save-store.ts:723-745 | Writing stores a record above every revision seen, or nothing |
| Clipboard.OwnershipIsNewest | src/background/clipboard.ts:59-115 | Under every interleaving of awaits: a set ownership has the current generation and the digest of the copy of that generation, and successive ownerships have strictly increasing alarm times |
| Clipboard.ClearsAreJustified | src/background/clipboard.ts:117-142 | Every clear sent by an alarm carries the digest of the one ownership with that alarm time and is sent at most once; a clear of a session transition carries the digest of the last copy before it |
| Clipboard.LateAlarmIsIgnored | src/background/clipboard.ts:329-338 | An alarm of any earlier ownership changes and sends nothing |
| Clipboard.StepKeepsInv | src/background/clipboard.ts:38-340 | Every continuation after every await keeps the invariant behind the three rows above |
| Clipboard.RunKeepsInv | src/background/clipboard.ts:38-340 | So does every run of interleaved continuations |
| Clipboard.ClipboardWorker.CancelClear | src/background/clipboard.ts:59-68 | Cancelling forgets the ownership and makes every pending continuation stale |
| Clipboard.ClipboardWorker.ScheduleClear | src/background/clipboard.ts:144-191 | Scheduling registers a claim of a fresh generation |
| Clipboard.ClipboardWorker.DigestArrived | src/background/clipboard.ts:79-83 | The digest counts only for the claim it was computed for |
| Clipboard.ClipboardWorker.SettingArrived | src/background/clipboard.ts:84-106 | The setting creates the ownership only while the claim is still the current one, with a time above every earlier one |
| Clipboard.ClipboardWorker.FinishSettling | src/background/clipboard.ts:107-114 | The finished claim is forgotten only if it is still the pending one |
| Clipboard.ClipboardWorker.ClearOwnedOnSessionTransition | src/background/clipboard.ts:274-289 | The transition takes over the owned or pending copy and forgets it |
| Clipboard.ClipboardWorker.PendingHasSettled | src/background/clipboard.ts:293-304 | The transition goes on with the digest of the copy that was pending |
| Clipboard.ClipboardWorker.TransitionSettingArrived | src/background/clipboard.ts:306-313 | The setting decides whether the transition clears |
| Clipboard.ClipboardWorker.ReleaseTransition | src/background/clipboard.ts:317-327 | The transition ends and gives up what it held |
| Clipboard.ClipboardWorker.OffscreenArrived | src/background/clipboard.ts:117-142 | The answer ends the one clear that was in flight |
| Clipboard.ClipboardWorker.HandleClipboardAlarm | src/background/clipboard.ts:329-338 | An alarm starts a clear only for the ownership with its exact time |
| Clipboard.ClipboardWorker.WriteHasAnswered | src/background/clipboard.ts:211-235 | A write that became stale is followed by a clear of its own digest |
| DeviceLoginStore.OneSuccessPerOwner | src/background/device-login-state-store.ts:281-424 | Over any run with restarts: two operations that succeed name different owner tokens, with increasing generations |
| DeviceLoginStore.OperationAdvances | src/background/device-login-state-store.ts:281-424 | Every operation leaves the stored value or raises its generation, and succeeds only above the generation its owner named |
| DeviceLoginStore.GenerationsNeverGoBack | src/background/device-login-state-store.ts:281-664 | Over any run with restarts the stored generation never falls |
| DeviceLoginStore.DeadStaysDead | src/background/device-login-state-store.ts:437-593 | No operation of another worker reveals or revives a claim of a dead worker |
| DeviceLoginStore.SecretsDieWithTheWorker | src/background/device-login-state-store.ts:437-637 | Over any run of other workers, the claimed ceremony of a dead worker is never answered again with its secret state |
| DeviceLoginStore.ReadAdvances | src/background/device-login-state-store.ts:437-593 | Reading, with its expiry, retirement and purge, keeps generations below the high-water mark and moves them forward only |
| DeviceLoginStore.DeviceLoginStateStore.Write | src/background/device-login-state-store.ts:240-278 | The object takes the write step of the run theorems |
| DeviceLoginStore.DeviceLoginStateStore.ReplaceState | src/background/device-login-state-store.ts:281-316 | The object replaces only the active ceremony the owner names, and only by one of the same ceremony |
| DeviceLoginStore.DeviceLoginStateStore.ClaimState | src/background/device-login-state-store.ts:319-352 | The object claims only the active ceremony the owner names |
| DeviceLoginStore.DeviceLoginStateStore.ReleaseState | src/background/device-login-state-store.ts:355-380 | The object returns a claim to active only for the worker that holds it |
| DeviceLoginStore.DeviceLoginStateStore.RetireState | src/background/device-login-state-store.ts:383-413 | The object turns the named claim (when retiring, also the named active ceremony) into one of unknown outcome |
| DeviceLoginStore.DeviceLoginStateStore.ClearState | src/background/device-login-state-store.ts:416-424 | The object removes only what the owner names |
| DeviceLoginStore.DeviceLoginStateStore.ReadEnvelope | src/background/device-login-state-store.ts:437-593 | The object reads as the read step does: expired, foreign and unreadable records are retired or erased |
| DeviceLoginStore.DeviceLoginStateStore.EraseEnvelope | src/background/device-login-state-store.ts:639-645 | Erasing writes an empty record of the next generation, or removes the record when generations are exhausted |
| DeviceLoginStore.DeviceLoginStateStore.RetireEnvelope | src/background/device-login-state-store.ts:609-637 | Retiring keeps nothing of the ceremony but its public part |
| AccountPasskeyRegistry.ClaimedAtMostOnce | src/background/account-passkey-attempt-registry.ts:123-209 | Over any run of operations of any number of workers, restarts included: an attempt is claimed with success at most once, and only while it waits |
| AccountPasskeyRegistry.AccountPasskeyAttemptRegistry.Create | src/background/account-passkey-attempt-registry.ts:123-149 | The object stores a waiting attempt only when no live attempt is stored, with a valid lifetime and a higher generation |
| AccountPasskeyRegistry.AccountPasskeyAttemptRegistry.Claim | src/background/account-passkey-attempt-registry.ts:151-171 | The object claims only the waiting attempt the owner names |
| AccountPasskeyRegistry.AccountPasskeyAttemptRegistry.MarkOutcomeUnknown | src/background/account-passkey-attempt-registry.ts:173-199 | The object turns the named claim into one of unknown outcome with a bounded lifetime |
| AccountPasskeyRegistry.AccountPasskeyAttemptRegistry.Clear | src/background/account-passkey-attempt-registry.ts:201-209 | The object removes only the attempt the owner names |
| AccountPasskeyRegistry.AccountPasskeyAttemptRegistry.ReadEnvelope | src/background/account-passkey-attempt-registry.ts:215-245 | The object reads only a live, well-formed record and erases any other |
| AccountPasskeyCoordinator.ActivatedAtMostOnce | src/background/account-passkey-coordinator.ts:149-219 | Under any interleaving of begin, submit, cancel, status and restarts, activate is called at most once for an attempt id |
| AccountPasskeyCoordinator.ClaimedBeforeActivation | src/background/account-passkey-coordinator.ts:149-219 | Whenever activate is about to be called, the stored attempt is claimed by that owner and has not been activated |
| AccountPasskeyCoordinator.ActivatedNeverWaits | src/background/account-passkey-coordinator.ts:149-294 | No later step returns an activated attempt to waiting |
| AccountPasskeyCoordinator.LeftoverClaimIsRetired | src/background/account-passkey-coordinator.ts:249-269 | A claim found by a visit becomes one of unknown outcome if and only if it is still live at the second reading, its times and generation are in range and the new record fits and is written; with a working store and a record that fits, the claim is gone in every other case |
| AccountPasskeyCoordinator.StepKeepsInv | src/background/account-passkey-coordinator.ts:86-294 | Every step of the ceremony keeps the invariant behind the rows above |
| AccountPasskeyCoordinator.AccountPasskeyCoordinator.Begin | src/background/account-passkey-coordinator.ts:86-124 | Nothing is begun while a live attempt is stored; the server is checked again after the attempt was stored, and when it changed the attempt stays without a lease |
| AccountPasskeyCoordinator.AccountPasskeyCoordinator.ReadStatus | src/background/account-passkey-coordinator.ts:249-269 | The object reads the status and retires a left-over claim or an attempt whose context is gone |
| AccountPasskeyCoordinator.AccountPasskeyCoordinator.SubmitVerify | src/background/account-passkey-coordinator.ts:149-184 | The object verifies the named waiting attempt and its context before claiming |
| AccountPasskeyCoordinator.AccountPasskeyCoordinator.SubmitTakeClaim | src/background/account-passkey-coordinator.ts:186-189 | The claim is durable before the submission may activate |
| AccountPasskeyCoordinator.AccountPasskeyCoordinator.Activate | src/background/account-passkey-coordinator.ts:190-195 | The activation happens only from a taken claim |
| AccountPasskeyCoordinator.AccountPasskeyCoordinator.SubmitFinish | src/background/account-passkey-coordinator.ts:196-217 | A definite refusal clears the attempt, anything unclear marks its outcome unknown |
| AccountPasskeyCoordinator.AccountPasskeyCoordinator.CancelAttempt | src/background/account-passkey-coordinator.ts:229-247 | Cancelling clears a waiting attempt of the same connector, gives a claimed one an unknown outcome, and leaves an unknown one |
| BinaryTransfer.SplitIsExact | src/background/binary-transfer-port-handler.ts:223-248 | The chunks concatenate to the bytes, their count is the ceiling of size over chunk limit, and each is non-empty and within the limit |
| BinaryTransfer.ReceiveExact | src/background/binary-transfer-port-handler.ts:192-202 | A receiver that follows the upload rules ends with the concatenation of the chunks exactly when their total size is the announced one |
| BinaryTransfer.DownloadArrives | src/background/binary-transfer-port-handler.ts:223-248 | What the download sends, received by the same rules, is the original |
| BinaryTransfer.OneTransferAtATime | src/background/binary-transfer-port-handler.ts:99-130 | Over any run the slot is held by at most one transfer, and a running operation holds it until it settles even if its port has closed |
| BinaryTransfer.SlotStepKeeps | src/background/binary-transfer-port-handler.ts:99-130 | Each slot event keeps that condition |
| BinaryTransfer.Transfer.AcceptChunk | src/background/binary-transfer-port-handler.ts:192-199 | A chunk is accepted exactly if it is the next in order and fits; the buffer then holds the accepted chunks in order |
| BinaryTransfer.Transfer.Seal | src/background/binary-transfer-port-handler.ts:201-202 | The upload is complete exactly when the accepted chunks fill the buffer, and the buffer is then their concatenation |
| BinaryTransfer.Transfer.SendDownload | src/background/binary-transfer-port-handler.ts:223-246 | The chunks sent are a prefix of the original split although each is zeroed before the next is read; at most one is unacknowledged; all are sent when it reports done; the buffer ends all zero in every case |
| BinaryTransfer.Transfer.Close | src/background/binary-transfer-port-handler.ts:114-130 | Closing an open transfer wipes its buffer and forgets the request and the awaited acknowledgement, and closing again changes nothing |
| BinaryTransfer.Transfer.Fail | src/background/binary-transfer-port-handler.ts:131-139 | An open transfer reports once (after a commit only that the result is unconfirmed), closes and wipes its buffer; a closed one reports nothing |
| BinaryTransfer.Transfer.BeginUpload | src/background/binary-transfer-port-handler.ts:173-187 | A transfer starts once, with a fresh buffer of the announced size and nothing accepted; a second announcement, also after chunks, is refused and changes nothing |
| BinaryTransfer.BinaryTransferPortHandler.Handle | src/background/binary-transfer-port-handler.ts:99-113 | A port is accepted only while the slot is free |
| BinaryTransfer.BinaryTransferPortHandler.Close | src/background/binary-transfer-port-handler.ts:114-130 | Closing frees the slot unless the operation is running |
| BinaryTransfer.BinaryTransferPortHandler.FinishExecution | src/background/binary-transfer-port-handler.ts:245-249 | The end of the operation frees the slot of a closed port |

## Left out

- Queue: `recoverCorruptState` and the kinds of parse error; every envelope the parser refuses is one answer, unreadable.
- Uploader: the per-scope chain of flushes. A flush is its claim and its settlement, with any operations of others in between.
- Event service, alarm scheduler and transport of the client events; the transport answers are parameters.
- SaveCaptureRuns.RunIsSound: the environment decides the volatile memory of retirements at each operation, one reading of the capture store stands for both readings during staging, and an exhausted revision counts as not written.
- SaveCaptureReadBack.RunReadsBackExactly: events are reported no earlier than they happened, and their times are in the exact range; without this a record may be unreadable for its times alone.
- SaveCaptureCoordinator.Coordinator.ActivateRuntime: the username stages it clears are not modelled; whether a clean-up callback throws is a parameter, and so is the set of runtimes whose clean-up succeeds in an evaluation.
- SaveCaptureEvaluation.SettledJournalIsUnambiguous: the confirmation attempt is one answer per capture, `discardCapture` does not throw, and metadata is left out of the record.
- SaveCaptureEvaluation.EvaluateIgnoresOrder: an attempt that blocks the journal stops the loop, so the statement is for attempts that do not block.
- SaveCaptureConfirmation.SkippedIsIrrelevant: the windows are compared with the event time, which is taken to be below the largest safe integer.
- LogoutCleanup.MarkerStaysWithoutRebinding: each operation settles, reads and writes with no other operation in between; only a listing is separate from the confirmations it leads to, and a crash may fall after any write.
- ScopeDirectory: canonical forms of server and account names; a binding is a pair of numbers.
- PendingSaveStore: the nine fields of the security binding are one value; clearing of key and plaintext arrays is not modelled; the evaluator callback is a function.
- Clipboard: the digest arrays are values, so zeroing them is not modelled; offscreen messages and storage are events with any answer.
- DeviceLoginStore and AccountPasskeyRegistry: the challenge and connector parsers; a ceremony is an id with a secret and a public part.
- AccountPasskeyCoordinator: `resume` reads the attempt as `status` does and starts nothing; server capability and lease checks are parameters.
- BinaryTransfer: message parsing, the one-message-at-a-time gate of the port, idle and policy timers, and the authorisation of each message, which may refuse any of them.
- Object identity of claims, receipts and leases is modelled by equality of values that are never issued twice.
- Checks on the shape of JavaScript values (own keys, prototypes, dense arrays, UUID and URL syntax) are replaced by types.
- Web-request registration, tabs, popups, real timers, context menus, commands, notifications and settings.
