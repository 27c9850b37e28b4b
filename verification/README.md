# Verified model of the RayChat kernel

RayChat keeps a coding agent's conversation, its workspace files and its installed plugins consistent through
crashes, failing callbacks and concurrent threads. This project models the protocols that do this and proves what
they promise. Every protocol is a transition system: the states, branches and constants are those of the code, and
whatever the environment decides (a crash after any effect, a short or failing write, a hook that raises, the next
step of another thread) is an explicit parameter that the theorems quantify over.

| module | protocol |
|---|---|
| `Effects`, `Containers`, `JsonText`, `Sequences` | one effect at a time on an abstract disk: it works, fails, is interrupted, or the process dies; private directories; JSON text; sequence facts |
| `WorkspaceTransactions`, `LongBatches` | journaled batches of workspace files: staging, renames, commit, rollback, recovery |
| `PackageTransactions` | package trees swapped together with their receipt |
| `JournalTexts` | the JSON text of both transaction journals, whose length decides what can be saved and recovered |
| `SessionRecords`, `SessionJournal`, `SessionStore` | the append-only session tree, its file, and replay on opening |
| `SessionTurns` | turns of a session above the store: checkpoints, commit, abort, external completion |
| `SessionRuns`, `SessionEvents`, `SessionSends` | runs of turns, restores, forks, resets and prompts, and what reopening the file restores after them |
| `Conversation` | the model loop as a producer of history |
| `Generations`, `PluginLoading` | operations pinned to plugin generations, reload requests, deferred close, all-or-nothing loading |
| `Workers` | the background worker: queue, cancellation, approvals, quiescence, shutdown |
| `DependencyOrder` | depth-first ordering of plugin dependencies |
| `SharedGenerations` | source generations shared by reference count |
| `ChunkedBodies`, `RecordLog`, `ConsoleText`, `Frames`, `PortablePaths` | the sequential algorithms |

Objects whose methods change fields in the code are classes here. Their methods are proved equal to a step function
on a value (`View()`), and the theorems about runs are lemmas about that function. A `fates`, `calls`, `fuse` or
`attempts` argument scripts the environment; an empty script means that everything works.

Some promises hold only under a condition. The code is modelled as it is; a lemma or method shows a failing input, and
the condition is proved:

* A batch of workspace files whose pending record just fits the journal limit cannot be rolled back or recovered,
  because `rolled_back` is longer than `pending` (`LongBatches.TooLongToForget`, `WorkspaceTransactions.RecoverRepeatedly`).
* Packages whose names agree up to case are begun, and after a crash they are never recovered, because recovery compares
  folded names (`PackageTransactions.CrashedTwins`, `RecoverRepeatedly`). The same holds of a journal that is too long to be
  read, as it is with a receipt of 48 MiB in base64 (`PackageTransactions.TooLongToRead`).
* A commit or checkpoint that fails after its record was completely written, and cannot be cut off the file, is taken
  back in memory and returns on reopening (`SessionRuns.AbortedTurnReturns`, `FailedCheckpointReturns`, `StayingTurn`,
  `StayedRunsAgree`).
* A fork ends with another state in memory than in the file if a restore hook changes it, and with another history if the
  fork fails and a hook raises on the way back (`SessionEvents.ForkForgetsHooks`, `ForkFailsTwice`, `EventSettles`).
* A state that a hook or command writes after a turn is lost on reopening unless somebody checkpoints it
  (`SessionTurns.LateWrites`).
* A plugin that emits an event of a kind the worker uses itself gives its job a second end, or one that was reported
  complete can be cancelled (`Workers.EmittedEndsTwice`, `EmittedCompletesDoomed`, `ReliableExactly`).
* A conversation reset that raises ends the worker; the jobs behind it never get a terminal event
  (`Workers.FailedResetDropsJobs`, `LosesExactly`, `EveryJobEnds`).
* A pending reload request gets neither its commit nor its rollback hook when an exception leaves the activation loop
  before it, or when its own activation raises after the switch (`Generations.StrandsUnlessOrderly`,
  `Generations.InterruptionStrands`).
* Retaining a source tree whose directory was already deleted cannot bring it back
  (`SharedGenerations.LateRetainIsTooLate`, `RetainSavesExactly`).
* An append to the record log that raises may have kept its record, if only the close failed (`RecordLog.OnlySuccessful`).
* A control sequence behind an unfinished control string is swallowed with it (`ConsoleText.TracelessExactly`).
* A payload that selects a branch must not be appended as a plain record (`SessionStore.AppendAgrees`).

The comment on `_MAX_PROSE_ASIDES` in `raychat/session.py` calls the tolerated asides consecutive. The code resets
their count only when a valid action arrives, so malformed replies in between do not; the model follows the code.

## Model

| member | source | states |
|---|---|---|
| `WorkspaceTransactions.Recover` | raychat/workspace_transactions.py:569-620 | crash recovery: a record that recovery does not trust (aliases after folding, reserved names, made for another root, too long) is refused unchanged; an undecided batch ends as it began if its rolled-back record fits the journal limit, and otherwise stays undecided with every file at `before`; a decided batch ends as decided; once a decision is recorded no public path is written; a pending journal with a change in no legal standing is refused with nothing moved |
| `WorkspaceTransactions.RecoverRepeatedly` | raychat/workspace_transactions.py:569-620 | after any number of recoveries that crash at any point, one undisturbed recovery ends the batch (no journal, no container left) if and only if recovery trusts the record and the rolled-back record, where one is needed, fits the limit; the files are all at `before`, or all at `after` if the commit was recorded, even where the record stays |
| `WorkspaceTransactions.Live` | raychat/workspace_transactions.py:383-620 | crash atomicity of a whole batch: every requested file has the requested content, with the mode it had or that of a new file, or every file is as it was; success means the former, and an acceptable, fitting batch that nothing disturbs succeeds; a journal that a crash left is retired if and only if the container names stay apart after folding and the rolled-back record, where one is needed, fits the limit; a request whose record leaves room for the longest status never leaves a journal |
| `LongBatches.TooLongToForget` | raychat/workspace_transactions.py:362-369 | 3765 new files below a directory with a long name: their pending record is exactly as long as it may be, so they are begun, and after a crash every recovery raises |
| `LongBatches.JustFits` | raychat/workspace_transactions.py:353-369 | the length of that record, computed from the root, the paths, the container names, the inode numbers and the versions, is the limit |
| `LongBatches.OneChange` | raychat/workspace_transactions.py:181-194 | the length of one of its changes |
| `LongBatches.InputsAcceptable` | raychat/workspace_transactions.py:434-480 | the request passes every check, under every case folding that leaves lower-case letters and digits alone |
| `WorkspaceTransactions.ForgetRepeatedly` | raychat/workspace_transactions.py:553-620 | a recorded decision is retired by repeated recovery whatever the files have become since; none is touched |
| `WorkspaceTransactions.RequestIsTrusted` | raychat/workspace_transactions.py:569-620 | recovery trusts the record of a request if and only if its containers stay apart after folding |
| `WorkspaceTransactions.RecoverPending` | raychat/workspace_transactions.py:530-551 | rolling a pending record back ends it if and only if the longer record fits; otherwise every file is at `before` and the pending record stays |
| `WorkspaceTransactions.Promote` | raychat/workspace_transactions.py:383-551 | an acceptable, fitting batch that nothing disturbs is published; prepare, publish, commit and roll back, or cancel, reject or leave the batch to recovery, as its owner may: leaves an undecided, decided or untouched disk, whatever fails |
| `WorkspaceTransactions.PublishBatch` | raychat/workspace_transactions.py:494-551 | a prepared batch that nothing disturbs is committed; applying, committing and, after an exception, rolling back or leaving it to the next recovery keeps the batch undecided or decided, and success means committed |
| `WorkspaceTransactions.RollBackBatch` | raychat/workspace_transactions.py:530-551 | an undecided batch may be rolled back, a committed one never is, whatever the status in memory |
| `WorkspaceTransactions.Begin` | raychat/workspace_transactions.py:383-480 | only private containers change before the journal names the batch; a journal that exists, aliases after folding, overlapping or reserved paths, hard links to one another or to the lock, edited or oversized files are refused with nothing changed; a record over the limit is not written; otherwise, undisturbed, the batch is prepared for the whole request |
| `WorkspaceTransactions.AbandonUnrecorded` | raychat/workspace_transactions.py:423-432 | cleaning up an unrecorded batch touches no public file and no journal |
| `WorkspaceTransactions.StageAll` | raychat/workspace_transactions.py:383-420 | every input gets one intact container whose change matches the input, public files untouched |
| `WorkspaceTransactions.Stage` | raychat/workspace_transactions.py:298-330 | one container holds exactly the incoming copy, with the mode of the file that it replaces or that of a new file, and the backup; the change classifies as original |
| `WorkspaceTransactions.CleanupReserved` | raychat/workspace_transactions.py:157-173 | only the abandoned container may disappear |
| `WorkspaceTransactions.WorkspaceTransaction.Save` | raychat/workspace_transactions.py:362-369 | a record over the limit is refused unchanged; otherwise the journal is the old one or the new one, and the status in memory follows only if the write returned |
| `WorkspaceTransactions.WorkspaceTransaction.Apply` | raychat/workspace_transactions.py:494-509 | a batch that is not ready is refused unchanged; otherwise the disk is the start with some first renames done, all of them on success |
| `WorkspaceTransactions.WorkspaceTransaction.Commit` | raychat/workspace_transactions.py:511-528 | once the decision is on disk nothing public is written; a batch that is not published, or whose committed record is too long, is refused unchanged |
| `WorkspaceTransactions.WorkspaceTransaction.Rollback` | raychat/workspace_transactions.py:530-551 | raises before moving anything if a change is in no legal standing; otherwise stays recoverable at every step and ends as the batch began, where a rolled-back record over the limit raises after the files are restored |
| `WorkspaceTransactions.WorkspaceTransaction.Restore` | raychat/workspace_transactions.py:291-296 | undoes published changes last first; stopping anywhere leaves a partly undone batch |
| `WorkspaceTransactions.WorkspaceTransaction.Cleanup` | raychat/workspace_transactions.py:559-567 | shrinks containers, then retires the journal when none is left, never a public file; keeps a journal whose status is not the expected one |
| `WorkspaceTransactions.WorkspaceTransaction.Finish` | raychat/workspace_transactions.py:553-557 | cleanup failures are only logged; interruptions and death still pass |
| `WorkspaceTransactions.IsReady` | raychat/workspace_transactions.py:494-503 | a batch is published only from a pending journal with every change untouched |
| `WorkspaceTransactions.WorkspaceTransaction.IsPublished` | raychat/workspace_transactions.py:522-525 | reports exactly that every file is at its new content |
| `WorkspaceTransactions.Survey` | raychat/workspace_transactions.py:536-545 | the published changes are found in order, or one change is in no legal standing |
| `WorkspaceTransactions.RemoveTree` | raychat/workspace_transactions.py:425-437 | removing a container stops anywhere between its first file and the directory itself |
| `WorkspaceTransactions.PublishStep` | raychat/workspace_transactions.py:291-296 | publishing an original change makes it applied |
| `WorkspaceTransactions.UndoStep` | raychat/workspace_transactions.py:291-296 | undoing an applied change makes it restored |
| `WorkspaceTransactions.PublishPrefix` | raychat/workspace_transactions.py:494-509 | after any number of publishing renames exactly those changes are applied, the others original, and no other path has changed |
| `WorkspaceTransactions.AppliedMembers` | raychat/workspace_transactions.py:536-545 | the changes to undo are exactly the applied ones, each once |
| `WorkspaceTransactions.UndoSuffix` | raychat/workspace_transactions.py:546-548 | after any number of undoing renames exactly those changes are restored and all others stand as before |
| `WorkspaceTransactions.StandingFrame` | raychat/workspace_transactions.py:251-289 | the standing of a change depends only on its path and its container |
| `WorkspaceTransactions.PublishFrame` | raychat/workspace_transactions.py:291-296 | publishing one change does not alter the standing of another |
| `WorkspaceTransactions.UndoFrame` | raychat/workspace_transactions.py:291-296 | undoing one change does not alter the standing of another |
| `WorkspaceTransactions.CommitDecides` | raychat/workspace_transactions.py:511-528 | a fully published batch with a recorded commit is decided: every file at `after` |
| `WorkspaceTransactions.RollbackDecides` | raychat/workspace_transactions.py:530-551 | a fully undone batch with its record replaced is decided: every file equals its `before` in content and mode, from any mixture |
| `WorkspaceTransactions.FullyUndone` | raychat/workspace_transactions.py:546-548 | undoing everything that is published gives every file its `before` content and mode, from any mixture |
| `WorkspaceTransactions.RollbackKeepsUndecided` | raychat/workspace_transactions.py:546-548 | stopping a rollback anywhere leaves a journal that recovery can finish |
| `WorkspaceTransactions.RollbackKnown` | raychat/workspace_transactions.py:530-551 | wherever a rollback stops, the batch is undecided or rolled back |
| `WorkspaceTransactions.PublishKeepsUndecided` | raychat/workspace_transactions.py:494-509 | stopping the publication anywhere leaves a journal that recovery can finish |
| `WorkspaceTransactions.UndoneIsLeftover` | raychat/workspace_transactions.py:559-567 | after a full undo every container holds only what cleanup may remove |
| `WorkspaceTransactions.ShrunkLeftover` | raychat/workspace_transactions.py:233-249 | a partly removed container still is one cleanup may remove |
| `WorkspaceTransactions.StagedGrows` | raychat/workspace_transactions.py:481-492 | filling one container leaves the others staged |
| `WorkspaceTransactions.TamperedConflicts` | raychat/workspace_transactions.py:251-289 | a container that another directory has replaced, one with foreign contents, and a file that is neither old nor new are never taken for those of the transaction |
| `WorkspaceTransactions.TrustedExactly` | raychat/workspace_transactions.py:569-620 | recovery trusts exactly the records that are short enough, of this root, with 1 to 4096 changes, whose backups are the old files, and whose paths and containers are not reserved and do not alias one another after folding |
| `WorkspaceTransactions.AcceptableExactly` | raychat/workspace_transactions.py:434-480 | exactly those requests are acceptable that name 1 to 4096 files of at most 64 MiB, none reserved, folding onto another or below it, none a hard link to another or to the lock, and none edited meanwhile |
| `WorkspaceTransactions.WorkspaceTransaction.RemoveBoxes` | raychat/workspace_transactions.py:559-563 | every container goes unless one was tampered with; those stay as they are |
| `JournalTexts.RecordTextLength` | raychat/workspace_transactions.py:353-369 | the length that decides whether a record is saved and read is that of its JSON text |
| `JournalTexts.JournalTextLength` | raychat/package_transactions.py:146-160 | so is that of the journal of packages, with both receipts in base64 |
| `JsonText.Base64Length` | raychat/package_transactions.py:146-156 | four characters for every three bytes or part of them |
| `JsonText.StringLength` | raychat/package_transactions.py:146-160 | the length of a JSON string, every character outside ASCII escaped |
| `WorkspaceTransactions.Joins` | raychat/workspace_transactions.py:434-492 | a new change joins the batch without sharing a path or a container |
| `WorkspaceTransactions.AfterIsNew` | raychat/workspace_transactions.py:494-509 | every file at `after` means every requested file has its new content, in its old mode if it existed and otherwise in that of new files, and nothing else changed |
| `WorkspaceTransactions.BeforeIsOld` | raychat/workspace_transactions.py:530-551 | every file at `before` means every file has the content and mode it started with |
| `PackageTransactions.RecoverRepeatedly` | raychat/package_transactions.py:363-424 | after any number of crashing recoveries, one undisturbed recovery ends the swap (no journal, no container left) if and only if recovery trusts the record: names different after folding and a journal short enough to be read; then all trees and the receipt are at `after` if the commit was recorded, otherwise all at `before`; else nothing ever moves again |
| `PackageTransactions.Recover` | raychat/package_transactions.py:363-424 | a record with names that agree up to case, invalid names or too many bytes, made for another root, or with a container that was replaced, is refused unchanged; otherwise, from any half-done state, pending stays pending or is rolled back and settled stays settled; a recorded commit is never undone |
| `PackageTransactions.Live` | raychat/package_transactions.py:167-424 | crash atomicity of a package swap: every package is removed or is the tree found at the requested path, or all is exactly as at the start; success means the former, and an acceptable request that nothing disturbs and whose sources stay as they are succeeds; a journal that a crash left is recovered if and only if the requested names are distinct after folding and the journal is short enough; requests that meet this beforehand never leave a journal |
| `PackageTransactions.CrashedTwins` | raychat/package_transactions.py:402-406 | `Foo` and `foo` are begun; after a crash every recovery raises and the journal stays |
| `PackageTransactions.TooLongToRead` | raychat/package_transactions.py:50-60 | a receipt of 48 MiB or more is written into the journal in base64; after a crash every recovery raises and the journal stays |
| `PackageTransactions.LongReceipt` | raychat/package_transactions.py:146-156 | a journal with such a receipt is over the limit |
| `PackageTransactions.ForgetRepeatedly` | raychat/package_transactions.py:363-424 | a recorded commit is retired by repeated recovery whatever is installed since; nothing installed is touched |
| `PackageTransactions.RequestIsSound` | raychat/package_transactions.py:363-410 | recovery trusts the journal of a request if and only if the names differ after folding and the text with both receipts in base64 is short enough to be read |
| `PackageTransactions.TrustedExactly` | raychat/package_transactions.py:363-424 | recovery goes on with exactly the records that can be read, are of this location, and have possible names that differ in more than case and containers of their own that nobody replaced |
| `PackageTransactions.TwinsFold` | raychat/package_transactions.py:201-205 | both names are valid and different, and equal after folding |
| `PackageTransactions.Install` | raychat/package_transactions.py:167-360 | a request that nothing disturbs is settled; begin, apply and commit, cancelled, rejected, rolled back or left to recovery after an exception as the owner may: the disk is untouched, pending, settled or reverted |
| `PackageTransactions.PendingKeepsOriginals` | raychat/package_transactions.py:248-280 | while no commit is recorded every original tree is at its target or in its container |
| `PackageTransactions.LegalFrame` | raychat/package_transactions.py:328-360 | the state of a change depends only on its own tree and container |
| `PackageTransactions.PendingStep` | raychat/package_transactions.py:248-360 | a step that keeps its own change legal keeps the whole swap pending |
| `PackageTransactions.Restore` | raychat/package_transactions.py:328-355 | from every half-done state of one change, the original returns or the change is refused untouched; can be run again after a crash |
| `PackageTransactions.Swap` | raychat/package_transactions.py:268-278 | the original moves aside before the new tree arrives, so a crash between the two loses neither |
| `PackageTransactions.CopyStep` | raychat/package_transactions.py:261-266 | each effect of a copy changes its own container only; a copy that is complete and has the recorded digest is staged, any other raises |
| `PackageTransactions.CopyMore` | raychat/package_transactions.py:261-266 | the next effect of a copy makes the container or adds one file of the source; if nothing fails it goes on |
| `PackageTransactions.PackageTransaction.Advance` | raychat/package_transactions.py:257-266 | one step of one of the copies that run at the same time leaves the others as far as they were |
| `PackageTransactions.RemoveSlot` | raychat/package_transactions.py:345-355 | removing a tree in a container stops at any file |
| `PackageTransactions.RemoveTree` | raychat/package_transactions.py:357-361 | removing a container stops at any file |
| `PackageTransactions.Reserve` | raychat/package_transactions.py:201-226 | every input gets an empty container of its own and a change from what is installed |
| `PackageTransactions.Begin` | raychat/package_transactions.py:167-205 | journaled before any tree moves; an existing journal, an invalid name or an oversized receipt is refused unchanged; otherwise, undisturbed, the swap is begun, also for names that agree up to case |
| `PackageTransactions.AbandonReserved` | raychat/package_transactions.py:190-199 | reserved containers go, trees and receipt stay, a recorded journal stays recoverable |
| `PackageTransactions.PackageTransaction.Save` | raychat/package_transactions.py:158-160 | the journal is the old one or the whole new one |
| `PackageTransactions.PackageTransaction.StageIncoming` | raychat/package_transactions.py:257-266 | whatever the order in which the copies go on, no tree moves, and success means that every input is staged |
| `PackageTransactions.PackageTransaction.Apply` | raychat/package_transactions.py:248-280 | keeps the swap pending at every step; success means every tree and the receipt at `after`; a changed source is refused |
| `PackageTransactions.PackageTransaction.Commit` | raychat/package_transactions.py:282-288 | after a recorded commit no tree and no receipt changes |
| `PackageTransactions.PackageTransaction.FinishCommitted` | raychat/package_transactions.py:290-297 | cleanup after a commit touches nothing installed |
| `PackageTransactions.PackageTransaction.Rollback` | raychat/package_transactions.py:299-326 | a recorded commit is left alone; a foreign receipt or an unreadable journal is refused; otherwise stays pending until every tree and the receipt are at `before` |
| `PackageTransactions.PackageTransaction.RestoreAll` | raychat/package_transactions.py:313-320 | puts originals back last first and keeps every change legal |
| `PackageTransactions.PackageTransaction.Cleanup` | raychat/package_transactions.py:357-361 | removes all containers, then the journal; trees and receipt stay |
| `PackageTransactions.AfterIsNew` | raychat/package_transactions.py:248-280 | all changes at `after` means that every package is the tree found at its path, or gone if a removal was asked for, the receipt is the new one, and nothing else changed |
| `PackageTransactions.BeforeIsStart` | raychat/package_transactions.py:299-326 | all changes at `before` means exactly the trees and receipt of the start |
| `SessionRecords.ReplayEntries` | raychat/storage.py:205-266 | loading keeps exactly the records of the log, each under its identifier |
| `SessionRecords.ReplayShape` | raychat/storage.py:243-266 | an accepted log has unique identifiers, earlier parents and a selection that exists |
| `SessionRecords.ReplayPrefix` | raychat/storage.py:205-241 | whatever is cut off an accepted log, the rest is accepted |
| `SessionRecords.AcceptedExactly` | raychat/storage.py:205-266 | a log is loaded if and only if every record has 32 hexadecimal digits for a new identifier, lies below an earlier record, holds a well-formed message or a known kind, and selects an earlier commit or checkpoint |
| `SessionRecords.LastSelects` | raychat/storage.py:243-266 | the last commit, checkpoint or selection of the log is what is selected |
| `SessionRecords.NothingSelected` | raychat/storage.py:243-266 | without one nothing is |
| `SessionRecords.SelectionDecides` | raychat/storage.py:243-266 | the selection is always a turn commit or checkpoint of the log |
| `SessionRecords.ChainGrows` | raychat/storage.py:395-418 | records appended later do not alter a branch |
| `SessionRecords.ChainOfNew` | raychat/storage.py:395-418 | the branch of a new record is that of its parent plus itself |
| `SessionRecords.ChainStep` | raychat/storage.py:395-418 | walking to a parent goes to an earlier part of the log, so every walk ends |
| `SessionRecords.ChainIsSound` | raychat/storage.py:395-418 | a branch consists of records of the log |
| `SessionJournal.CutAnywhere` | raychat/storage.py:205-241 | a file cut at any byte behind its header loads as exactly the longest run of complete records |
| `SessionJournal.LoadsBack` | raychat/storage.py:205-241 | an untouched file loads as exactly what was written |
| `SessionJournal.CutHeader` | raychat/storage.py:205-225 | a file cut inside its header is refused |
| `SessionJournal.CutShape` | raychat/storage.py:268-294 | behind every cut lie whole records and a tail without newline |
| `SessionJournal.SplitEncoded` | raychat/storage.py:205-241 | splitting the written bytes into lines and decoding them gives the log |
| `SessionJournal.CompleteBeforeTail` | raychat/storage.py:205-225 | the part up to the last newline is found behind any unterminated tail |
| `SessionJournal.CutText` | raychat/storage.py:205-241 | any loadable file, however spaced, cut at any byte behind its header loads as exactly the records whose lines are complete |
| `SessionJournal.TextGrows` | raychat/storage.py:205-294 | a whole line written behind a text adds exactly its record |
| `SessionJournal.TextLoads` | raychat/storage.py:205-241 | behind the complete lines an unfinished one changes nothing |
| `SessionJournal.SplitJoin` | raychat/storage.py:222-225 | splitting into lines goes on after a newline as if afresh |
| `SessionStore.RunConsistent` | raychat/storage.py:205-393 | over every run of append, commit, checkpoint, abort and fork, loading the journal selects what memory selects |
| `SessionStore.StepConsistent` | raychat/storage.py:316-393 | each operation keeps journal and memory together |
| `SessionStore.RecordAccepted` | raychat/storage.py:243-266 | no record the store writes is rejected on loading |
| `SessionStore.CrashReopens` | raychat/storage.py:205-393 | cut at any byte, the file of any run reopens with exactly the log and selection of an earlier moment of the run |
| `SessionStore.Moment` | raychat/storage.py:316-393 | every beginning of a log is the log of some moment of the run |
| `SessionStore.AppendAgrees` | raychat/storage.py:304-327 | an append of any payload keeps journal and memory together if and only if it selects nothing new |
| `SessionStore.PendingStep` | raychat/storage.py:316-388 | appends and checkpoints leave the committed history alone and add exactly the message to the working one |
| `SessionStore.TurnCollects` | raychat/storage.py:304-388 | over any interleaving of appends and checkpoints the committed history is unchanged and the working one gains exactly the messages |
| `SessionStore.CommitPublishesTurn` | raychat/storage.py:367-374 | a commit extends the committed history by exactly the messages of the turn and selects its state |
| `SessionStore.CheckpointSelects` | raychat/storage.py:376-388 | a checkpoint selects its state over the unchanged committed history |
| `SessionStore.ForkSelects` | raychat/storage.py:428-433 | a fork returns to exactly the snapshot of the chosen turn |
| `SessionStore.AbortLoses` | raychat/storage.py:390-393 | every record of an aborted turn is on no branch that can be selected |
| `SessionStore.LostForever` | raychat/storage.py:304-433 | what was lost stays off every later selection and every turn that can be forked, in every run |
| `SessionStore.LostStep` | raychat/storage.py:304-433 | no operation brings a lost record back |
| `SessionStore.TurnStaysOff` | raychat/storage.py:304-388 | while a turn is open no selection leads to its records |
| `SessionStore.SessionStore.FileLoads` | raychat/storage.py:205-365 | after any operations and failures, reopening finds the log in memory, and behind it exactly the attempted record if that survived its failure |
| `SessionStore.SessionStore.CrashLoads` | raychat/storage.py:205-241 | cut at any byte behind the header, the file of a store in any state reopens with a beginning of that log |
| `SessionStore.LineLands` | raychat/storage.py:268-294 | what lands of a line is a record if it is all of it, and otherwise a tail that loading drops |
| `SessionStore.PlainSound` | raychat/storage.py:268-327 | an append keeps the whole invariant of memory and file, whether it works, is refused, or fails after any byte |
| `SessionStore.SelectSound` | raychat/storage.py:329-433 | so does a commit, checkpoint or fork, however its write, synchronization and truncation end |
| `SessionStore.Walk` | raychat/storage.py:395-418 | the parent walk returns the branch, root first |
| `SessionStore.ReadBranch` | raychat/storage.py:395-418 | history and state are read from the branch and its last record |
| `SessionStore.HeadEndsChain` | raychat/storage.py:395-418 | a branch ends with the record it was asked for |
| `SessionStore.SessionStore.constructor` | raychat/storage.py:148-170 | a new journal holds its header and nothing is selected |
| `SessionStore.SessionStore.Open` | raychat/storage.py:205-241 | any file that can be loaded is opened: its complete records are replayed, the tail is cut off, and the cursor is on the selection |
| `SessionStore.SessionStore.Write` | raychat/storage.py:268-294 | a write appends the whole line; or a part of it or all of it, and then the store refuses further writes; or nothing, if the store had failed or the encoding did |
| `SessionStore.SessionStore.Append` | raychat/storage.py:304-327 | success appends one record below the cursor; failure changes nothing in memory, and the store fails only if bytes were being written |
| `SessionStore.SessionStore.AppendPlain` | raychat/storage.py:304-327 | messages and prompt starts keep the store valid; a failed one survives in the file exactly if its whole line was written |
| `SessionStore.PlainKeeps` | raychat/storage.py:304-327 | messages and prompt starts are accepted on loading |
| `SessionStore.ParentStep` | raychat/storage.py:395-418 | each step of the walk goes to an earlier record |
| `SessionStore.SessionStore.DurableAppend` | raychat/storage.py:329-365 | success appends a durable record below the given parent; failure restores memory, and the file unless truncation fails; the record survives exactly if it was completely written and could not be truncated; a refusal or interruption that is taken back leaves the store usable |
| `SessionStore.SessionStore.Attempt` | raychat/storage.py:343-355 | a record whose synchronization failed is in memory until it is taken back |
| `SessionStore.SessionStore.TakeBack` | raychat/storage.py:351-364 | the attempted record leaves memory and, if the file can be truncated, the file; otherwise the store fails |
| `SessionStore.SessionStore.CommitTurn` | raychat/storage.py:367-374 | success appends the commit below the cursor and selects it; the store afterwards is the committed one, or the old one with what the failed attempt left in the file |
| `SessionStore.SessionStore.CheckpointState` | raychat/storage.py:376-388 | success appends the checkpoint below the selection and selects it; a checkpoint is a sibling of the pending turn; otherwise the working branch follows it |
| `SessionStore.SessionStore.AbortTurn` | raychat/storage.py:390-393 | the cursor returns to the selection |
| `SessionStore.SessionStore.ForkAt` | raychat/storage.py:420-433 | success appends a selection of the turn and moves the cursor there; only a completed turn can be forked |
| `SessionStore.SessionStore.ValidateFork` | raychat/storage.py:420-426 | recognizes exactly the completed turns |
| `SessionStore.SessionStore.SelectTurn` | raychat/storage.py:428-433 | goes back to a completed turn, or leaves the store as it was |
| `SessionStore.SessionStore.ReadSnapshot` | raychat/storage.py:395-418 | the selected snapshot, or that of a completed turn, and nothing else |
| `SessionTurns.AgentSession.FileAgrees` | raychat/session.py:552-564 | agreement is agreement with `Load` of the bytes of the file, which can always be loaded |
| `SessionTurns.AgreesExactly` | raychat/session.py:703-777 | between turns, and with no failed selection in the file, memory and file agree if and only if the state is the saved one |
| `SessionTurns.ReopeningSelects` | raychat/session.py:552-564 | reopening finds the last durable selection, or what a surviving record selects over it |
| `SessionTurns.RunsStay` | raychat/session.py:703-777 | a deciding record survives a run if and only if some commit or checkpoint in it was completely written and could not be truncated |
| `SessionTurns.TurnAgrees` | raychat/session.py:703-777 | without such a record a turn ends in agreement if and only if it was decided, kept something, or began in agreement, whichever way it ended; and what is written afterwards agrees if and only if it is what was kept last |
| `SessionTurns.TurnSettles` | raychat/session.py:703-777 | however a turn ends (abort, stumble, commit, failed commit, rejected, failed or completed external turn), the selection has the history in memory; its state is the one in memory if the turn was decided or anything was kept |
| `SessionTurns.ActOpen` | raychat/session.py:753-823 | messages, state changes, checkpoints and failed checkpoints keep the turn abortable and the working branch at the messages said |
| `SessionTurns.ActAllOpen` | raychat/session.py:753-823 | after any such actions an abort returns to what was kept last, or to the start of the turn |
| `SessionTurns.EndingEnds` | raychat/session.py:703-777 | every ending decides the turn with what it leaves in memory or leaves it abortable |
| `SessionTurns.CompletesEnds` | raychat/session.py:512-550 | an external turn, with any checkpoints and writes between its adoption and its commit, is decided or abortable |
| `SessionTurns.CompleteAgrees` | raychat/session.py:512-550 | an external turn that is recorded makes memory and file agree on its history and on the state that hooks and commands left in the gap, with their checkpoints |
| `SessionTurns.QuietOpen` | raychat/session.py:535-540 | hooks and commands in the gap add no message, and what they keep is what an abort returns to |
| `SessionTurns.StoringOpen` | raychat/session.py:545-549 | storing the messages of an adopted history brings the working branch to it |
| `SessionTurns.CommitSettles` | raychat/session.py:771-777 | a commit saves the history and the state in memory |
| `SessionTurns.FinishSettles` | raychat/session.py:733-751 | aborting an undecided turn returns to its start, with the selection as it is |
| `SessionTurns.KeepSaves` | raychat/session.py:753-769 | a checkpoint outside a turn saves the whole state |
| `SessionTurns.LateWrites` | raychat/session.py:733-777 | any writes and checkpoints between turns leave agreement if and only if the last state is the one saved by the turn or the last checkpoint; an abort of the next turn returns to that last state either way |
| `SessionTurns.LateActions` | raychat/session.py:753-769 | between turns the history stays, the state is the last one written and the saved one is that of the last checkpoint |
| `SessionTurns.MissSturdy` | raychat/storage.py:329-365 | a record that survives its failed append can be loaded |
| `SessionTurns.ActAllTracks` | raychat/session.py:753-769 | the state to return to has each owner at its last checkpoint or at the start of the turn |
| `SessionTurns.AbortKeepsCheckpoints` | raychat/session.py:733-769 | after an abort checkpointed owners have their last checkpoint, all others and the history the start of the turn |
| `SessionTurns.CompletionKeepsCheckpoints` | raychat/session.py:521-535 | an adopted state keeps every checkpoint made while the turn ran |
| `SessionTurns.Merge` | raychat/session.py:527-531 | exactly the checkpointed namespaces are taken over |
| `SessionTurns.AgentSession.constructor` | raychat/session.py:552-564 | attaching to a store adopts what it selects |
| `SessionTurns.AgentSession.OpenTurn` | raychat/session.py:704-731 | refused while a turn runs or was left open; otherwise notes what an abort returns to |
| `SessionTurns.AgentSession.AddHistory` | raychat/session.py:796-822 | memory takes the message even when the store fails, and then the turn can only be aborted |
| `SessionTurns.AgentSession.CheckpointOwner` | raychat/session.py:753-769 | saves one owner over the start of the turn; a failed write changes nothing in memory |
| `SessionTurns.AgentSession.CommitOpenTurn` | raychat/session.py:771-777 | decides the turn, or leaves it abortable |
| `SessionTurns.AgentSession.RestoreSnapshot` | raychat/session.py:493-540 | replaces history and state by a valid snapshot, unless a turn runs |
| `SessionTurns.AgentSession.AdoptSnapshot` | raychat/session.py:512-534 | adopts exactly the valid extensions of the history within a turn, with checkpoints merged in |
| `SessionTurns.AgentSession.RunCommands` | raychat/session.py:535-540 | what hooks and commands do is some sequence of writes, checkpoints and failed checkpoints |
| `SessionTurns.AgentSession.SaveAll` | raychat/session.py:546-549 | appends the new messages in order up to the first failed write |
| `SessionTurns.AgentSession.CompleteSnapshot` | raychat/session.py:542-550 | an external turn of any snapshot, also a shorter one, is rejected, fails at some point, or is recorded; every case is one of the endings above |
| `SessionTurns.AgentSession.FinishTurn` | raychat/session.py:733-751 | an undecided turn goes back to its start |
| `SessionRuns.RunsAgree` | raychat/session.py:703-777 | over every run of turns, commands and failed writes in which no failed selection stays completely in the file: memory equals what reopening restores if and only if the state is the saved one, which runs that keep what they write between turns always meet; the file has such a record if and only if some commit or checkpoint left one |
| `SessionRuns.StayedRunsAgree` | raychat/session.py:703-777 | over every run in which one stays, whatever turns come before and after: reopening restores what was attempted in that turn, memory holds what an abort returned to and the states written since, and they agree if and only if these are equal |
| `SessionRuns.StayingTurn` | raychat/session.py:703-777 | however a turn ends in which a checkpoint or the commit stayed in the file although it failed: reopening restores what was attempted, memory holds what an abort returns to, and they agree if and only if these are equal |
| `SessionRuns.StayingCheckpoint` | raychat/session.py:753-777 | a checkpoint within a turn, under every ending: harmless if and only if it was to save what an abort and later writes end with |
| `SessionRuns.StayingHook` | raychat/session.py:535-549 | the same of a checkpoint of a restore hook before an external turn is recorded |
| `SessionRuns.StayingCommit` | raychat/session.py:733-777 | a commit: harmless if and only if the turn added no message and its state is what an abort and later writes end with |
| `SessionRuns.StayingRecord` | raychat/session.py:542-550 | the commit of an external turn: harmless if and only if the adopted history adds nothing and the state that the hooks left is what an abort and later writes end with |
| `SessionRuns.StayingLate` | raychat/session.py:753-769 | a checkpoint between turns: harmless if and only if nothing else is written last |
| `SessionRuns.StuckTurn` | raychat/session.py:703-777 | once a failed selection is in the file no later turn changes what reopening restores, and memory keeps nothing of such a turn but what is written after it |
| `SessionRuns.StuckRuns` | raychat/session.py:703-777 | the same over every run of later turns |
| `SessionRuns.StayLeaves` | raychat/session.py:753-769 | after a checkpoint that stayed, no action reaches the file or changes what an abort returns to |
| `SessionRuns.BrokenEnding` | raychat/session.py:703-777 | on a broken store every ending leaves the turn undecided and the file as it is |
| `SessionRuns.AbortedTurnReturns` | raychat/session.py:733-777 | a message is said, the commit is written, its synchronization and its truncation fail: memory aborts the turn and reopening restores it |
| `SessionRuns.FailedCheckpointReturns` | raychat/session.py:733-769 | an owner changes its state, its checkpoint is written, synchronization and truncation fail, the turn is aborted: memory forgets the change and reopening restores it |
| `SessionEvents.EventsAgree` | raychat/session.py:493-590 | over every run of turns, restores, forks and resets in which no fork fails twice: memory equals what reopening the open journal restores if and only if the state is the saved one, or, where a failed selection stayed in that journal, if and only if that selected what memory holds |
| `SessionEvents.EventSettles` | raychat/session.py:493-590 | every event leaves the selection with the history in memory, if and only if it is not a failed fork whose way back fails and whose target has another history |
| `SessionEvents.RestoreAgrees` | raychat/session.py:512-564 | restoring gives memory the selected state, or leaves it if a hook raises; the checkpoints of the hooks count in any case |
| `SessionEvents.ResetAgrees` | raychat/session.py:566-590 | a new conversation starts from nothing in a journal of its own, whatever stayed in the old one |
| `SessionEvents.ForkAgrees` | raychat/application.py:358-379 | a fork ends in agreement if and only if the restore hooks leave the state of the target as it is |
| `SessionEvents.RefusedFork` | raychat/application.py:358-379 | a fork that the hooks refuse leaves memory as it was, and their checkpoints on the old branch |
| `SessionEvents.FailedFork` | raychat/application.py:358-379 | a fork whose selection fails is taken back in memory unless the way back raises; if its record stayed in the file, reopening restores the target |
| `SessionEvents.EventLeaves` | raychat/session.py:493-590 | a failed selection of any event that stayed decides what reopening restores: the checkpoint, commit or fork that was attempted |
| `SessionEvents.StuckEvent` | raychat/session.py:493-590 | until a reset no later event changes that |
| `SessionEvents.ForkForgetsHooks` | raychat/application.py:358-379 | a restore hook changes the state during a fork: memory has it, reopening does not |
| `SessionEvents.ForkFailsTwice` | raychat/application.py:358-379 | the selection fails and a hook of the way back raises: memory keeps the history of the target over the old selection |
| `SessionSends.SendsRestore` | raychat/session.py:703-891 | after any prompts, answered or broken off in whatever way, with checkpoints of plugins and failures of the store in between, and also in the middle of a turn, reopening the file restores whole turns under increasing prompt ids |
| `SessionSends.MidTurn` | raychat/session.py:703-777 | a process that is gone in the middle of a turn leaves a file that restores the history before it, or what it restored then |
| `SessionSends.SendSelects` | raychat/session.py:703-891 | what the file restores after a send is the history before it, the finished turn behind it, or what a failed selection had left there |
| `Conversation.GrammarIsLocal` | raychat/session.py:837-1051 | a history consists of whole turns with increasing prompt ids if and only if neighbouring messages fit |
| `Conversation.LocalIncreases` | raychat/session.py:837-960 | the prompt ids of a well-formed history strictly increase |
| `Conversation.TurnExtends` | raychat/session.py:837-914 | a whole turn under the next prompt id keeps the history well formed |
| `Conversation.FinishedIsTurn` | raychat/session.py:837-1189 | whatever the model answers, a finished turn is `prompt (reply host_result)* reply` under one id, within its step budget |
| `Conversation.ExchangesPair` | raychat/session.py:962-1119 | every reply that does not finish the turn leaves exactly a reply and a host result |
| `Conversation.EndingCloses` | raychat/session.py:1069-1189 | a finishing reply leaves one reply, after the result of a tool that finishes the turn |
| `Conversation.OneEnd` | raychat/session.py:866-891 | a turn can be finished at one place only, and not where it is stuck |
| `Conversation.FailuresAreBounded` | raychat/session.py:971-1003 | four unusable replies in a row never go on |
| `Conversation.FailuresExactly` | raychat/session.py:962-1003 | the failures counted are exactly the unusable replies without any other behind them |
| `Conversation.AsideExactly` | raychat/session.py:1005-1043 | narration is let pass if and only if the text has no brace and fewer than three asides were let pass since the last valid action |
| `Conversation.BudgetExactly` | raychat/session.py:862-866 | the step budget is the one asked for, and at most twenty in a review of the core |
| `Conversation.TurnSays` | raychat/session.py:837-1189 | message by message, without its last reply: the prompt, then for every reply its own text or the placeholder, and the result of the tool, the error, or the note exactly for an aside |
| `Conversation.TurnConcludes` | raychat/session.py:866-1189 | a finished turn ends with the review at the step limit, the reviewed completion, or reply, result and completion of a tool |
| `Conversation.Conversation.Send` | raychat/session.py:837-891 | with enough calls that succeed nothing is interrupted; one prompt adds one whole turn or nothing, with or without an exception, and nothing uninterrupted stops short of it without a reason; the next prompt id advances by at most one |
| `Conversation.Conversation.SendAll` | raychat/session.py:837-891 | over every sequence of prompts, each with its own replies and failures, the history is the old one and one whole turn for every prompt that did not come to nothing, in order, well formed, under strictly increasing prompt ids |
| `Conversation.Conversation.Converse` | raychat/session.py:862-914 | the committed history is exactly the turn the replies spell out |
| `Conversation.Conversation.ModelTurns` | raychat/session.py:866-891 | goes on until a reply ends the turn, the budget is used up, or a reply cannot be fed back |
| `Conversation.Conversation.Perform` | raychat/session.py:962-1189 | what one reply leaves in the history: its text and the result, error or note that it gets, the reviewed completion, or reply, result and completion; reply failures and prose asides are counted as far as they are tolerated |
| `Conversation.Conversation.StartPrompt` | raychat/session.py:931-953 | the prompt is recorded before its id is used up |
| `Conversation.Conversation.Complete` | raychat/session.py:1069-1095 | what fails after the commit does not undo the turn |
| `Generations.EachRequestOnce` | raychat/plugins.py:1631-1824 | over every interleaving a request is in exactly one place, never committed and rolled back, and resolved once no operation is open |
| `Generations.RunKeeps` | raychat/plugins.py:1631-1824 | places are conserved and the invariant holds over every run |
| `Generations.StepConserves` | raychat/plugins.py:1631-1824 | a step moves requests between places; only a new request adds one |
| `Generations.StepKeeps` | raychat/plugins.py:1519-1563 | every step keeps `busy` equal to the open operations, all of them pinned to the active generation |
| `Generations.LedgersGrow` | raychat/plugins.py:185-194 | no step takes back a hook that was called |
| `Generations.LoopCalls` | raychat/plugins.py:1653-1684 | of the pending requests exactly those up to the first escape get a hook, each the one of its own activation, in order |
| `Generations.LoopAdvances` | raychat/plugins.py:1653-1684 | the generation advances once for each of them that is not refused |
| `Generations.StepCalls` | raychat/plugins.py:1519-1824 | a step calls the commit hooks of the requests it activates and the rollback hooks of those it refuses, drops with their frame or finds pending as it closes, in order, and nothing else |
| `Generations.RunCalls` | raychat/plugins.py:1519-1824 | over every interleaving exactly those hooks were called, in that order, and the generation is the number of activations |
| `Generations.StrandsUnlessOrderly` | raychat/plugins.py:1653-1684 | a step leaves requests without commit and rollback if and only if an activation raises after the switch or an exception leaves the loop early |
| `Generations.InterruptionStrands` | raychat/plugins.py:1653-1684 | a run from the start: an operation queues two requests and ends, an interruption leaves the commit hook of the first, and the second gets neither hook |
| `Generations.PinnedStep` | raychat/plugins.py:984-993 | a step of another thread leaves an open operation its registry and the active generation |
| `Generations.PinnedRun` | raychat/plugins.py:984-993 | an open operation sees one registry, the active one, throughout |
| `Generations.ClosingStep` | raychat/plugins.py:1530-1563 | once closing, no operation starts; the last to leave closes and rolls back the pending requests in reverse |
| `Generations.ClosedStep` | raychat/plugins.py:1530-1563 | a closed runtime only rolls new requests back |
| `Generations.BodyMerges` | raychat/plugins.py:1686-1707 | in every run in which a thread does the steps of a body of nested operations, whatever the others do in between, its frame gains exactly the requests of successful frames, and its steps roll the others back innermost first, each frame in reverse |
| `Generations.OperationMerges` | raychat/plugins.py:1631-1707 | over the same runs, an operation that has begun queues its survivors when it succeeds, or rolls back everything its frames merged into it in reverse |
| `Generations.WholeOperation` | raychat/plugins.py:1631-1707 | the same from before the operation begins, if it is admitted, among any steps of other threads |
| `Generations.Projects` | raychat/plugins.py:716-723 | whatever other threads do, the frames, rollbacks and queued requests of a thread in a run are those of its own steps |
| `Generations.OwnStep` | raychat/plugins.py:1631-1707 | within an operation a thread can always go on, and what its step does depends on its own frames only |
| `Generations.BodyGrows` | raychat/plugins.py:1686-1707 | a body adds its survivors to the open frame and rolls back the rest, innermost first |
| `Generations.OthersKeep` | raychat/plugins.py:716-723 | other threads leave the frames of a thread alone |
| `Sequences.ReversedKeeps` | raychat/plugins.py:163-178 | rollback visits every request once, last first |
| `Generations.OperationRuntime.CallRollbacks` | raychat/plugins.py:163-194 | every rollback hook is called, in reverse order, whatever fails |
| `Generations.OperationRuntime.ApplyRequest` | raychat/plugins.py:1790-1824 | an activation calls exactly the commit hook, a refusal or a closed runtime exactly the rollback hook, a break neither; the generation advances unless it is refused |
| `Generations.OperationRuntime.BeginOperation` | raychat/plugins.py:1631-1651 | an outer operation pins the active generation, unless closed or closing |
| `Generations.OperationRuntime.RequestReload` | raychat/plugins.py:1733-1788 | queued in the open frame, or until running operations end, or activated at once |
| `Generations.OperationRuntime.PopFrame` | raychat/plugins.py:1686-1703 | a frame hands its requests on or rolls them back |
| `Generations.OperationRuntime.ReleaseOperation` | raychat/plugins.py:1668-1684 | the last operation to leave closes the runtime or works through the pending requests |
| `Generations.OperationRuntime.ActivatePending` | raychat/plugins.py:1653-1684 | pending requests are activated one by one until an exception leaves the loop; exactly those that it got to get the hook of their own activation, in order |
| `Generations.OperationRuntime.CloseRuntime` | raychat/plugins.py:1530-1546 | deferred while operations are open; otherwise pending requests are rolled back |
| `PluginLoading.LoadsExactly` | raychat/plugins.py:1282-1295 | loading succeeds if and only if no module raises and all registered names are different and in no table yet, host services included |
| `PluginLoading.OwnersAreRight` | raychat/plugins.py:235-250 | every name belongs to the module that registered it; names that were there keep their owner |
| `PluginLoading.ModulesAdd` | raychat/plugins.py:1188-1201 | the loaded registry has exactly the old and the registered names and cleanups, and owners only of names that are there |
| `PluginLoading.StagedJoin` | raychat/plugins.py:1282-1295 | every staged registration counts once, in order, for its name and for its cleanup |
| `PluginLoading.ModulesJoin` | raychat/plugins.py:1244-1280 | the same of the modules of a list |
| `PluginLoading.LoadingRuntime.ApplyRegistrations` | raychat/plugins.py:1282-1295 | all registrations of a module or none |
| `PluginLoading.LoadingRuntime.LoadModule` | raychat/plugins.py:1224-1242 | a module is complete, or its cleanups have run and nothing of it is left |
| `PluginLoading.LoadingRuntime.Load` | raychat/plugins.py:1244-1280 | all modules are registered, or the registry is as before and every staged cleanup has run once, last first |
| `PluginLoading.LoadingRuntime.RunCleanups` | raychat/plugins.py:163-178 | cleanups run last first |
| `Workers.EveryJobEnds` | raychat/workers.py:638-838 | at the end, in a run that gives up no job (a live loop gives up none), a reader sees every accepted job end exactly once and `stopped` once and last if and only if callbacks emitted no kind that the worker itself uses; in an honest run every job ends once if and only if no step gave one up |
| `Workers.ReliableExactly` | raychat/workers.py:638-660 | over all runs, at any moment: at most one end per job, no completion of a job cancelled or stopped before its outcome was decided, `stopped` last; all this if and only if callbacks never emit a reserved kind |
| `Workers.EmittedEndsTwice` | raychat/workers.py:638-660 | a callback that emits a terminal kind gives its job a second end |
| `Workers.EmittedCompletesDoomed` | raychat/workers.py:638-660 | a job that a callback reported complete can be cancelled afterwards |
| `Workers.HonestIsReliable` | raychat/workers.py:638-838 | if callbacks emit no reserved kind, a reader may rely on the events of every run |
| `Workers.WorkerEndsJobs` | raychat/workers.py:736-838 | the worker itself ends every accepted job, in order, if and only if no step of the run gives one up; a loop that did not die gives up none |
| `Workers.LosesExactly` | raychat/workers.py:736-838 | no job is lost or left behind a dead loop if and only if every outcome was resolved, nothing waited behind a fatal step and nothing was accepted after one |
| `Workers.DiesExactly` | raychat/workers.py:662-838 | the loop dies if and only if a control raises, a completion cannot be resolved, or the activity observer is interrupted |
| `Workers.TerminalsInOrder` | raychat/workers.py:736-838 | over every interleaving the own terminal events of the worker come at most once per job and in order of submission |
| `Workers.QuiescentMeansDone` | raychat/workers.py:264-273 | a quiescent worker has published every outcome and returned from every control callback |
| `Workers.DoomedNeverComplete` | raychat/workers.py:415-433 | only what a callback emitted can report a job complete that was cancelled or stopped before its outcome was decided |
| `Workers.GrantsAreAnswers` | raychat/workers.py:604-636 | a decision reaches the session only as an accepted answer to its own approval, once, and never after the job was halted |
| `Workers.GrantsWereGiven` | raychat/workers.py:435-636 | over every interleaving each decision that reaches the session is the one a client gave while that approval was open |
| `Workers.EndsAsDecided` | raychat/workers.py:736-795 | over every interleaving each job ends as it was decided: as the session said, a completion only while nothing halts it, or cancelled because the worker stopped before it was started |
| `Workers.StepApprovals` | raychat/workers.py:435-461 | each approval is answered at most once, under any interleaving with late deliveries |
| `Workers.FailedResetDropsJobs` | raychat/workers.py:678-682 | a reset that raises ends the loop and leaves the jobs behind it without an outcome |
| `Workers.StandsStill` | raychat/workers.py:808-838 | the worker stands still if and only if it has ended, has no commands, or waits for an answer |
| `Workers.StepInv` | raychat/workers.py:386-838 | every step of every thread keeps the whole invariant |
| `Workers.RunInv` | raychat/workers.py:386-838 | the invariant holds in every reachable state |
| `Workers.StepOrder` | raychat/workers.py:386-413 | finished, lost, running and queued jobs are all the jobs, in order |
| `Workers.StepAccepted` | raychat/workers.py:386-413 | accepted jobs are exactly those queued or not yet cleaned up |
| `Workers.StepControls` | raychat/workers.py:323-340 | pending controls are counted exactly |
| `Workers.StepStop` | raychat/workers.py:504-531 | the one stop command ends the queue; only it or a crash ends the loop |
| `Workers.StepStopped` | raychat/workers.py:808-838 | `stopped` is the last event and comes once |
| `Workers.StepDoomed` | raychat/workers.py:415-433 | every step keeps cancelled jobs from completing |
| `Workers.Numbered` | raychat/workers.py:386-413 | the job in flight follows those that are done, and the queue comes after |
| `Workers.AgentWorker.SubmitJob` | raychat/workers.py:386-413 | accepted under the next number unless stopping |
| `Workers.AgentWorker.CancelCurrent` | raychat/workers.py:415-433 | an accepted job whose outcome is open will not complete, and its approval is closed |
| `Workers.AgentWorker.RespondApproval` | raychat/workers.py:435-461 | takes the first answer to the open approval and no other, and puts exactly the decision of the client in transit |
| `Workers.AgentWorker.DeliverAnswer` | raychat/workers.py:435-461 | answers reach the queue in any order; none is lost and none invented |
| `Workers.AgentWorker.StopWorker` | raychat/workers.py:504-509 | afterwards no open outcome can be a completion, and nothing can follow the one stop command |
| `Workers.AgentWorker.QueueControl` | raychat/workers.py:323-340 | controls are accepted until the worker stops |
| `Workers.AgentWorker.IsQuiescent` | raychat/workers.py:264-273 | reports exactly that nothing is accepted, queued or running |
| `Workers.AgentWorker.GetCommand` | raychat/workers.py:808-816 | a job that is taken is the next one without an outcome; the loop is left with nothing behind the stop command and every job ended |
| `Workers.AgentWorker.ChooseJob` | raychat/workers.py:783-786 | the active job is the first without an outcome, and it is an accepted one |
| `Workers.AgentWorker.LaunchJob` | raychat/workers.py:786-795 | a stopped worker ends the job without starting it; otherwise no job is ended |
| `Workers.AgentWorker.ReportProgress` | raychat/workers.py:638-660 | forwards an event under any kind; what readers see of the job grows if the kind is terminal, the account of the worker never does |
| `Workers.AgentWorker.AskApproval` | raychat/workers.py:604-622 | opens an approval nobody has answered |
| `Workers.AgentWorker.PollAnswer` | raychat/workers.py:622-636 | returns the decision of the answer if and only if it is to the open approval and the job is not halted; every other answer is dropped |
| `Workers.AgentWorker.DecideOutcome` | raychat/workers.py:736-765 | the completion of a halted job becomes a cancellation, so no doomed job is decided complete |
| `Workers.AgentWorker.PublishOutcome` | raychat/workers.py:736-765 | the next job in order is finished: ended, or lost with the loop if its completion cannot be resolved |
| `Workers.AgentWorker.CleanJob` | raychat/workers.py:796-802 | the job leaves the accepted ones only after its outcome |
| `Workers.AgentWorker.LeaveCommand` | raychat/workers.py:826-833 | the worker was not quiescent before, and is now exactly if nothing is accepted or queued |
| `Workers.ControlLeavesJobs` | raychat/workers.py:662-682 | a reset or handoff, failing or not, begins, ends, loses and drops no job |
| `Workers.ObserverLeavesJobs` | raychat/workers.py:767-806 | neither does the activity observer |
| `Workers.AgentWorker.CloseConversation` | raychat/workers.py:834-838 | `stopped` is the first and last of its kind that the worker says, and unless the loop died every job was ended before |
| `DependencyOrder.Resolve` | raychat/packages.py:49-92 | succeeds if and only if everything the selection leads to is present, enabled, version-exact and acyclic; then lists exactly that, without duplicates, requirements first, in depth-first order; a refusal names a fault of the first selected package that cannot be resolved, and a version conflict only with a package that can be resolved itself |
| `DependencyOrder.Resolver.Visit` | raychat/packages.py:68-88 | orders a package behind everything it needs, or names a fault; ends on cycles |
| `DependencyOrder.Resolver.VisitNeeds` | raychat/packages.py:76-85 | requirements are visited in the order of the manifest and their versions compared |
| `DependencyOrder.Resolver.VisitNew` | raychat/packages.py:74-88 | a package counts as being visited while what it needs is visited |
| `DependencyOrder.Resolver.Settle` | raychat/packages.py:86-88 | a package is ordered when its requirements are |
| `DependencyOrder.Resolver.VisitSelection` | raychat/packages.py:90-92 | the whole selection is covered |
| `DependencyOrder.ImportableIsResolvable` | raychat/packages.py:68-92 | a dependency-first list shows that nothing reachable is missing, mismatched or cyclic, and contains all of it |
| `DependencyOrder.PathDescends` | raychat/packages.py:68-92 | along a requirement chain positions in the list fall, so no chain repeats a name |
| `DependencyOrder.ImportableGrows` | raychat/packages.py:86-88 | appending a package whose requirements are listed keeps the list dependency-first |
| `DependencyOrder.OrderOfOne` | raychat/packages.py:76-88 | a package comes right behind everything that its requirements, in the order of its manifest, lead to |
| `DependencyOrder.OrderOfMore` | raychat/packages.py:90-92 | what is selected later comes behind what was selected before, and nothing is listed twice |
| `DependencyOrder.FaultyIsUnresolvable` | raychat/packages.py:69-84 | a reported cycle, missing package or version conflict really prevents resolution |
| `SharedGenerations.RunKeeps` | raychat/plugin_sources.py:255-299 | in every reachable state `active` counts the unreleased owners, and exactly the live, unretained generations are published |
| `SharedGenerations.StepKeeps` | raychat/plugin_sources.py:255-299 | capture, retain, retire, cleanup and finalization keep the counts and the registry |
| `SharedGenerations.FilesOutliveTheirOwners` | raychat/plugin_sources.py:255-287 | no directory is deleted under a tree in use or under one that was retained before it was released, dropped or not, in any reachable state |
| `SharedGenerations.DeletesOnlyAbandoned` | raychat/plugin_sources.py:255-287 | in every run, when a directory is deleted no tree of its generation is in use or was retained in time |
| `SharedGenerations.DeletedAtMostOnce` | raychat/plugin_sources.py:270-287 | only private directories are deleted, and each at most once |
| `SharedGenerations.AbandonedAreDeleted` | raychat/plugin_sources.py:270-287 | in every run the directory of a generation that was created, not retained, and is neither used nor about to be cleaned up has been deleted |
| `SharedGenerations.RetainedStays` | raychat/plugin_sources.py:255-268 | from its retention on a generation stays retained and its directory is left as it is, over every continuation |
| `SharedGenerations.RetainSavesExactly` | raychat/plugin_sources.py:255-268 | retaining a tree saves the directory for good if and only if it has not been deleted yet; before the tree is released it never has |
| `SharedGenerations.LateRetainIsTooLate` | raychat/plugin_sources.py:482-508 | retaining a tree after it was retired cannot bring its directory back |
| `SharedGenerations.SharesWhileOwned` | raychat/plugin_sources.py:290-299 | capturing the same bytes shares a generation if and only if an unretained live owner is left |
| `SharedGenerations.GenerationRegistry.CaptureTree` | raychat/plugin_sources.py:290-299 | a captured tree is in use and has its digest |
| `SharedGenerations.GenerationRegistry.RetainTree` | raychat/plugin_sources.py:255-268 | retaining unpublishes the generation and gives up its deletion for good |
| `SharedGenerations.GenerationRegistry.RetireTree` | raychat/plugin_sources.py:493-508 | exactly the last owner of an unretained private generation has to clean up, and the generation is unpublished |
| `SharedGenerations.GenerationRegistry.CleanUpFiles` | raychat/plugin_sources.py:284-287 | deletes once |
| `ChunkedBodies.ChunkedBody` | raychat/http_replay.py:195-223 | accepts exactly the chunked bodies, with no byte left over, and returns their content; always terminates |
| `ChunkedBodies.DecodesExactly` | raychat/http_replay.py:195-223 | acceptance with a content means exactly that the bytes are chunks, last chunk and trailers with that content |
| `ChunkedBodies.RoundTrip` | raychat/http_replay.py:195-223 | decoding the encoding of nonempty chunks and valid trailers gives the joined chunks (section 7.1 of RFC 9112) |
| `ChunkedBodies.ValidIsDecoded` | raychat/http_replay.py:195-223 | every chunked body is accepted |
| `ChunkedBodies.DecodedIsValid` | raychat/http_replay.py:195-223 | everything accepted decomposes completely |
| `ChunkedBodies.FieldsExactly` | raychat/http_replay.py:143-162 | header lines are accepted if and only if they are the lines of valid fields, and then give those fields |
| `ChunkedBodies.HeaderFields` | raychat/http_replay.py:143-162 | continuation lines join the field before them |
| `ChunkedBodies.HexIsRead` | raychat/http_replay.py:199-204 | chunk sizes are read back |
| `ChunkedBodies.HexDigits` | raychat/http_replay.py:199-204 | chunk sizes are read in upper and lower case |
| `ChunkedBodies.SizeExactly` | raychat/http_replay.py:197-206 | a chunk line has a size if and only if it is hexadecimal digits up to the end or the first semicolon |
| `ChunkedBodies.ChunksJoin` | raychat/http_replay.py:195-212 | contents and frames of chunks follow one another |
| `ChunkedBodies.ChunkLine` | raychat/http_replay.py:187-192 | the first line end from an offset on |
| `ChunkedBodies.ChunkData` | raychat/http_replay.py:207-212 | the data of a chunk must be followed by a line end |
| `ChunkedBodies.ReadChunks` | raychat/http_replay.py:195-212 | chunks are collected up to the last one |
| `ChunkedBodies.ReadTrailers` | raychat/http_replay.py:213-222 | trailers end at an empty line with nothing behind it |
| `RecordLog.LogFile.AppendRecord` | raychat/filesystem.py:565-590 | success leaves the longest newline-terminated beginning plus the record; a failure keeps the record if and only if everything was written and the close failed; no complete record is altered; an invalid record changes nothing |
| `RecordLog.LogFile.TrimIncompleteRecord` | raychat/filesystem.py:621-640 | cuts exactly behind the last newline, for every content and block boundary |
| `RecordLog.LogFile.AppendAll` | raychat/filesystem.py:611-618 | short writes are continued; success means everything was written |
| `RecordLog.HistoryCommits` | raychat/filesystem.py:565-640 | over every run of attempts the complete records are the old ones and exactly those that were completely written |
| `RecordLog.OnlySuccessful` | raychat/filesystem.py:565-640 | they are exactly those of the successful attempts if and only if no close failed |
| `RecordLog.AttemptCommits` | raychat/filesystem.py:67-91 | a failed attempt keeps its record if and only if everything was written and the close failed |
| `RecordLog.CommittedIsLongest` | raychat/filesystem.py:621-640 | what is kept is the longest terminated beginning |
| `RecordLog.TornTail` | raychat/filesystem.py:554-560 | an unfinished record behind complete ones does not count |
| `RecordLog.BlockSearched` | raychat/filesystem.py:629-638 | one block decides, or the search goes on in front of it |
| `ConsoleText.Render` | raychat/presentation.py:84-118 | the index loops show exactly what the terminal automaton shows, and nothing harmful |
| `ConsoleText.RenderedIsClean` | raychat/presentation.py:67-81 | the result has no control character but newlines, no C1 code, no bidirectional control and no surrogate |
| `ConsoleText.RenderedTwice` | raychat/presentation.py:84-118 | rendering is idempotent |
| `ConsoleText.CharacterShown` | raychat/presentation.py:67-118 | what every single character outside a sequence shows: four spaces, a replacement, nothing, or itself |
| `ConsoleText.LineEndShown` | raychat/presentation.py:84-95 | every kind of line end is shown as a newline |
| `ConsoleText.BrokenOff` | raychat/presentation.py:31-64 | a sequence that is broken off by a character that can be no part of it shows nothing, and that character counts |
| `ConsoleText.SequencesLeaveNoTrace` | raychat/presentation.py:31-118 | a well-formed control sequence (section 5.4 of ECMA-48) between two texts leaves exactly what the texts show, unless the first ends inside a control string |
| `ConsoleText.StringsSwallow` | raychat/presentation.py:41-49 | inside an unfinished control string everything up to a terminator is swallowed instead |
| `ConsoleText.TracelessExactly` | raychat/presentation.py:31-118 | sequences leave no trace behind exactly those texts that do not end inside a control string |
| `ConsoleText.SequenceIsSilent` | raychat/presentation.py:31-64 | every well-formed sequence is consumed completely and shows nothing |
| `ConsoleText.ConsumeCsi` | raychat/presentation.py:31-38 | parameters, intermediates and a final character are skipped |
| `ConsoleText.ConsumeString` | raychat/presentation.py:41-49 | a control string ends at a bell or string terminator |
| `ConsoleText.ConsumeEscape` | raychat/presentation.py:52-64 | an escape sequence is skipped up to its final character |
| `Frames.ConsumeFrames` | raychat/transport.py:309-330 | however the stream is cut into reads, the frames are the newline split of the whole, plus the last piece if nonempty; refused if and only if it exceeds the limit |
| `Frames.Sink.Drain` | raychat/transport.py:324-330 | draining hands over the complete frames and keeps the rest |
| `Frames.SplitRejoins` | raychat/transport.py:324-330 | splitting loses no byte |
| `Frames.RejoinSplits` | raychat/transport.py:324-330 | splitting is the only way to cut at the newlines |
| `Frames.FramesExactly` | raychat/transport.py:324-330 | the frames are the only way to write the stream as lines of which at most the last, nonempty one lacks its newline |
| `PortablePaths.PortablePathIndex.Add` | raychat/filesystem.py:157-191 | accepts a path if and only if no beginning of it clashes; a refusal changes nothing; the index stays a tree |
| `PortablePaths.Prefixes` | raychat/filesystem.py:157-191 | every beginning of a path is checked before the index changes |
| `PortablePaths.AddKeepsTree` | raychat/filesystem.py:157-191 | an accepted path keeps every entry and every directory above it |
| `PortablePaths.AcceptsExactly` | raychat/filesystem.py:157-191 | every beginning of an accepted path is new, the same directory again, or at its end the same file if it may be replaced |
| `PortablePaths.NoAliases` | raychat/filesystem.py:145-191 | names that agree up to case and normalization are spelled the same, part by part, and files have nothing below them |

## Left out

* Real file systems: retries, sharing violations, `fsync`, Windows handles, and pool workers that still copy a package when
  the exception of another copy has been raised. A rename and a journal write are atomic effects; copying and removing trees
  are sequences of them. Locks are held by the caller.
* SHA-256, JSON, base64, inode numbers, Unicode normalization and case folding. They are values with equality, a
  codec that is faithful to records, or an arbitrary folding function on path parts. The text of the two transaction
  journals is computed from arbitrary digests; reading it back is not part of the model.
* Syntax of the two journals: fields, schemas, digests, and the shape of container names, which the journals that the code
  writes always have.
* Resolution of the names in a request (`workspace_path`, redirected and symbolic links); paths are resolved parts.
* The stream buffer of a session journal: `Torn(n)` counts the bytes of a failed write that reach the file in the end.
* An asynchronous interruption inside the write of one journal line, and a second one while the first is taken back.
* Resuming another session, which attaches to another store, and a reset whose new journal cannot be opened.
* The digest and size limits of packages, and the checks of package manifests.
* `SessionStore.tree`, session listing, previews, timestamps and the choice of random identifiers: new identifiers are
  parameters that are assumed unused.
* The text that hooks, tools and models produce: a reply, result or state is any value, and each callback may raise.
* The plugin state during a prompt is not part of `Conversation`; `SessionTurns` has it.
* Callbacks of a reload request that open operations or close the runtime themselves while requests are activated.
* Hand-over of cleanups between generations when a reload keeps resources alive, and plugin source fingerprints.
* Observation of progress events whose callback was cancelled, notifications that outlive their job, and the timeouts of
  event and approval queues.
* `_request_headers` and `parse_sent_request`: which of several header blocks counts, and the `Content-Length` check.
* The output encoding of `console_text`, and the conversion of other values to text.
* What the frame sink makes of a frame; the model's sink accepts every frame.
* `portable_relative_path`, the name rules themselves: a path is any nonempty list of parts.
* Network code, launch and configuration, the terminal UI, protocol recovery heuristics, `core_staging.py`,
  `status.py`, `navigation.py` and `text_store.py`: field checks and adapters that would only add easy members.
