# Verified models of the uConsole Forge recovery and emulation tools

Forge is a workbench for a handheld computer: it edits boot selection and disk images of a real
device over SSH, and it emulates the device. The parts modelled here are the ones whose mistakes
are expensive: crash-tolerant protocols between a host and a recovery system held in memory, the
writer that restores a root partition, a devicetree rewriter, a simulated modem, and the
scheduling between client threads and the owner.

Each component has two halves. The first follows the program: classes with the program's fields,
methods with its branches, whose contracts tie the new state to a function of the old one. The
second is about that function: what every step keeps, and what holds in every run, with crashes,
lost replies, short reads and writes, adversarial clocks and arbitrary interleaving. In a run, an
action that a state does not allow changes nothing, so a theorem about all sequences of actions is
a theorem about all schedules.

| files | component |
|---|---|
| Ledger, LedgerRuns | the target's durable attempt ledger |
| Journal, Agreement, AgreementSteps | the host's journal, and host and target as one system |
| CommitProtocol, CommitWorker, CommitFraming, CommitChannel, CommitSafety, CommitRuns | the two-phase boot commit: phase machine, worker, line reassembly, their product over two pipes, and its completion |
| LeaseCore, LeaseService, LeaseRuns | the recovery lease: chain of renewals, endpoint, timers, client, and all of them together |
| RestoreChunks, RestoreRuns, Derivative, Deployment | the root chunk writer, whole transfers, derivative images, and deploying one and rolling it back |
| DtbTokens, DtbFormat, DtbLayout, DtbTree, DtbSync, DtbPatch, DtbBlob, DtbPaths | the devicetree rewriter (sections 5.2 to 5.5 of the Devicetree Specification v0.4) |
| ModemCore, ModemPort, Modem, ModemRuns | the AT modem (3GPP TS 27.007; section 5.2 of ITU-T V.250) |
| ControllerJobs, ControllerRuns | job ownership in the controller |
| OwnerQueue, OwnerQueueRuns | the queue between client threads and the owner |
| HostInput | host keys and pointer motion |
| Crc32c | the ext4 superblock checksum (section 12.1 of RFC 3720) |
| Wrappers | Option, Result, bytes |

Two results mark where the code does less than its documentation suggests.

- A host-built journal can be rejected as malformed. `append_event` can raise after its event is
  durable; if that happens to the acknowledgement, the handler's own `uncertain` event may land
  behind it, and three events form no pair. `AgreementSteps.MalformedIffInterrupted` says that
  this is the only way, and `AgreementSteps.InterruptHappens` gives such a run for every plan.
  Safety is unaffected.
- Without a durable history, no job is ever retired, so the controller accepts 128 jobs and no
  more (`ControllerRuns.NoHistoryNoRetirement`, reached in `ControllerRuns.LimitIsReached`).

## Model

| member | source | states |
|---|---|---|
| Ledger.TargetLedger.Fence | tools/forge_recovery_ledger.py:18-47 | what a fence call answers, for every prior directory and every way its one record write can end: not started for an unused or fenced nonce, incomplete or completed exactly as recorded, and nothing for another request |
| Ledger.TargetLedger.Run | tools/forge_recovery_ledger.py:50-99 | a run call returns a value exactly when its receipt is there already, or everything of a first attempt in an orderly directory succeeds; each refusal has its cause, and the directory is what the stop leaves |
| LedgerRuns.LedgerSafety | tools/forge_recovery_ledger.py:18-99 | over all runs with a stop between any two writes: no nonce has both a fence and an intent or receipt, every receipt has its intent's request, at most one intent is unanswered, each effect begins at most once, a fenced nonce's never |
| LedgerRuns.StepSafe | tools/forge_recovery_ledger.py:18-99 | every step of a ledger call keeps the ledger invariant |
| LedgerRuns.IncompleteBlocksForever | tools/forge_recovery_ledger.py:84-93 | once the lock is free and an intent lacks an intact receipt, no effect begins ever again |
| LedgerRuns.IncompleteAnswerIsFinal | tools/forge_recovery_ledger.py:33-36 | a fence call that answers 'incomplete' answers so for ever, and nothing starts |
| LedgerRuns.FencedNeverStarts | tools/forge_recovery_ledger.py:63-67 | a fenced request's effect never begins in any continuation |
| LedgerRuns.CompletedAnswerIsFinal | tools/forge_recovery_ledger.py:68-77 | a completed answer, and the receipt that run replays, never change |
| LedgerRuns.RunCallIsARun | tools/forge_recovery_ledger.py:94-97 | the whole call is the sequence of its durable steps |
| LedgerRuns.FreshRequestStarts | tools/forge_recovery_ledger.py:79-97 | in every reachable state with the lock free, a request with an unused nonce starts exactly when no attempt is open and no fence is torn |
| LedgerRuns.AttemptsComplete | tools/forge_recovery_ledger.py:94-97 | from such a state any number of fresh attempts run to their end, one after another |
| Journal.HostJournal.HistoryChecked | tools/forge_recovery_journal.py:84-116 | the loop over dispatch and outcome pairs returns the fold of the history |
| Journal.HostJournal.Dispatch | tools/forge_recovery_journal.py:119-148 | a dispatch returns the expected acknowledgement exactly when the plan, the approval, the history, the intent's record, the reply and its record were all in order, and its history then ends in that group; every refusal has its cause and its trace |
| Journal.HostJournal.Reconcile | tools/forge_recovery_journal.py:151-180 | a reconciliation returns the target's answer exactly when everything on the way was recorded; a final answer is then the resolution, and every refusal has its cause |
| Journal.FenceCheckedIff | tools/forge_recovery_journal.py:63-81 | a fence reply settles an intent, or leaves it open, only as one of three exact records |
| Journal.SettledAgrees | tools/forge_recovery_journal.py:84-116 | every history of settled attempts, acknowledged, found completed or fenced off, agrees on the direction of the last one that took effect |
| AgreementSteps.HostAndTargetAgree | tools/forge_recovery_journal.py:84-180 | in every interleaving, whenever the history check returns, the target has no incomplete and no still-startable attempt, and the returned direction is that of its last completed effect |
| AgreementSteps.EffectsAlternate | tools/forge_recovery_journal.py:119-148 | in every reachable state effects begin and complete in strict alternation, apply first, however late a worker starts |
| AgreementSteps.MalformedIffInterrupted | tools/forge_recovery_journal.py:119-148 | a host-built history is rejected as malformed exactly when an acknowledgement's append raised after being durable and the handler's event landed too |
| AgreementSteps.InterruptHappens | tools/forge_recovery_journal.py:136-148 | for every plan and nonce, a run that the host's own code builds and the check then rejects as malformed |
| AgreementSteps.RejectionsOfReachable | tools/forge_recovery_journal.py:84-116 | no reachable history is rejected for any reason but unreadable files, pending reconciliation or that one |
| AgreementSteps.NextKeeps | tools/forge_recovery_journal.py:84-180 | every host, target and network step keeps the joint invariant |
| AgreementSteps.DispatchCallIsARun | tools/forge_recovery_journal.py:119-148 | a whole dispatch, with the target and the network acting meanwhile, is a run of the system, for every fate of its appends and every outcome of the transport |
| AgreementSteps.ReconcileCallIsARun | tools/forge_recovery_journal.py:151-180 | the same for a whole reconciliation, whose reply is given only after it began |
| CommitProtocol.Protocol.Take | tools/forge_recovery_commit_protocol.py:37-74 | a reply moves the machine as its phase allows, or is refused and changes nothing |
| CommitProtocol.Protocol.CompleteRanges | tools/forge_recovery_commit_protocol.py:31-35 | true exactly when every nonempty named range has reached its length |
| CommitProtocol.Accepts | tools/forge_recovery_commit_protocol.py:20-78 | every conversation of the right shape is accepted and ends complete with the expected receipt |
| CommitProtocol.OnlyAccepts | tools/forge_recovery_commit_protocol.py:20-78 | whatever is accepted up to completion has that shape: strictly rising progress to the full length of each nonempty root, prefix and suffix before the preparation, and of root and suffix after the unmount |
| CommitProtocol.ReportStep | tools/forge_recovery_commit_protocol.py:41-50 | a progress report is accepted exactly when it keeps its range's reports strictly rising within the range |
| CommitWorker.Worker.Scan | tools/forge_recovery_claim.py:30-43 | for every pattern of short reads, the bytes read, the positions reached and the throttled reports |
| CommitWorker.ReportedClimbs | tools/forge_recovery_commit_worker.py:62-65 | throttled reports rise strictly and reach the end whenever the reads do |
| CommitWorker.FewReports | tools/forge_recovery_commit_worker.py:62-65 | there is at most one report per 64 MiB between the first and the last |
| CommitWorker.Worker.VerifyGuards | tools/forge_recovery_claim.py:52-81 | succeeds if and only if every guarded range has the pinned length and digest and can be read to its end; the pass reported is then complete, and rising otherwise |
| CommitWorker.Worker.Execute | tools/forge_recovery_bootcommit.py:192-228 | a receipt is sent if and only if nothing goes wrong, up to the last layout check on releasing the claim, for which reads that never come back empty suffice; it follows two complete passes, and the host then ends complete exactly when the file was newly applied; approval, mount and unmount happen exactly when what precedes them succeeded; whatever fails, the host has accepted everything it was told and was told nothing while boot storage was mounted |
| CommitWorker.WholeVerdict | tools/forge_recovery_commit_protocol.py:62-72 | a full conversation ends complete if and only if the file was newly applied |
| CommitFraming.LineBuffer.Feed | tools/forge_recovery_commit_transport.py:72-91 | one read hands on every complete line until one is too long |
| CommitFraming.AnyChunking | tools/forge_recovery_commit_transport.py:63-91 | however the pipe cuts a stream, the same lines arrive and the same streams are refused |
| CommitFraming.PrintedArrives | tools/forge_recovery_commit_worker.py:52-53 | printed lines arrive whole and in order |
| CommitChannel.Exchange.OnLine | tools/forge_recovery_commit_transport.py:77-90 | the answer is queued only in the step that commits the machine |
| CommitChannel.Exchange.OnWritable | tools/forge_recovery_commit_transport.py:53-60 | a write moves the offset by the least of what the pipe takes, 65536 and what is left, and exactly those bytes join the wire |
| CommitSafety.MountExclusion | tools/forge_recovery_commit_transport.py:46-92 | in every run, while the worker holds boot storage the host is committing, sends no heartbeat, and no lease was ever renewed meanwhile |
| CommitSafety.ApprovalAfterCommit | tools/forge_recovery_commit_transport.py:80-89 | bytes beyond the request are on the wire only after the commit, and the worker mounts only on exactly the owner's line |
| CommitSafety.NeverRefused | tools/forge_recovery_commit_protocol.py:37-78 | the host never refuses what the worker says; only the approval itself can end the loop |
| CommitSafety.EndsComplete | tools/forge_recovery_commit_transport.py:92-97 | once the worker has finished and all was heard, the exchange is complete |
| CommitSafety.StepKeeps | tools/forge_recovery_commit_transport.py:46-92 | every step of either side keeps the joint invariant |
| CommitRuns.Completes | tools/forge_recovery_commit_transport.py:46-97 | for every job, request and owner's line there is a run that ends with the worker done, exactly both lines sent, nothing in flight and the host holding the receipt |
| LeaseCore.SkippedPublications | tools/forge_recovery_deadline.py:18-43 | a reader accepts a later member of the chain, having missed any number, exactly when it is unexpired and has the same sequence or was sampled before the reader's deadline |
| LeaseCore.PublisherAccepts | tools/forge_recovery_deadline.py:108-109 | the publisher refuses a renewal only if it has expired |
| LeaseCore.DeadlineFromGrant | tools/forge_recovery_lease.py:57-82 | only a new sequence moves the deadline, never beyond 300 seconds after its grant or a day after the start |
| LeaseCore.GrantedIff | tools/forge_recovery_lease.py:57-82 | a request is granted exactly when the lease lives, it is bound to the session and it is the last one again or the next one; what it then changes |
| LeaseCore.ChainDescends | tools/forge_recovery_lease.py:57-82 | later leases never lose time, and equal sequences have equal deadlines |
| LeaseService.LeaseEndpoint.Poll | tools/forge_recovery_lease_socket.py:65-104 | an endpoint fails only when the lease runs out at a sample it takes or a granted renewal cannot be published in time; a renewal that can is adopted, published and answered |
| LeaseService.DeadlineFile.Publish | tools/forge_recovery_deadline.py:108-136 | a refused candidate replaces nothing; the state moves only after the file |
| LeaseService.SoftwareTimer.Step | tools/forge_recovery_lease_timer.py:24-53 | a step passes, or expires the timer once and for all |
| LeaseService.LeaseWatchdog.Step | tools/forge_recovery_lease_watchdog.py:95-105 | a step that passes and whose feeding succeeds feeds the device and goes on; any other closes it |
| LeaseService.BackupLeaseClient.Accept | tools/forge_recovery_lease_client.py:72-76 | a lost or refused reply leaves the same request pending |
| LeaseService.LeasePulse.Beat | tools/forge_recovery_lease_client.py:86-94 | one beat: whether it asks, whether it passes, and when the next renewal is due |
| LeaseService.RenewalsApart | tools/forge_recovery_lease_client.py:86-94 | over any beats, a renewal is dispatched at least a minute after every earlier one that was answered |
| LeaseService.RenewalsKeepUp | tools/forge_recovery_lease_client.py:86-94 | a beat a minute or more after every answered renewal asks for the next one |
| LeaseRuns.BoundedLife | tools/forge_recovery_lease_watchdog.py:95-105 | every watchdog feed in every run is authorised by a sample less than 300 seconds after the grant of a published lease and less than a day after the start |
| LeaseRuns.FailureIsFinal | tools/forge_recovery_lease_watchdog.py:95-105 | a step that fails on its clock, its reading or its lease feeds nothing, and after any failed step nothing is ever fed again |
| LeaseRuns.NoFalseExpiry | tools/forge_recovery_lease_timer.py:24-53 | a step passes exactly when the clock did not run back, the file was readable and live, and it was not renewed too late for this reader |
| LeaseRuns.ExpiryFires | tools/forge_recovery_lease_timer.py:24-64 | with wake-up error at most e, the expiry action runs at a step begun no later than the last deadline plus e, and at no later step |
| LeaseRuns.AheadByAtMostOne | tools/forge_recovery_lease_client.py:58-76 | the published sequence is the one the client accepted or one more, and then it answers the pending request |
| LeaseRuns.RetryGranted | tools/forge_recovery_lease.py:57-82 | the pending request, repeated, is granted or acknowledged again for as long as the lease lives and sequence numbers last |
| LeaseRuns.PendingIsServed | tools/forge_recovery_lease_socket.py:91-100 | in every reachable state that has not failed, the pending request polled in time is published, adopted and answered |
| LeaseRuns.RenewalCompletes | tools/forge_recovery_lease_client.py:55-76 | a renewal asked for, polled and heard in time leaves nothing pending and its sequence accepted, with the deadline it asked for |
| LeaseRuns.OneDeadlineEach | tools/forge_recovery_lease.py:57-82 | over a whole run each sequence sets one deadline |
| LeaseRuns.HonestReceipts | tools/forge_recovery_lease_client.py:25-47 | every receipt names a published lease, and the client's check of one for its pending request passes exactly when it has not expired |
| RestoreChunks.RootChunkWriter.Apply | tools/forge_recovery_restore_chunks.py:39-73 | a chunk is refused before any write, or written where it differs; a failure leaves a prefix of it, ends the writer, and touches nothing outside the root |
| RestoreChunks.RootChunkWriter.WriteOut | tools/forge_recovery_restore_chunks.py:56-61 | short writes lay a prefix of the data over the card in place |
| RestoreChunks.RootChunkWriter.Finish | tools/forge_recovery_restore_chunks.py:75-93 | success exactly when every chunk was applied and the whole root matches |
| RestoreRuns.Transfer | tools/forge_recovery_restore_chunks.py:39-73 | stopped at any short write, the root is a prefix of the source over the old bytes; completed, it is the source; around it the card is unchanged |
| RestoreRuns.TransferIsSource | tools/forge_recovery_restore_chunks.py:39-73 | whatever the root held, a whole transfer leaves exactly the source |
| RestoreRuns.CostIsDifference | tools/forge_recovery_restore_chunks.py:54-69 | the bytes written are the lengths of the differing chunks, each once |
| RestoreRuns.Converges | tools/forge_recovery_restore_chunks.py:39-93 | a fresh transfer after an interruption anywhere ends at the source, and rewrites no chunk that lay wholly before the interruption |
| Derivative.Validate | tools/forge_recovery_derivative.py:20-77 | accepts exactly the manifests whose geometry, chunk map and changed-chunk index are consistent with the original |
| Derivative.Prepare | tools/forge_recovery_derivative.py:176-310 | if digests do not collide, succeeds exactly when the archive is the pinned card and the image differs inside the root only, and then seals the image; its own final validation never fails |
| Derivative.Stream | tools/forge_recovery_derivative.py:132-173 | every delivered chunk was checked; success exactly when the image is the sealed one, and then all its chunks were delivered in order |
| Derivative.DeployThenRollback | tools/forge_recovery_derivative.py:151-156 | deploying gives the image's root, rolling back restores the original, the index lists exactly the differing chunks, and both directions write exactly their bytes |
| Deployment.Restore | tools/forge_recovery_restore_chunks.py:21-93 | a fresh writer fed a complete stream and finished: success leaves exactly the streamed card for the cost of the differing chunks; the card outside the root never changes |
| Deployment.DeployAndRollBack | tools/forge_recovery_derivative.py:108-173 | on a card in place, deploying the streamed derivative leaves exactly the image, restoring leaves exactly the archive whatever came of the deployment, and both write exactly the changed chunks |
| Derivative.UnchangedImage | tools/forge_recovery_derivative.py:75-76 | an image whose chunk map did not change is the card itself |
| DtbBlob.PatchStrings | tools/emulator_dtb.py:5-70 | header, reservation bytes, sizes and alignment of the output; its tokens are the fold of the input's; each error for exactly its reason, overflow only for sizes a caller can check |
| DtbBlob.PatchedTree | tools/emulator_dtb.py:5-70 | a blob that spells a tree becomes one that spells the rewritten tree, well formed again, exactly when every key names a node; nodes stay, each key's values become what the mapping promises, and everything else keeps its value and its order |
| DtbPaths.PatchedByPath | tools/emulator_dtb.py:32-58 | splitting a key's path at its slashes and descending from the root leads to the node whose property is replaced by the text and a NUL, dropped or added; the patch fails for a missing node exactly if some path leads nowhere |
| DtbPaths.PathsAre | tools/emulator_dtb.py:33 | the root is '/', and any other node's path is its parent's, a slash and its name |
| DtbPaths.PathFinds | tools/emulator_dtb.py:33-48 | a path names a node exactly when descending along it finds one, and what is stored under a key is stored there |
| DtbBlob.PatchedTreeUnique | tools/emulator_dtb.py:5-70 | reading the output back can give no other tree |
| DtbBlob.OldNamesResolve | tools/emulator_dtb.py:21-22 | every name offset that resolved before resolves to the same string |
| DtbTree.FoldIsRewrite | tools/emulator_dtb.py:27-58 | the one-pass fold over tokens carries out the transformation of trees |
| DtbTree.LookupAfterRewrite | tools/emulator_dtb.py:32-55 | for each key, values are replaced, dropped or added once, and all others are unchanged |
| DtbTree.OthersStay | tools/emulator_dtb.py:27-58 | without the properties that the mapping names, the rewritten tree is the old one: same nodes, properties, values and order |
| DtbTree.FlattenUnique | tools/emulator_dtb.py:27-58 | a token stream is that of at most one tree |
| DtbPatch.RewriteBlock | tools/emulator_dtb.py:21-60 | the byte loop's output spells the fold of the input's tokens, or fails for the stated reason |
| DtbFormat.HeadGrows | tools/emulator_dtb.py:27-50 | a token reads the same when bytes follow it and names are appended |
| DtbLayout.HeadIff | tools/emulator_dtb.py:25-50 | the reader takes a token exactly where its bytes are laid out: tag, name or length and name offset, value, padding |
| DtbLayout.HeaderIs | tools/emulator_dtb.py:12-20 | the ten header words, their place and order, and which headers are accepted |
| ModemPort.ATPort.Feed | tools/forge_modem_at.py:114-145 | a chunk of any size moves the port and the shared state as the byte automaton does |
| ModemPort.FeedIsBatch | tools/forge_modem_at.py:114-145 | byte by byte is line by line: split on CR, drop leading LFs, error for a line with LF inside or over the limit, ignore empty ones, carry out the rest |
| ModemPort.FeedAppend | tools/forge_modem_at.py:114-145 | feeding the pieces of a stream is feeding the stream |
| ModemPort.ATPort.Execute | tools/forge_modem_at.py:61-107 | field by field, what each command changes and what it answers: only the stored PIN unlocks a waiting SIM, activation adds or removes exactly the contexts meant, attaching and power follow their modes, and nothing else moves |
| ModemPort.LineMeans | tools/forge_modem_at.py:126-140 | a line is echoed as it came if echo was on, carried out if it is ASCII, and answered once |
| ModemCore.PacketData.Activate | tools/forge_modem_pdp.py:41-51 | contexts change activity only as a defined, allowed set |
| Modem.TwoPortModem.Feed | tools/forge_modem_at.py:187-201 | a chunk on a channel, byte by byte with the link reported before anything said gets out |
| Modem.TwoPortModem.SetScenario | tools/forge_modem_at.py:203-215 | a scenario change is validated as a whole, then sets exactly the fields it gives |
| ModemRuns.ModemInvariants | tools/forge_modem_at.py:148-215 | in every run the state is sound, the reported link is the modem's readiness unless a report failed, and the listener heard each change of readiness once, in order |
| ModemRuns.ReadyByPinOrScenario | tools/forge_modem_at.py:80-92 | over any run a SIM becomes ready only by a line that enters its PIN or by a scenario |
| ModemRuns.PinUnlocks | tools/forge_modem_at.py:84-87 | and such a line does make it ready, with all attempts back and OK |
| ModemRuns.NoticesAreChanges | tools/forge_modem_at.py:175-182 | from any reachable state, a port that subscribes throughout hears exactly the changes of registration since, once each and in order |
| ModemRuns.NoticesSinceSubscribed | tools/forge_modem_at.py:175-182 | the same from power-on, for the part of a run after the subscribing command |
| ModemRuns.NoticesHeard | tools/forge_modem_at.py:109-112 | one notice for each subscribed class |
| ModemRuns.TakeAppend | tools/forge_modem_at.py:187-201 | feeding a then b on a channel is feeding a+b, for both ports' output |
| ModemRuns.TakeRefines | tools/forge_modem_at.py:187-201 | one channel's replies and effects are those of its automaton alone; the other channel hears notices only |
| ControllerJobs.JobTable.Submit | tools/forge_controller.py:566-662 | the table after a submission, accepted or refused at any point |
| ControllerJobs.JobTable.Finish | tools/forge_controller.py:664-671 | cleanup frees what this job owns and nothing else |
| ControllerJobs.JobTable.Cancel | tools/forge_controller.py:707-723 | a queued job never starts, a running one that can be cancelled is asked to stop, and no other job is touched |
| ControllerRuns.OneOwner | tools/forge_controller.py:572-597 | in every interleaving at most one unfinished job per workspace path and per machine, and it is the owner |
| ControllerRuns.TerminalOwnsNothing | tools/forge_controller.py:673-705 | a job that polls as terminal owns neither workspace nor machine |
| ControllerRuns.PollsTruly | tools/forge_controller.py:673-705 | in every run a poll says what became of the job: its recorded outcome, its cancellation, or how far it is |
| ControllerRuns.LifeTells | tools/forge_controller.py:600-671 | a job that runs to its end polls as completed, failed or cancelled as it ended, and as failed if that could not be recorded |
| ControllerRuns.OnlySafeRetirement | tools/forge_controller.py:577-591 | at most 128 live jobs; what left the table was terminal, finalized and persisted |
| ControllerRuns.NoHistoryNoRetirement | tools/forge_controller.py:577-591 | without a history nothing is retired, so after 128 jobs all are refused |
| ControllerRuns.LimitIsReached | tools/forge_controller.py:577-591 | that table is reached: 128 jobs, all completed and owning nothing, and the next one is refused |
| OwnerQueue.OwnerQueue.Drain | tools/forge_dispatch.py:30-40 | a drain gives every pending request its own outcome, oldest first, and leaves withdrawn ones alone; a queue without a limit gets none |
| OwnerQueue.DrainIsARun | tools/forge_dispatch.py:30-40 | a drain that nothing interrupts is a run of the interleaved model's steps |
| OwnerQueue.SettledOnce | tools/forge_dispatch.py:30-40 | in a drain nobody is settled twice and nobody gets another's answer |
| OwnerQueue.OwnerQueue.Close | tools/forge_dispatch.py:42-51 | every request still waiting is told that the queue closed |
| OwnerQueueRuns.OnceInOrder | tools/forge_dispatch.py:13-51 | in every interleaving functions begin at most once and in order of acceptance, within the limit |
| OwnerQueueRuns.ToldTheTruth | tools/forge_dispatch.py:22-28 | a caller told that nothing started has a function that has not run; any other answer is its own |
| OwnerQueueRuns.WithdrawnForever | tools/forge_dispatch.py:24-26 | a withdrawn request's function never runs later |
| OwnerQueueRuns.ClosedIsFinal | tools/forge_dispatch.py:42-51 | after closing nothing is accepted and every request not in hand is answered or withdrawn |
| HostInput.HostKeys.Change | tools/forge_keyboard_host.py:67-92 | a change touches one key or all; replaying the commands takes the held contacts from before to after, modifiers let go last and taken first, within 64 commands; a contact is let go only when no key still held maps to it; a change over the limits is refused whole |
| HostInput.LimitIsTight | tools/forge_keyboard.py:39-41 | thirty-two keys of the matrix can be held at once, and letting go of them takes exactly the 64 commands allowed |
| HostInput.HostPointer.Move | tools/forge_keyboard_host.py:104-124 | one motion's batches, each of at most 63 commands, and the remainder kept; refused exactly beyond 128 edges |
| HostInput.MotionBalances | tools/forge_keyboard_host.py:104-124 | over any motion without a jump, four times the net edges plus the remainder is the displacement on each axis |
| Crc32c.Compute | tools/forge_filesystem.py:16-22 | the loop computes the register fold |
| Crc32c.BurstDetected | tools/forge_filesystem.py:16-22 | two byte strings that differ only inside four consecutive bytes have different checksums |
| Crc32c.WindowInjective | tools/forge_filesystem.py:16-22 | up to four bytes can be read back from the register |
| Crc32c.ShiftInjective | tools/forge_filesystem.py:20-21 | a reflected step loses nothing when the polynomial's top bit is set |

## Left out

- The user interfaces, command lines, mounts, ioctls, file metadata checks and process supervision: only their order and their success or failure appear.
- The evidence wrappers, plan compilers, probes and validation scripts: each is settled by reading one branch.
- SHA-256, JSON, gzip, regular expressions and uuid: a digest is a function, with injectivity on equal lengths as a stated hypothesis; records, lines and parsed commands are values; nonces and job identifiers are fresh.
- Crashes are stops of a process between or during durable writes; loss of power, which may reorder directory entries, is not modelled.
- The host's transport delivers only replies the target really gave; the remote command that carries them is not part of this model.
- Clocks are exact reals; rounding of floating-point times is not modelled.
- CommitChannel: the worker's final report always says that the file was newly applied, as the guarded preimage check before it ensures; the other report is covered by CommitWorker.WholeVerdict. The 16 MiB transcript limit, timeouts and diagnostics appear as the host ending the exchange at any moment.
- CommitWorker.Worker.Execute: the ledger call around the commit is modelled in Ledger; here the commit runs once.
- Derivative.Prepare: file identities, retained receipts and format checks of digests are not modelled; the archive is its uncompressed bytes.
- RestoreChunks.RootChunkWriter.constructor: requires a validated manifest where the source validates and raises.
- DtbPatch.RewriteBlock: what is proved of the output is proved for inputs whose structure block reads to its end; on other inputs only the header, the strings block and the absence of failures in indexing are proved.
- ModemPort.ATPort.Execute: reply texts are reduced to their class.
- ControllerJobs.JobTable.Submit: what a job does is an outcome; the history is whether its record is durable.
- OwnerQueue.OwnerQueue.Drain: a function that drains the queue again from inside itself is not modelled.
- HostInput: the key tables are a parameter giving at most two contacts for a key; wheel commands and the other keyboard limits are left out as easy.
- LeaseService.LeaseEndpoint.Poll: socket credentials and packet decoding are reduced to the kind of packet that arrives.
