# Verified models of Monitc's core protocols

Monitc watches servers. A native agent samples a host, numbers the samples, batches them, keeps the batches in a
bounded spool on disk and sends them, one at a time, to a gateway that stores them and folds them into one-minute
rollups. Around this pipeline stand the gateway's identity tables, the web API's refresh tokens, and a desktop
application with an SSH channel gate, an SFTP file browser and an alert engine. This project models these parts in
Dafny and proves what they promise. `dafny verify dfyconfig.toml` checks everything.

## The metric pipeline

The bottom layer follows the agent's files. `Spool.dfy` and `AgentIdentity.dfy` hold the spool and the identity as
classes whose methods update their fields in place, with the loops of the original (eviction, the in-place filter of
the cumulative acknowledgement, the directory scan). `SpoolNames.dfy` and `SpoolIndex.dfy` hold the file names, their
parsing and order, and the theory of the sorted index. `GatewayStore.dfy` is the gateway's transaction over the sample
and rollup tables, specified by `MetricStore.dfy`; `MetricRates.dfy` says what each new row holds in the fields of the
samples.

`Pipeline.dfy` puts them together as a step system: start, collect, put, persist the sequence, connect, send, commit,
refuse, receive, save the acknowledgement, disconnect, crash, reboot. The steps are those of the source, cut where a
crash or the other goroutine can get in between: putting a batch and saving its sequences are two steps, and so are
removing an acknowledged batch and saving the acknowledgement. `SpoolRefinement.dfy` shows that each successful
operation of the spool class is the queue step used there.

The code does not guarantee by itself that no batch is lost silently: some steps can lose one. The project says
exactly which. A step is lossless (`PipelineLossFree.Lossless`) if it is none of these:

* A put that lands ahead of a queued batch of the same boot which the gateway has not stored. This takes a clock that
  steps back. The newer batch is acknowledged first, and the prune on the next connect deletes the older one
  (`PipelineLosses.ClockStepBackLosesBatch`). Overtaking a batch that is already stored is harmless.
* A crash after a batch has left the spool and before its sequences are saved, if the batch is stored or its request
  is still open. The next start numbers other samples alike, and the gateway takes them for duplicates
  (`PipelineLosses.CrashWindowLosesBatch`). Collection and sending run concurrently, so the window is real: the send
  loop may remove a batch between `Put` and `PersistSequence`. If the batch is still spooled, the start reads its
  sequences; if it was quarantined before the gateway stored any of it, its sequences can be used again.
* A sample numbered above 2^63 - 1 while some sample of this boot already has the largest signed value, in a row, in a
  batch or about to be put. The signed column merges the two (`MetricStore.ClampMergesExactly`).

`PipelineLossExact.LosslessRunsLoseNothing` proves that in every run of lossless steps each batch ever put is spooled,
stored, evicted or quarantined, and `PipelineDepartures.LosslessDepartures` gives the cause of each departure. The
conditions are exact: after a step that is not lossless some run of lossless steps ends with a batch lost, and after a
lossless step none does. `PipelineLossExact.LossExactly` proves this from every state with the invariant of careful
runs (below). `PipelineLossAnywhere.LossExactlyAnywhere` proves it from every state that lossless runs keep, while
numbering is below 2^63 - 1; there sequences may have been used twice, so the history of what was put, evicted and
quarantined starts at the step. The losing runs are constructed for each such state, on top of `PipelineProgress.dfy`,
which shows that the pipeline never gets stuck: whatever has happened, the spool can still be delivered.

`PipelineSafety.dfy` proves more under stronger conditions (`Pipeline.Careful`: sequences below 2^63, every put behind
all queued batches of its boot, no crash while the unsaved batch is neither spooled nor recorded). Then sequences are
fresh, spool files do not collide, both acknowledgement paths do the same, and every stored row and rollup is right.
These conditions are exact for that invariant (`PipelineSafety.InvariantKeptExactly`), and the one on crashes also for
numbering: after a crash no run issues a carried sequence again if and only if the crash meets it
(`PipelineCrashes.CrashIsSafeExactly`).

Two more findings about the spool itself. Storing a batch under a name that is already queued writes over the file and
lists it twice, so the index matches the directory after `Put` exactly when the name is new. And the cumulative
acknowledgement returns from the middle of its filter when a file cannot be removed; the index then still matches the
directory exactly when the first item that the acknowledgement covers is the one that cannot be removed.

## The other models

* `AgentTables.dfy`, `AgentTokens.dfy`, `AgentTableStatus.dfy`, `AgentTableRuns.dfy`: pairing, certificate rotation
  and the connection lease as steps over the identity tables. In every run an identity holds a connection exactly
  while the stream that connected last for it is open, and a close of a superseded stream is harmless. The status
  alone is weaker than the lease: a server can show as connected although no connection holds its identity. There are
  three ways, and over all runs no other: a heartbeat or batch on any open stream of the server, an older one or one
  of an agent that a new pairing has replaced; a Hello on a stream of a replaced agent; and a test of the connection
  within ninety seconds of the last contact. Each does it exactly when the server did not show already and the stream
  that connected last for its identity is not open (`AgentTableStatus.ShownUnheldExactly`), and each has a concrete
  run.
* `RefreshSessions.dfy`: refresh-token families are unbranched chains with at most one live session. Logging out ends
  a family exactly when the token presented is its newest; a token that was rotated already leaves its successor live.
* `PairingLimiter.dfy`: pruning the window table is invisible, and any minute admits at most nineteen attempts per
  peer, a bound that is met.
* `ChannelGate.dfy`: at most six channels, no idle slot while something waits, first in first out, nothing started
  twice.
* `AlertRules.dfy` and `ConnectionAlerts.dfy`: when a rule fires, stated over the history of its readings; and the
  timers of connection rules. A reconnect clears all timers of its server exactly when every rule with such a timer
  still watches that server. An edit that moves the rule in the meantime breaks this, and the timer can then raise an
  alert one second into another outage; the outage behind a timer is unbroken exactly when no reconnect found the rule
  moved.
* `RemoteTree.dfy`, `RemoteCopy.dfy`, `RemotePaste.dfy`, `RemotePasteAll.dfy`, `RemoteSession.dfy`: recursive removal,
  copying and directory creation over a file tree, with a server that refuses any chosen set of requests. Each
  succeeds exactly when nothing it needs is refused, and a failed one changes nothing outside its target. Removing
  several paths fails if one of them lies at or below an earlier one. Copying a directory below itself never
  completes; pasting completes exactly when the destination is not at or below the source. A copied link becomes a
  regular file.
* `Intervals.dfy`: every offer of a gateway keeps the agent's intervals in order, although the agent's own checks
  would let other messages break it.

## Model

| member | source | states |
|---|---|---|
| SpoolNames.SanitizeExactly | agent/internal/agent/spool.go:324-336 | sanitizing yields a boot identifier exactly when the input is that identifier with white space around it |
| SpoolNames.SanitizeIsIdempotent | agent/internal/agent/spool.go:324-336 | the result is empty or a boot identifier, and sanitizing again changes nothing |
| SpoolNames.SanitizeKeepsExactly | agent/internal/agent/spool.go:324-336 | a text is kept exactly when it has at most sixty-four characters, each one of "0123456789abcdefABCDEF-" |
| SpoolNames.TrimmedExactly | agent/internal/agent/spool.go:324-336 | a character before or after a kept text is trimmed exactly when it is one of the twenty-five white-space code points |
| SpoolNames.UuidIsKept | agent/internal/telemetry/collector_linux.go:42 | the form of boot identifier that the kernel writes, five groups of hexadecimal digits joined by dashes, is always kept |
| SpoolNames.NameIsSpelled | agent/internal/agent/spool.go:81 | a name is the boot and two numbers of twenty decimal digits, read from the left, joined by underscores, and ".pb"; it parses back |
| SpoolNames.ParseFormat | agent/internal/agent/spool.go:81 | parsing the name made for any boot identifier and any two 64-bit sequences gives them back |
| SpoolNames.FormatParse | agent/internal/agent/spool.go:270-278 | every name that is indexed is the one made for what it parses to |
| SpoolNames.MatchesExactly | agent/internal/agent/spool.go:19 | a name matches exactly when it can be split into a boot, two numbers of twenty digits and ".pb" joined by underscores |
| SpoolNames.FormatIsInjective | agent/internal/agent/spool.go:81 | different boots or spans never share a file name |
| SpoolNames.PadOrder | agent/internal/agent/spool.go:81 | zero padding makes the text order of numbers their numeric order |
| SpoolNames.NameOrderIsSequenceOrder | agent/internal/agent/spool.go:310-315 | among names of one boot the text order is the order of first, then last sequence |
| Telemetry.ValidateSequences | agent/internal/gateway/validation.go:115-123 | the loop over a seen set accepts exactly positive, pairwise distinct sequences |
| Telemetry.SortIsSortedPermutation | agent/internal/gateway/store.go:360-361 | sorting a batch keeps its samples and orders them by sequence |
| SpoolIndex.LessIsStrictTotal | agent/internal/agent/spool.go:310-315 | the queue order is strict and total on items with different names |
| SpoolIndex.LessTransitive | agent/internal/agent/spool.go:310-315 | the queue order is transitive |
| SpoolIndex.IndexIsUnique | agent/internal/agent/spool.go:260-288 | a directory has only one sorted index |
| SpoolIndex.InsertIndexes | agent/internal/agent/spool.go:90-98 | inserting the item of a new file at its place keeps the index |
| SpoolIndex.InsertKeepsBootOrder | agent/internal/agent/spool.go:310-315 | if no queued file of the boot is newer or of a higher sequence, the new item lands behind all of them |
| SpoolIndex.SortOfSorted | agent/internal/agent/spool.go:94-98 | skipping the sort when the new item belongs at the end gives the sorted queue |
| SpoolIndex.RemoveIndexes | agent/internal/agent/spool.go:295-308 | removing one file and its entry keeps the index |
| SpoolIndex.KeepIndexes | agent/internal/agent/spool.go:138-149 | at every turn of the in-place filter, what is kept and what is left unread is the index of the files left |
| SpoolIndex.HotPathIsCumulative | agent/internal/agent/spool.go:155-177 | with all other batches of the boot newer, removing the head and acknowledging through its last sequence leave the same queue and files |
| Spool.Spool.Open | agent/internal/agent/spool.go:40-54 | opening builds the sorted, duplicate-free listing of the directory and its exact byte count |
| Spool.Spool.LoadSpoolItems | agent/internal/agent/spool.go:260-288 | scanning the entries in any order and sorting gives the index of exactly the files whose names parse |
| Spool.Spool.MakeRoom | agent/internal/agent/spool.go:245-258 | evicts the shortest oldest-first prefix that makes the batch fit; capacity cannot be short for a batch that fits an empty spool; a stuck file stops it with a sound index |
| SpoolIndex.ShortestInTotals | agent/internal/agent/spool.go:245-258 | the prefix evicted makes the batch fit, and with any shorter one the bytes are too many |
| Spool.Spool.Span | agent/internal/agent/spool.go:66-70 | first and last are the least and greatest sequence of the batch |
| Spool.Spool.Enqueue | agent/internal/agent/spool.go:83-98 | the new item is inserted at its place and counted; the index stays true exactly when the name is new |
| Spool.Spool.Put | agent/internal/agent/spool.go:56-100 | each error with its condition, never a refusal of a boot identifier as the kernel writes it; on success the minimal eviction, the file, the sorted insertion and a byte count within the limit; the index stays true exactly when no queued file had the name |
| Spool.Spool.Oldest | agent/internal/agent/spool.go:108-115 | the item that comes before all others among the batch files in the directory; none exactly if there are no such files |
| Spool.Spool.Acknowledge | agent/internal/agent/spool.go:134-151 | succeeds exactly when no covered file is stuck, and then removes exactly the covered items and files; otherwise stops at the first covered stuck item, with what is left; the index is then still true exactly when that is the first covered item of the queue |
| Spool.Spool.AcknowledgeItem | agent/internal/agent/spool.go:155-177 | the three outcomes with their conditions; success removes that file and entry alone and keeps index and byte count exact |
| Spool.Spool.Quarantine | agent/internal/agent/spool.go:182-221 | fails exactly for an invalid path, a missing file or a rename that does not work, changing nothing; otherwise moves the file to the rejected ones, drops its entry, keeps index and byte count exact and the newest rejected files |
| Spool.Spool.PruneRejected | agent/internal/agent/spool.go:197-219 | keeps the newest rejected files, up to sixteen |
| Spool.Spool.HighestSequence | agent/internal/agent/spool.go:229-243 | the highest last sequence spooled for the boot, or the error for an invalid boot |
| Spool.Reopen | agent/internal/agent/spool.go:40-54 | a restart on the same directory reproduces the same queue and byte count |
| Spool.IndexedIffNew | agent/internal/agent/spool.go:83-98 | inserting under a name already queued breaks the index, and only then |
| Spool.HalfFiltered | agent/internal/agent/spool.go:138-149 | the half-filtered queue lists the remaining files exactly when none was removed |
| Spool.FailsAtFirstStuck | agent/internal/agent/spool.go:138-149 | nothing was removed before the stuck item exactly when the first covered item is stuck |
| AgentIdentity.Identity.Load | agent/internal/agent/identity.go:42-66 | what survives a restart is what the file holds |
| AgentIdentity.Identity.NextSequence | agent/internal/agent/identity.go:214-223 | one on a new boot, and one more than before within a boot; the file is not touched |
| AgentIdentity.Identity.PersistSequence | agent/internal/agent/identity.go:225-229 | the file catches up with memory |
| AgentIdentity.Identity.EnsureSequenceAtLeast | agent/internal/agent/identity.go:231-251 | raises numbering to the spooled sequence, or replaces it on a new boot; saves exactly when something changed; an invalid boot changes nothing |
| AgentIdentity.Identity.Acknowledge | agent/internal/agent/identity.go:253-267 | on a new boot the position given, within one boot the larger of it and the old one, also when an older acknowledgement arrives late; saved with everything else, numbering unaffected |
| AgentIdentity.AcknowledgedIsMaximum | agent/internal/agent/identity.go:253-267 | after any acknowledgements of one boot, in any order, the position is the largest of them and of what was kept for that boot |
| AgentIdentity.IssuedAfterRestart | agent/internal/agent/identity.go:214-251 | the k-th sequence after a restart is k past the larger of file and highest spooled sequence |
| AgentIdentity.ReissuedExactly | agent/internal/agent/identity.go:214-251 | a used sequence is issued again after a restart exactly when neither the file nor the spool reaches it |
| MetricStore.SaveSampleKeepsValid | agent/internal/gateway/store.go:382-395 | saving a sample keeps every bucket the fold of exactly its stored rows |
| MetricStore.AverageBetweenExtremes | agent/internal/gateway/store.go:523-555 | minimum, average and maximum of a bucket are in order |
| MetricStore.SaveSamplesRows | agent/internal/gateway/store.go:382-395 | earlier rows never change, new keys are exactly the batch's, each holding the first sample offered for it |
| MetricStore.RedeliveryChangesNothing | agent/internal/gateway/store.go:494-521 | a batch delivered again changes no sample and no rollup, whatever was saved in between |
| MetricStore.SaveBatchEffect | agent/internal/gateway/store.go:356-449 | a batch adds rows for exactly its keys and keeps everything stored before |
| MetricStore.ExactlyOnce | agent/internal/gateway/store.go:356-449 | after any delivery history there is one row per delivered key, holding a sample delivered under it, and each bucket is the fold of exactly its rows |
| MetricStore.OrderIndependence | agent/internal/gateway/store.go:523-555 | histories that deliver the same samples in any order, batching and multiplicity leave equal counts, averages, extremes and totals |
| MetricStore.ClampMergesExactly | agent/internal/gateway/store.go:665-670 | two sequences are stored alike exactly when they are equal or both reach the largest signed value |
| MetricRates.AddedRowsHoldSamples | agent/internal/gateway/store.go:484-521 | each row that saving adds holds a sample under its own number with its rates: rate times elapsed seconds is the bytes received, or sent, since the sample before; zero without an earlier reading or when a counter fell |
| MetricRates.BucketIsItsMinute | agent/internal/gateway/store.go:523-555 | a sample is folded into the whole minute in which it lies |
| GatewayStore.MetricTables.LoadPreviousNetwork | agent/internal/gateway/store.go:457-473 | time and both totals of a latest stored sample of the server, or the zero reading |
| GatewayStore.MetricTables.InsertSystemSample | agent/internal/gateway/store.go:494-521 | inserts unless the key is taken, and reports which |
| GatewayStore.MetricTables.UpsertSystemRollup | agent/internal/gateway/store.go:523-555 | folds one row into its minute bucket and leaves all other buckets |
| GatewayStore.MetricTables.SaveMetricBatch | agent/internal/gateway/store.go:356-449 | the two refusals with their conditions; otherwise the acknowledged sequence is the batch's maximum, the tables change as the batch specification says, staying faithful, and each new row holds a sample with the rates since the one before it, or since the stored one |
| BatchQueue.HeadAloneExactly | agent/internal/agent/runtime.go:346-354 | for any queue, the two acknowledgement paths agree on the head exactly when nothing behind it is covered |
| BatchQueue.AcknowledgeThins | agent/internal/agent/spool.go:134-151 | the cumulative acknowledgement removes exactly the covered batches and keeps sequence order within each boot |
| BatchQueue.RemoveThins | agent/internal/agent/spool.go:155-177 | removing one batch loses nothing but its own file and keeps sequence order |
| SpoolRefinement.EvictRefines | agent/internal/agent/spool.go:245-258 | dropping a prefix of the index is dropping that prefix of batches |
| SpoolRefinement.PutRefines | agent/internal/agent/spool.go:56-100 | putting a batch inserts it into the queue of batches where its item lands |
| SpoolRefinement.PutKeepsBootOrder | agent/internal/agent/spool.go:310-315 | with a clock that has not run back, nothing of the boot is queued behind a new batch |
| SpoolRefinement.AcknowledgeRefines | agent/internal/agent/spool.go:134-151 | filtering the index is the cumulative acknowledgement of the batches |
| SpoolRefinement.SameNameSameFile | agent/internal/agent/spool.go:81 | two entries share a name exactly when boot and span agree |
| SpoolRefinement.RemoveRefines | agent/internal/agent/spool.go:155-221 | acknowledging or quarantining an item removes that batch from the queue |
| SpoolRefinement.HighestRefines | agent/internal/agent/spool.go:229-243 | the sequence numbering resumes from is the highest among the queued batches of the boot |
| SpoolRefinement.PutIsQueuePut | agent/internal/agent/spool.go:56-100 | a successful put, eviction included, is the put step on the queue of batches, and every entry still names its file's batch |
| SpoolRefinement.AcknowledgeIsQueuePrune | agent/internal/agent/spool.go:134-151 | a successful cumulative acknowledgement is the pruning step on the queue of batches, entries staying genuine |
| SpoolRefinement.RemovalIsQueueRemoval | agent/internal/agent/spool.go:155-221 | a successful acknowledgement or quarantine of an item takes its batch out of the queue, entries staying genuine |
| Pipeline.StartKeepsInv | agent/internal/agent/runtime.go:56-77 | a start reconciles file and spool so that numbering is past every batch of the boot |
| Pipeline.CollectKeepsInv | agent/internal/agent/collector.go:24-33 | collecting numbers samples in order, past everything put, also when a sample fails |
| Pipeline.PutKeepsInv | agent/internal/agent/collector.go:43-56 | putting a batch, with any eviction, keeps the invariant when it lands behind its boot |
| Pipeline.PersistKeepsInv | agent/internal/agent/collector.go:57-60 | saving the sequence keeps the invariant |
| Pipeline.ConnectKeepsInv | agent/internal/agent/runtime.go:281-285 | the prune on connect removes committed batches only |
| Pipeline.SendKeepsInv | agent/internal/agent/runtime.go:312-324 | one batch is in flight, and it was the oldest of its boot |
| Pipeline.CommitKeepsInv | agent/internal/gateway/server.go:189-206 | committing stores the batch before the reply is sent, for first deliveries and repetitions alike |
| Pipeline.SavedIsCommitted | agent/internal/gateway/store.go:356-449 | saving a batch whose sequences are fresh or repeated commits every one of its samples |
| Pipeline.ReceiveAckKeepsInv | agent/internal/agent/runtime.go:345-354 | removing the acknowledged batch keeps the invariant |
| Pipeline.SaveAckKeepsInv | agent/internal/agent/runtime.go:355-360 | the acknowledgement saved covers committed batches only |
| Pipeline.ReceiveRejectionKeepsInv | agent/internal/agent/runtime.go:329-342 | only the refused batch in flight is quarantined, also when it was evicted meanwhile |
| Pipeline.CrashKeepsInv | agent/internal/agent/runtime.go:56-77 | a crash whose unsaved batch, if any, is still spooled or recorded keeps the invariant |
| Pipeline.SurroundingsAreFree | agent/internal/agent/runtime.go:246-387 | crashes, lost connections and requests, refusals, failing puts and failing samples are possible whenever they can happen |
| Pipeline.AckBelowFlight | agent/internal/agent/runtime.go:345-354 | an acknowledgement that does not reach the batch in flight removes exactly what it covers |
| PipelineSafety.StepKeepsInv | agent/internal/agent/runtime.go:246-387 | every step that meets its condition keeps the invariant |
| PipelineSafety.InvariantKeptExactly | agent/internal/agent/runtime.go:246-387 | a step keeps the pipeline's invariant if and only if it meets its condition; for losing a batch the exact condition is that of LossExactly |
| PipelineSafety.NoSilentLoss | agent/internal/agent/runtime.go:246-387 | in every state of a careful run each batch put is still spooled, committed, evicted, or quarantined after a refusal |
| PipelineSafety.DepartureExplained | agent/internal/agent/spool.go:134-221 | why a batch leaves the spool at any step; the acknowledgement paths and the prune on connect only remove committed batches |
| PipelineSafety.FreshSequences | agent/internal/agent/identity.go:214-251 | no sequence carried by a batch that reached the spool is issued again on its boot, across any crashes and restarts |
| PipelineSafety.SpoolFilesDistinct | agent/internal/agent/spool.go:81 | no two batches ever put share a spool file |
| PipelineSafety.StoredExactlyOnce | agent/internal/gateway/store.go:382-395 | each stored row is one sample of one batch that was put, the only one offered for its key, and each bucket is the fold of exactly its rows |
| PipelineSafety.AcknowledgementPathsAgree | agent/internal/agent/runtime.go:346-354 | on every reachable queue both acknowledgement paths do the same, and the reply received is for the batch in flight |
| PipelineCrashes.CrashIsSafeExactly | agent/internal/agent/collector.go:53-60 | after a crash no run issues a carried sequence again, if and only if the unsaved batch is still spooled or the file reaches it |
| PipelineProgress.StepKeepsCommitted | agent/internal/gateway/store.go:356-449 | what is committed stays committed through every step |
| PipelineProgress.SpoolCanDrain | agent/internal/agent/runtime.go:246-387 | from every state that keeps the invariant, some run without evictions, refusals or crashes empties the spool with every spooled batch committed |
| PipelineLosses.CrashWindowLosesBatch | agent/internal/agent/collector.go:53-60 | a run in which a crash in the window loses a batch silently |
| PipelineLosses.ClockStepBackLosesBatch | agent/internal/agent/spool.go:310-315 | a run in which a clock stepping back loses a batch silently |
| PipelineLossFree.InvIsLossFree | agent/internal/agent/runtime.go:246-387 | the invariant of careful runs contains the weaker one that lossless steps keep |
| PipelineLossFreeSteps.StepKeepsLossFree | agent/internal/agent/runtime.go:246-387 | every lossless step keeps the weaker invariant, also when it breaks the order of the spool, reuses sequences or lets the two acknowledgement paths differ |
| PipelineLossExact.LosslessRunsLoseNothing | agent/internal/agent/runtime.go:246-387 | in every state of a run of lossless steps each batch put is spooled, stored, evicted or quarantined |
| PipelineLossExact.PutCanLose | agent/internal/agent/collector.go:43-56 | from every state with the invariant, a put ahead of an unstored batch of its boot leaves a state from which some lossless run loses a batch |
| PipelineLossExact.CrashCanLose | agent/internal/agent/collector.go:53-60 | so does every crash while the unsaved batch is neither spooled nor recorded and is stored or still requested |
| PipelineLossExact.CollectCanLose | agent/internal/gateway/store.go:665-670 | so does every sample numbered past the signed range while the top of it is taken |
| PipelineLossExact.LossExactly | agent/internal/agent/runtime.go:246-387 | from every state with the invariant of careful runs, no lossless run loses a batch after a step if and only if the step is lossless |
| PipelineLossExact.CarefulIsLossless | agent/internal/agent/runtime.go:246-387 | the conditions of careful runs are the stronger ones |
| PipelineLossAnywhere.PutCanLoseAnywhere | agent/internal/agent/collector.go:43-56 | from every state that lossless runs keep, such a put leads to a lossless run that loses the overtaken batch |
| PipelineLossAnywhere.CrashCanLoseAnywhere | agent/internal/agent/collector.go:53-60 | and such a crash, below the end of the signed range, to one that loses a batch put later |
| PipelineLossAnywhere.LossExactlyAnywhere | agent/internal/agent/runtime.go:246-387 | from every state that lossless runs keep, below the end of the signed range, some lossless run after the step loses a batch spooled then or put later if and only if the step is not lossless |
| PipelineDepartures.LosslessDepartures | agent/internal/agent/spool.go:134-221 | in every lossless run, why a batch leaves the spool: stored and then acknowledged or pruned, evicted for room, or refused and quarantined |
| AgentTables.Store.RegisterAgent | agent/internal/gateway/store.go:130-211 | each refusal with its condition in the fields of token, server and identities, changing nothing; otherwise the token is spent, the row is the registration's, unconnected, and the server pending |
| AgentTables.Store.AgentByID | agent/internal/gateway/store.go:213-251 | authorises exactly if the workspace is subscribed and some row has this id, an equal serial up to case, is not revoked, and has not expired |
| AgentTables.Store.RotateAgentCertificate | agent/internal/gateway/store.go:253-276 | replaces the serial exactly when the old pair authorises and spells the stored serial as it is, and otherwise changes nothing |
| AgentTables.Store.MarkConnected | agent/internal/gateway/store.go:279-310 | the agent's row, if it is still there, now holds the connection and shows as connected, and so does the server in its workspace; all other rows and all pairings are untouched |
| AgentTables.Store.SaveHeartbeat | agent/internal/gateway/store.go:312-327 | the agent and the server show as connected; no connection is taken or given up and no identity changes |
| AgentTables.Store.MarkDisconnected | agent/internal/gateway/store.go:329-354 | if the row still carries the connection, row and server go offline and the connection is gone; otherwise nothing changes |
| AgentTables.TokenRegistersOnce | agent/internal/gateway/store.go:130-211 | in every run a pairing token registers at most one agent |
| AgentTokens.IssuedExactly | platform/apps/api/src/routes/servers.ts:394-408 | issuing a token revokes the unused ones of its server and changes no other |
| AgentTokens.OneOpenToken | platform/apps/api/src/routes/servers.ts:394-408 | in every state of every run a server has at most one token that is neither used nor revoked |
| AgentTables.OnePairPerServer | agent/internal/gateway/store.go:213-251 | a server has at most one authorising pair of agent and serial, letter case aside, and an agent belongs to at most one server |
| AgentTables.KeptOrSuperseded | agent/internal/gateway/store.go:130-276 | each step keeps a server's pair or records it as superseded |
| AgentTables.SupersededNeverAuthorises | agent/internal/gateway/store.go:213-276 | a pair once superseded never authorises again, at any later time of any run |
| AgentTables.ExpiredNeverAuthorises | agent/internal/gateway/store.go:235-251 | once its certificate has expired an agent is refused in every later state of every run, until a rotation gives it another |
| AgentTables.LeaseHeldByLatest | agent/internal/gateway/store.go:279-310 | while the stream that connected last is open, the row carries its connection |
| AgentTables.SupersededCloseIsHarmless | agent/internal/gateway/server.go:155-164 | the late disconnect of a superseded stream changes no table |
| AgentTableStatus.HeldExactly | agent/internal/gateway/store.go:279-354 | in every run an identity holds a connection exactly while the stream that connected last for it is open |
| AgentTableStatus.AliveShowsAgentExactly | agent/internal/gateway/store.go:312-327 | a heartbeat or batch leaves the agent connected without a connection exactly when the stream that connected last for it is closed |
| AgentTableStatus.AliveShowsServerExactly | agent/internal/gateway/store.go:434-438 | and the server connected with no connection held exactly when that stream is closed or, for a replaced agent, the new identity has none open |
| AgentTableStatus.AliveIsHeldExactly | agent/internal/gateway/store.go:312-327 | the stream's own agent holds the server it shows as connected exactly when it is still its identity and the stream that connected last for it is open |
| AgentTableStatus.ConnectShowsServerExactly | agent/internal/gateway/store.go:279-310 | a Hello shows its server as connected, held exactly when the stream's agent is still the identity or the stream that connected last for the identity is open |
| AgentTableStatus.SweptExactly | platform/apps/api/src/worker/collector-loop.ts:282-290 | the sweep, row by row: the listed connected identities go offline, then the connected servers of offline ones |
| AgentTableStatus.TestedExactly | platform/apps/api/src/providers/agent-provider.ts:16-37 | a test shows a server as pending without an identity, as connected after a recent contact, and else as offline |
| AgentTableStatus.CloseHidesServer | agent/internal/gateway/store.go:329-354 | a stream that gives up the identity of a server sets that server offline |
| AgentTableStatus.ShownUnheldExactly | agent/internal/gateway/store.go:279-354 | over all steps of every run, exactly which ones make a server show as connected with no connection holding its identity |
| AgentTableRuns.LateHeartbeatRun | agent/internal/gateway/store.go:312-354 | a run that ends with agent and server connected and no connection held, by a heartbeat on an older stream |
| AgentTableRuns.ReplacedHeartbeatRun | agent/internal/gateway/store.go:312-327 | a run that ends with the server connected while its new identity has only been paired, by a heartbeat of the replaced agent |
| AgentTableRuns.ReplacedHelloRun | agent/internal/gateway/server.go:214-220 | a run that ends the same way, by another Hello of the replaced agent |
| AgentTableRuns.TestedRun | platform/apps/api/src/routes/servers.ts:328-353 | a run that ends with the server connected and no stream open at all, by a test soon after the last contact |
| RefreshSessions.SessionTable.CreateSession | platform/apps/api/src/auth/session.ts:106-150 | adds one session and changes no other row; in a new family it is the only live one and the table stays well formed |
| RefreshSessions.SessionTable.RotateSession | platform/apps/api/src/auth/session.ts:152-247 | the outcome of presenting a token, row by row: unknown, replayed with the family revoked, expired with the one row revoked, without a subject, or rotated with a successor of the same owner and the new expiry |
| RefreshSessions.SessionTable.RevokeRefreshToken | platform/apps/api/src/auth/session.ts:249-251 | no session with the token is live afterwards, all other rows are untouched, and the table stays well formed |
| RefreshSessions.AtMostOneLive | platform/apps/api/src/auth/session.ts:152-247 | a family never has two live sessions |
| RefreshSessions.PresentKeepsTable | platform/apps/api/src/auth/session.ts:152-247 | presenting any token keeps every family one unbranched chain with one owner |
| RefreshSessions.PurgeKeepsTable | platform/apps/api/src/worker/collector-loop.ts:291 | deleting long-expired rows cuts a prefix off each chain and keeps the table well formed |
| RefreshSessions.PurgedExactly | platform/apps/api/src/worker/collector-loop.ts:291 | a row is deleted exactly when it expired over a week ago and no row that stays refers to one that would go |
| RefreshSessions.StepKeepsInv | platform/apps/api/src/auth/session.ts:106-251 | creation, presentation, revocation and purging keep the table well formed and identifiers fresh |
| RefreshSessions.ReplayKillsFamily | platform/apps/api/src/auth/session.ts:177-184 | presenting a rotated or revoked token leaves the family without a live session |
| RefreshSessions.RotationHandsOver | platform/apps/api/src/auth/session.ts:191-232 | after a rotation the successor is the only live session of the family, with the same owner |
| RefreshSessions.FamilyNeverRevives | platform/apps/api/src/auth/session.ts:152-247 | a family without a live session never has one again in any run |
| RefreshSessions.LogoutEndsFamilyExactly | platform/apps/api/src/auth/session.ts:249-251 | logging out ends the family exactly when the token presented is its newest |
| PairingLimiter.PairingRateLimiter.Allow | agent/internal/gateway/pairing_limiter.go:31-49 | refused exactly if the peer has ten attempts in a window of less than a minute; what each outcome does to that window and to those of other peers; an empty key counts as one shared peer |
| PairingLimiter.PairingRateLimiter.Prune | agent/internal/gateway/pairing_limiter.go:51-60 | a large table loses exactly the windows that are over; a small one is left alone |
| PairingLimiter.PruningIsInvisible | agent/internal/gateway/pairing_limiter.go:31-60 | with a clock that does not run back, every decision equals that of a limiter that never prunes |
| PairingLimiter.FewerThanTwoBursts | agent/internal/gateway/pairing_limiter.go:31-49 | any half-open minute admits fewer than twenty attempts per key |
| PairingLimiter.NineteenInOneMinute | agent/internal/gateway/pairing_limiter.go:31-49 | a sequence of calls that admits nineteen in one minute |
| ChannelGate.ConnectionEntry.AcquireChannel | src/main/ssh/ssh-manager.ts:325-344 | starts at once below the limit, and otherwise queues at the end |
| ChannelGate.ConnectionEntry.Settle | src/main/ssh/ssh-manager.ts:329-336 | a settled operation hands its slot to the first waiter, if there is one |
| ChannelGate.StepKeepsInv | src/main/ssh/ssh-manager.ts:325-364 | submit, finish and drain keep the counter, the queue and the order of starts consistent |
| ChannelGate.OpenChannelIsCounted | src/main/ssh/ssh-manager.ts:329-336 | while an operation is unfinished the counter is positive, so it can finish |
| ChannelGate.NeverOversubscribed | src/main/ssh/ssh-manager.ts:325-344 | in every run at most six channels are open, and operations wait only while six are |
| ChannelGate.StartedQueuedOrDropped | src/main/ssh/ssh-manager.ts:325-364 | each submitted operation was started once, is queued once or was dropped, and never two of these |
| ChannelGate.FirstInFirstOut | src/main/ssh/ssh-manager.ts:346-349 | operations start in the order of submission, none before an earlier one that still waits |
| ChannelGate.NoIdleSlot | src/main/ssh/ssh-manager.ts:325-349 | the open channels are exactly as many as the limit and the unfinished operations allow |
| ChannelGate.WaiterIsServed | src/main/ssh/ssh-manager.ts:346-349 | without a drain, the waiter at position k has started after k + 1 finishes |
| AlertRules.MetricAlerts.Evaluate | src/main/alerts/alert-engine.ts:41-92 | every rule is judged on its own reading, in the fields of the rule: counter, time of the last alert, and the alerts raised, in rule order |
| AlertRules.RulesAreIndependent | src/main/alerts/alert-engine.ts:52-87 | over any reports, each rule follows its own history |
| AlertRules.CounterIsTrailingRun | src/main/alerts/alert-engine.ts:53-64 | the counter is the length of the trailing run of breaching values; missing values neither extend nor break it |
| AlertRules.FiresExactly | src/main/alerts/alert-engine.ts:53-72 | a rule fires exactly when its value ends a breaching run that covers the duration at one value per five seconds and the cooldown is over |
| AlertRules.FiresPastThreshold | src/main/alerts/alert-engine.ts:53-72 | with the comparison written out: a rule fires exactly when enough of the latest values are all above, below or equal to its threshold and the cooldown in minutes is over |
| AlertRules.ReadsByName | src/main/alerts/alert-engine.ts:198-210 | each metric reads its own field of a report of the rule's server |
| AlertRules.ReadsRootDisk | src/main/alerts/alert-engine.ts:198-210 | the disk read is the one mounted at the root, and the first if there is none |
| AlertRules.SumsAddUp | src/main/alerts/alert-engine.ts:198-210 | bytes received and sent are added up over the interfaces |
| AlertRules.SuccessiveFiringsAreSpaced | src/main/alerts/alert-engine.ts:70-72 | successive alerts of a rule are at least a cooldown apart |
| ConnectionAlerts.ConnectionAlertEngine.EvaluateConnectionStatus | src/main/alerts/alert-engine.ts:94-120 | a reconnect zeroes and clears exactly the server's rules; a disconnect or failure gives each of its enabled rules a timer due when the rule's duration is over; other reports change nothing |
| ConnectionAlerts.ConnectionAlertEngine.ClearConnectionAlertsForServer | src/main/alerts/alert-engine.ts:31-39 | clears the timers of exactly the rules that watch the server |
| ConnectionAlerts.ConnectionAlertEngine.ResetConnectionRules | src/main/alerts/alert-engine.ts:159-180 | zeroes the counters and clears the timers of exactly the rules that watch the server |
| ConnectionAlerts.ConnectionAlertEngine.TimerGoesOff | src/main/alerts/alert-engine.ts:113-157 | the timer leaves the map, and an alert is raised exactly when the connection is still down and the first rule of the name is enabled, of this kind and past its cooldown |
| ConnectionAlerts.OneTimerPerRule | src/main/alerts/alert-engine.ts:110-119 | no rule has two timers under way |
| ConnectionAlerts.SchedulingKeepsPaired | src/main/alerts/alert-engine.ts:110-119 | after an outage report every enabled rule of the server has its timer, earlier timers are kept, and the map matches the timers under way |
| ConnectionAlerts.ClearingKeepsPaired | src/main/alerts/alert-engine.ts:159-188 | clearing removes exactly the timers of the rules that watch the server now |
| ConnectionAlerts.ReconnectClearsExactly | src/main/alerts/alert-engine.ts:159-180 | a reconnect leaves no timer of the server exactly when every rule with such a timer still watches it |
| ConnectionAlerts.AlertMeansLongOutage | src/main/alerts/alert-engine.ts:94-133 | in every run, a timer that goes off was set by an outage report at least the rule's duration earlier, and no reconnect was reported since if and only if the rule was watching the server at each reconnect since |
| ConnectionAlerts.OutageIsUnbroken | src/main/alerts/alert-engine.ts:94-133 | so the outage behind a timer is unbroken while no edit moves the rule away from its server |
| ConnectionAlerts.MovedRuleAlertsEarly | src/main/ipc/ipc-handlers.ts:298-302 | a run in which a rule is moved while its timer runs and an alert is raised one second into an outage |
| ConnectionAlerts.SuccessiveConnectionAlertsAreSpaced | src/main/alerts/alert-engine.ts:122-136 | in every run, successive alerts of a connection rule with no edit between them are at least its cooldown apart |
| RemoteTree.RemoveExactly | src/main/ssh/sftp-manager.ts:68-80 | removal deletes exactly the subtree, succeeds exactly when the path exists and nothing needed is refused, terminates, and a failed one leaves a proper tree and touches nothing outside |
| RemoteCopy.CopyLeafExactly | src/main/ssh/sftp-manager.ts:82-111 | copying a file, or what a link leads to, adds that one file with its permissions and content, or fails exactly when something needed is refused, leaving at most a file of the mode it was created with |
| RemoteCopy.CopyExactly | src/main/ssh/sftp-manager.ts:105-118 | copying to a vacant target not below the source adds an equal subtree and changes nothing else; exact conditions of success; a failed copy differs only at or below the target |
| RemotePaste.CopyMirrorsSource | src/main/ssh/sftp-manager.ts:105-118 | at every relative path, the copy exists exactly when the original does and has its content and permissions; the original is unchanged |
| RemotePaste.RemovingTheCopyRestores | src/main/ssh/sftp-manager.ts:68-118 | removing a finished copy gives back the tree before it |
| RemotePaste.CopyIntoItself | src/main/ssh/sftp-manager.ts:105-118 | copying a directory to a vacant target below itself completes at no recursion depth |
| RemotePaste.CopyCompletesExactly | src/main/ssh/sftp-manager.ts:105-118 | with nothing refused, copying a directory completes exactly when the target is not below it |
| RemotePaste.PasteCompletesExactly | src/main/ssh/sftp-manager.ts:191-205 | pasting a copy of a directory completes exactly when the destination is not at or below it |
| RemoteSession.MakePathExactly | src/main/ssh/sftp-manager.ts:55-66 | making a path succeeds exactly when each step is a directory or can be made; only missing directories on the way are new |
| RemoteSession.SftpSession.MkdirRecursive | src/main/ssh/sftp-manager.ts:55-66 | the session's recursion does what the path specification says |
| RemoteSession.SftpSession.RemoveRecursive | src/main/ssh/sftp-manager.ts:68-80 | the session's loop over the listing, request by request, does what the removal specification says |
| RemoteSession.SftpSession.CopyFile | src/main/ssh/sftp-manager.ts:82-111 | create, fill and set permissions, stopping at the first refusal with what exists by then |
| RemoteSession.SftpSession.CopyRecursive | src/main/ssh/sftp-manager.ts:105-118 | the session's loop over the listing, request by request, does what the copy specification says |
| RemoteSession.SftpSession.Remove | src/main/ssh/sftp-manager.ts:183-189 | the root is refused before anything is removed; otherwise succeeds exactly when each path in its turn still exists and can be removed, and then exactly what is at or below the paths is gone; nothing outside ever goes |
| RemoteSession.SftpSession.RemoveEach | src/main/ssh/sftp-manager.ts:185-188 | the loop over the paths, with the same exact condition |
| RemoteSession.BelowEarlierFails | src/main/ssh/sftp-manager.ts:183-189 | a path at or below an earlier one makes the whole removal fail |
| RemoteSession.SftpSession.Paste | src/main/ssh/sftp-manager.ts:191-205 | several sources are copied one after the other; succeeds exactly when each in its turn is there, has a free place and is refused nothing; then each lies in the directory under its own last name, at every relative path with its content and permission bits; what was there stays as it was, and nothing else is new |
| RemotePasteAll.PasteOneExactly | src/main/ssh/sftp-manager.ts:105-118 | a copy to any target that is not a free one at or below the source ends and adds only there; it succeeds exactly when the source is there, the place free and nothing refused, and then mirrors the source |
| RemotePasteAll.PasteTurn | src/main/ssh/sftp-manager.ts:191-205 | what the turn of one source does after those before it, and when it succeeds |
| RemotePasteAll.StaysPasted | src/main/ssh/sftp-manager.ts:191-205 | a later copy leaves earlier copies and their sources as they are |
| Intervals.RuntimeSettings.Update | agent/internal/agent/runtime.go:432-451 | which parts of a configuration message the agent takes over |
| Intervals.OfferTakenWhole | agent/internal/gateway/server.go:166-172 | a gateway's two intervals are taken over together, cut to milliseconds, or not at all |
| Intervals.OfferInNanoseconds | agent/internal/gateway/server.go:166-172 | the same in nanoseconds, with the limits written out, for plan, occasion and configuration |
| Intervals.MillisecondsSent | agent/internal/gateway/server.go:298-307 | a duration is sent in whole milliseconds, at least one and at most what thirty-two bits hold |
| Intervals.SecondsSent | agent/internal/gateway/server.go:309-315 | the same in seconds for the heartbeat |
| Intervals.OfferKeepsAcceptable | agent/internal/agent/runtime.go:432-451 | for every plan value and gateway configuration, an update keeps 250 ms <= sample <= batch <= 1 min |
| Intervals.AlwaysAcceptable | agent/internal/agent/runtime.go:432-451 | so does every sequence of offers, with configurations and plans changing in between |
| Intervals.HeartbeatTaken | agent/internal/gateway/server.go:309-315 | the configured heartbeat is always taken over, cut to whole seconds |
| Intervals.UpdateKeepsAcceptableExactly | agent/internal/agent/runtime.go:438-443 | for an arbitrary message, exactly when an update breaks the order of the intervals |
| Intervals.SlowSampleBreaksOrder | agent/internal/agent/runtime.go:438-443 | a message that does |

## Left out

- TLS, certificates, key files and signing requests; serials are fresh tokens.
- gRPC transport and protobuf encoding; a batch is a datatype with a size, and messages are steps.
- Collection from the host, Docker, Kubernetes and eBPF.
- SQL text, the microsecond precision of stored times and floating-point rounding; a transaction is one atomic step on maps, times are nanoseconds, averages and rates are exact reals.
- Kubernetes pod and Docker container rows, their rates, and the summing of disk and network figures over devices; a sample carries the sums, and the number of inventory rows stands for them.
- The workspace in metric keys, and samples collected over SSH, which share the table and can be the previous network reading.
- Unsigned 64-bit wrap-around of byte totals and of sequences.
- The rest of the gateway's batch validation beyond the sequence checks; the pipeline lets the gateway refuse any batch.
- Failing writes of batch and identity files, and failing removals in the pipeline's steps; the spool class itself has failing removals and renames.
- Boot identifiers, connection identifiers, serials, token hashes and session identifiers that repeat; new ones are fresh.
- The `last_acknowledged_sequence` column.
- The time of an agent's last contact; whether it is recent enough for a test, or too old for the sweep, is an input of these steps.
- Configuration pushes, commands and updates over the stream, and the reconnect delay.
- Concurrency of database transactions other than their serial order.
- Deleting all sessions of a user or workspace when the account is removed.
- The health probe of an SSH connection, which runs outside the channel gate, reconnects, and whether drained waiters are ever settled.
- Alert channels, message texts, saving rules to disk, rules with equal identifiers, and edits of rules while an evaluation awaits a delivery; timers longer than the runtime can hold.
- Path normalisation, renames, ownership, the server's umask and its own limits on path length; a link carries what opening it reads, fixed while an operation runs.
- RemoteSession.SftpSession.CopyRecursive: requires a recursion depth that suffices, which exists exactly as the completion lemmas say; the original has no such bound and recurses without end for a target below its source.
- GatewayStore.MetricTables.SaveMetricBatch: the status updates and inventory rows of the same transaction are not part of its tables; the status updates are the heartbeat step of the identity tables.
- RemoteSession.SftpSession.Paste: copies only, not moves; a destination at or below a source directory is excluded, since such a paste never ends.
- Spool.Spool.Quarantine: creating the directory for rejected files always works.
- AlertRules.CounterIsTrailingRun: for a rule whose counter starts at zero, as new rules do.
- PairingLimiter.PruningIsInvisible: for a clock that does not run back.
- React pages, IPC, cloud and repository clients, shell commands, translations, access scopes and plan constants.
