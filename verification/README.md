# democratic-csi, verified models of its core

The project models the parts of democratic-csi that decide something: state
machines that destroy iSCSI sessions and records, the request lock, the ssh
connection and the execs that share it, the iscsiadm mutex and the parser of its
session listing, shell quoting, volume sizes, and the life of ZFS volumes,
snapshots and clones with the properties they are given. Each component is one
module. Code that updates state in place is a class or a method with loops,
proved against functions on values; the theorems are lemmas about those
functions, over every input and every run.

`dafny verify dfyconfig.toml` checks everything (Dafny 4.11).

| file | models |
|---|---|
| `operation_lock.dfy` | the multi-key lock with tokens and eviction, the keys of a request, runs of requests and handlers |
| `session_reaper.dfy` | the stale-session reaper: one pass, and runs of passes over its `staleSince` map |
| `iscsi_listings.dfy` | reading the short listings of iscsiadm, and the search for a target's session in them |
| `iscsi_host.dfy` | the host iscsiadm talks to: other actors may change it before any command, and any command may fail with or without effect |
| `node_db_sweeper.dfy` | the startup sweep of orphaned node-DB records on that host |
| `session_reclaim.dfy` | reclaiming the sessions of a volume at unstage time on that host |
| `portals.dfy` | portal texts and the test that a listed session is at the portal asked for |
| `ssh_connection.dfy`, `ssh_exec.dfy` | the connection manager, and any number of execs on it |
| `iscsi_exec.dfy` | the process-wide iscsiadm mutex, its retries and its kill timer |
| `session_details.dfy` | the parser of `iscsiadm -m session -P 3`, with a printer of that format |
| `shell_words.dfy` | quoting, against a reader written from sections 2.2 and 2.3 of the Shell Command Language of IEEE Std 1003.1 |
| `zvol_sizing.dfy` | block rounding and the capacity checks of CreateVolume and ControllerExpandVolume |
| `zfs_volumes.dfy`, `zfs_outcomes.dfy`, `zfs_lifecycle.dfy` | the controller's calls as ordered ZFS commands, what each answer means for the pool, and what they keep over runs |
| `zfs_names.dfy` | the dataset and snapshot names behind that heap |
| `clone_properties.dfy` | option overlays, copied properties and their layers |
| `paged_search.dfy` | the paged resource search |
| `retry.dfy` | the retry loop |
| `text.dfy`, `wrappers.dfy` | the string operations and the option type the others share |

## Assumptions

- Strings are sequences of characters. Case folding is that of A to Z; white
  space is the ASCII kind, U+00A0 and U+FEFF.
- The host: a command that fails may have taken effect or not; a query that
  fails says nothing. Which stored portal a portal argument selects is an
  arbitrary relation, and so is the match between a listed session and the
  portal asked for, which `Portals.SessionAt` spells out; the texts behind the
  answers are in `IscsiListings`. A failure carries a
  flag for "iscsiadm cannot run here", standing for the error texts the source
  looks at (`src/driver/index.js:261-277`).
- ssh2: calling `exec` on a client whose `close` event was emitted throws "Not
  connected"; an emitted event is handled before the next one. spawn: an `error`
  event means that the child never ran, or that a signal could not be sent to it
  and it runs on; signals are only sent to children with a timeout.
- ZFS: commands do what zfs-destroy(8), zfs-clone(8), zfs-snapshot(8) and
  zfs-receive(8) say. A missing source is reported before an existing
  destination; `destroy -r` and `destroy dataset@%` refuse before destroying
  anything when a dependent clone exists. Nobody else changes the pool. The two
  configured parent datasets do not overlap, as the example configurations
  demand; ids have passed the driver's id checks. The command wrappers run with
  their idempotent option, as the drivers built on this controller set it.
- Byte counts and milliseconds are naturals. zvol block sizes are among those
  the source spells out, so its division is exact.
- Templates (Handlebars) are an arbitrary function from text to text.
- Clocks only matter where a theorem says so (`SessionReaper.WellBehaved`, the
  monotone clock of `OperationLocks.Enabled`).

## Where the code falls short of what it is for

- `ZfsLifecycle.LeaksExactly`: a call leaves a snapshot named after a volume
  without that volume as its clone exactly in the cases of `ZfsLifecycle.Leaks`:
  CreateVolume for a volume that is there and was made otherwise, CreateSnapshot
  under such a name, DeleteVolume when the snapshot has another clone.
  `OtherSourceLeaks`, `RepeatedCopyLeaks` (with a single source per name) and
  `AdoptedSnapshotLeaks` (without repetition) give runs.
- `ZfsLifecycle.WipesExactly`: requesting a volume that is there again destroys
  the snapshots taken of it exactly in the cases of `ZfsLifecycle.Wipes`;
  `RepeatedCopyWipes` gives a run.
- `ZfsLifecycle.ReportedSnapshotGoesExactly`: CreateSnapshot succeeds on a
  snapshot that is only waiting for its last clone, or that is named like the
  driver's own; on other volumes, exactly these go with their only clone.
  `RecreatedSnapshotGoes` and `NamedSnapshotGoes` give runs.
- `ZfsLifecycle.CreateThenDelete`: deleting a volume that was cloned from a
  snapshot named after another one leaves that snapshot waiting for its last
  clone.
- `IscsiExec.OneChildIffKillsWork`: when a kill fails, the call is rejected and
  the mutex freed while the child runs on; `FailedKillOverlaps` gives a run.
- `PagedSearch.MissesExactly`: with a server that takes the limit but not the
  offset, a match behind the first page is missed; `ItemAfterTheLimitIsMissed`
  gives a list.
- `IscsiListings.GarbledExactly`: one short line in the session listing, and
  getSessions throws away all of it; `LineWithoutTargetIsLost` gives a line.
- `ZvolSizing.LimitOnlyIsNotFloored`: a request that only sets a limit is refused
  unless the limit itself is a multiple of the block size.
- `ShellWords.PipelineReadsBackIff`: the sudo path goes unquoted into the
  `send_receive` script, which is right exactly when it is a plain word;
  `SudoPathWithBlank` gives one that is not.
- `OperationLocks.ExclusionIffNoEviction`: with eviction on, two handlers can
  hold one key at a time; `OverlapIsSpreadOut` says how far apart they started.

## Model

| member | source | states |
|---|---|---|
| OperationLocks.OperationLock.Acquire | src/utils/operation_lock.js:58-89 | a token is given iff no key is in the way; then every key carries it and nothing else changes; otherwise nothing changes |
| OperationLocks.OperationLock.Release | src/utils/operation_lock.js:94-101 | exactly the listed keys that still carry the token go |
| OperationLocks.OperationLock.Has | src/utils/operation_lock.js:103-105 | whether a key is held |
| OperationLocks.OverlapIsSpreadOut | src/utils/operation_lock.js:6-20 | in every run, among n unfinished handlers of a key the newest was granted at least (n-1)*maxHoldMs after the oldest; with maxHoldMs = 0 there is at most one |
| OperationLocks.ExclusionIffNoEviction | src/utils/operation_lock.js:47-49 | mutual exclusion holds in all runs iff maxHoldMs is 0 |
| OperationLocks.EventuallyAvailable | src/utils/operation_lock.js:58-66 | once the hold time of every unfinished handler is over, counted from its own grant, or nobody is left, every request is granted, however often others asked in between |
| OperationLocks.BlockedByUnfinished | src/utils/operation_lock.js:58-66 | in every reachable state, a request is blocked iff some unfinished handler still owns the entry of one of its keys and its own hold time is not over |
| OperationLocks.FinishSparesSuccessors | src/utils/operation_lock.js:91-101 | in every run, a finishing handler frees just the keys with its own token; a successor keeps what it holds |
| OperationLocks.AcquireReleaseTransparent | src/utils/operation_lock.js:58-101 | acquire and release by one token, around any calls on other keys, leave the lock as if only those calls were made |
| OperationLocks.KeyOfInjective | src/utils/general.js:65-93 | different subjects never share a lock key, across all families |
| OperationLocks.KeysAreSubjectKeys | src/utils/general.js:65-93 | the keys of a request are those of its subjects |
| OperationLocks.ContendIffCommonSubject | src/utils/general.js:65-93 | two requests contend iff they are about a common subject |
| SessionReaper.CollectSessionDeviceInfo | src/utils/iscsi-session-reaper.js:158-182 | what the loop learns of each disk; a sysfs reader that throws aborts, a mount query that throws counts as mounted |
| SessionReaper.IsSessionReapable | src/utils/iscsi-session-reaper.js:71-132 | reapable iff there are devices and all are gone by what was learned; the summary shows each device with the state and mount it was judged by |
| SessionReaper.ReapableMeansAllGone | src/utils/iscsi-session-reaper.js:60-132 | for distinct disks: reapable iff every device, by its own answers, is named, unmounted and in state offline or transport-offline, in any case and with blanks around it |
| SessionReaper.ISCSISessionReaper.ReapSession | src/utils/iscsi-session-reaper.js:188-226 | both commands are issued in order whatever happens; the answer is that of the logout |
| SessionReaper.ISCSISessionReaper.Reconcile | src/utils/iscsi-session-reaper.js:242-378 | one pass does to the map and the summary what the pass function says; a failed enumeration leaves the map, an empty one clears it |
| SessionReaper.ISCSISessionReaper.RunOnce | src/utils/iscsi-session-reaper.js:497-520 | a tick during a pass does nothing; otherwise it is one pass |
| SessionReaper.ISCSISessionReaper.TryBegin | src/utils/iscsi-session-reaper.js:497-505 | a tick takes the run unless a pass is under way |
| SessionReaper.TrackedAfterPass | src/utils/iscsi-session-reaper.js:321-375 | after a listed pass exactly the keys seen reapable and not reaped are tracked, under their old time or this one's |
| SessionReaper.SummaryIsExact | src/utils/iscsi-session-reaper.js:321-377 | which sessions are candidates, reaped and failed, and that commands go to due sessions only |
| SessionReaper.ReapedAndFailedDisjoint | src/utils/iscsi-session-reaper.js:359-367 | reaped and failed are disjoint subsets of the candidates |
| SessionReaper.SkippedOrCandidate | src/utils/iscsi-session-reaper.js:298-336 | every identified session that could be evaluated is a candidate or skipped, never both; a skipped one loses its timer |
| SessionReaper.CommandsNameSessions | src/utils/iscsi-session-reaper.js:298-359 | commands name listed sessions with a target and a portal, the persistent one where there is one |
| SessionReaper.TimersAreStreaks | src/utils/iscsi-session-reaper.js:330-375 | in every run a tracked key was seen reapable at its time and in every listed pass since |
| SessionReaper.LogoutOnlyAfterFullStreak | src/utils/iscsi-session-reaper.js:242-378 | in every run, a logout at `now` has a pass at or before `now - minStale` that saw the key reapable, as did every listed pass since; no assumption |
| SessionReaper.LogoutIffFullStreak | src/utils/iscsi-session-reaper.js:242-378 | with distinct keys and a clock that does not run back: logout iff seen now and such an unbroken streak exists |
| SessionReaper.KeyDeterminesName | src/utils/iscsi-session-reaper.js:301 | a key determines target and portal, unless a target name contains the separator |
| IscsiHost.Host.ListNodeDBEntries | src/utils/iscsi.js:210-247 | all records, or a failure; the text behind the answer is IscsiListings.ListNodeDBEntries |
| IscsiHost.Host.GetSessions | src/utils/iscsi.js:306-330 | all sessions, or a failure that may say iscsiadm cannot run; the text behind the answer is IscsiListings.GetSessions |
| IscsiHost.Host.NodeDBEntryExists | src/utils/iscsi.js:185-204 | whether the portal argument selects a record of the target, or a failure |
| IscsiHost.Host.GetSession | src/utils/iscsi.js:252-301 | found iff a session of the target at the portal is listed |
| IscsiHost.Host.DeleteNodeDBEntry | src/utils/iscsi.js:166-179 | the records it selects go if the command took effect, reported or not; nothing else changes |
| IscsiHost.Host.Logout | src/utils/iscsi.js:580-604 | the sessions it selects go if the command took effect, reported or not; nothing else changes |
| IscsiListings.ListNodeDBEntries | src/utils/iscsi.js:210-247 | the records read from the lines of the output; exit code 21 counts as an output, any other failure throws |
| IscsiListings.NodesRoundTrip | src/utils/iscsi.js:216-247 | any printed listing of records, whatever follows on their lines, reads back as those records in order |
| IscsiListings.NodeDBEntryExists | src/utils/iscsi.js:185-204 | yes iff the command ended well and printed more than white space; no iff it printed none, or failed with code 21 or with 'no records found' in any case; else it throws |
| IscsiListings.GetSessions | src/utils/iscsi.js:306-349 | the sessions read from the lines of the output, the id as a number where it is one of digits, or the exception |
| IscsiListings.ByExitCode | src/utils/iscsi.js:210-228 | codes 0 and 21 leave a listing, empty when only white space was printed; any other ending is a failure |
| IscsiListings.SessionsRoundTrip | src/utils/iscsi.js:325-349 | any printed listing of sessions, with or without group tags and notes, reads back as those sessions in order |
| IscsiListings.GarbledExactly | src/utils/iscsi.js:334-347 | reading throws iff some line that is not empty has fewer than four fields; one such line loses the listing |
| IscsiListings.LineWithoutTargetIsLost | src/utils/iscsi.js:334-347 | a line with three fields on which it throws |
| IscsiListings.GetSession | src/utils/iscsi.js:252-301 | the first listed session of the target that is at the portal, if there is one; a listing that throws is passed on |
| NodeDbSweeper.SelectOrphanedRecords | src/utils/iscsi-node-db-sweeper.js:21-32 | exactly the records without a session of their target, within the basename |
| NodeDbSweeper.ISCSINodeDbSweeper.SweepOne | src/utils/iscsi-node-db-sweeper.js:100-144 | one record's turn, exactly: from the answers to its two checks and the fate of its delete, its outcome, the host afterwards and the commands it took; it never throws |
| NodeDbSweeper.ISCSINodeDbSweeper.Sweep | src/utils/iscsi-node-db-sweeper.js:70-145 | every orphan has its own query in the log where its turn starts, whatever failed before; every delete comes straight after its two checks whatever others do; on a quiet host the database loses exactly what is selected by an orphan whose checks were answered and whose delete took effect, without faults exactly the orphans |
| NodeDbSweeper.ISCSINodeDbSweeper.ListOrphans | src/utils/iscsi-node-db-sweeper.js:70-92 | the two listings and the selection; a listing that fails ends the sweep before any delete |
| NodeDbSweeper.ISCSINodeDbSweeper.SweepEach | src/utils/iscsi-node-db-sweeper.js:100-144 | the loop gives all orphans their turns, one after the other, on the host as the ones before left it |
| NodeDbSweeper.EveryOrphanHasItsTurn | src/utils/iscsi-node-db-sweeper.js:100-144 | in the turns of any list, each orphan's commands are in the log where those before it end, and its outcome is what they lead to |
| NodeDbSweeper.OutcomeIsWhatWasSeen | src/utils/iscsi-node-db-sweeper.js:100-144 | an outcome is what the last command of the turn showed, and a record reported deleted is gone |
| NodeDbSweeper.FinishedUnlessFailed | src/utils/iscsi-node-db-sweeper.js:70-92 | a sweep is finished unless a listing failed; without records it asks for no sessions |
| NodeDbSweeper.QuietTurns | src/utils/iscsi-node-db-sweeper.js:100-144 | on a quiet host without sessions for the orphans, the records that go are exactly those selected by an orphan whose checks were answered and whose delete took effect; none is found in use |
| NodeDbSweeper.QuietSweepIsExact | src/utils/iscsi-node-db-sweeper.js:100-144 | where a portal selects only itself, what is left is the initial database minus just those orphans |
| NodeDbSweeper.SweptAreOrphans | src/utils/iscsi-node-db-sweeper.js:13-32 | whatever a sweep removes is itself an orphan |
| SessionReclaim.FindIscsiSessionForVolumeId | src/driver/index.js:123-133 | exactly the sessions whose target contains the (non-empty) volume id |
| SessionReclaim.Reclaimer.StillExists | src/driver/index.js:157-168 | a query that fails counts as "still there" |
| SessionReclaim.Reclaimer.RunVerified | src/driver/index.js:149-194 | a step counts as done iff its first or, failing that, its second query is answered and sees its state gone; the command matters only by whether it took effect, not by its exit code |
| SessionReclaim.Reclaimer.LogoutAndDeleteTarget | src/driver/index.js:137-207 | the record is deleted only after the session was seen gone, and the target counts as cleared iff both steps are done; success means the records are gone; other targets are untouched |
| SessionReclaim.Reclaimer.ReclaimEach | src/driver/index.js:314-319 | every matched target is cleared, up to the first that is not |
| SessionReclaim.Reclaimer.NoneRemain | src/driver/index.js:321-338 | clear only if the second listing has no session of the volume |
| SessionReclaim.Reclaimer.RecordsGone | src/driver/index.js:340-361 | gone only if no matched record is found |
| SessionReclaim.Reclaimer.ReclaimMatches | src/driver/index.js:314-363 | success iff every match is cleared, the second listing has none of the volume and no matched record is found |
| SessionReclaim.EffectiveCommandsSuffice | src/driver/index.js:149-194 | on a quiet host, a reclaim whose commands took effect and whose queries were answered succeeds, also when every command reported failure |
| SessionReclaim.QuietEachCleared | src/driver/index.js:137-207 | on a quiet host, clearing matches leaves other targets alone, and once all are cleared none of their records is left |
| SessionReclaim.Reclaimer.ReclaimDeadIscsiSession | src/driver/index.js:284-364 | when there is nothing to reclaim; Reclaimed iff the queries' answers say so, whatever the commands reported; what it may touch, and that Reclaimed means no session of the volume and none of the matched records is left |
| Portals.ParsePortal | src/utils/iscsi.js:638-666 | the host and the port number a portal text splits into, the port read like parseInt does |
| Portals.ParsePlain | src/utils/iscsi.js:647-660 | a printed host:port reads back, the port as its number; without a port it is 3260 |
| Portals.ParseBracketed | src/utils/iscsi.js:643-646 | a printed IPv6 portal reads back, its host with the brackets |
| Portals.ParseUnclosed | src/utils/iscsi.js:638-666 | without its closing bracket a portal has no host, and what follows the opening one is read as the port |
| Portals.SessionAtText | src/utils/iscsi.js:280-298 | whatever text the port is: the sessions listed under the same text, and those at the number it reads as, under the host or its resolved address, bracketed or not |
| Portals.SessionAtExactly | src/utils/iscsi.js:280-298 | asked for a host, also a bracketed IPv6 one, and a printed port number, exactly sessions at that port under the host or its resolved address, bracketed or not, match |
| SshConnection.SshClient.OnClientEvent | src/utils/zfs_ssh_exec_client.js:50-82 | only the current client's events change the state; a handshake waiting on the client is decided by the first of them |
| SshConnection.SshClient.ConnectCall | src/utils/zfs_ssh_exec_client.js:190-196 | a ready connection is handed out at once, otherwise the caller queues |
| SshConnection.SshClient.EnterConnect | src/utils/zfs_ssh_exec_client.js:123-171 | under the mutex: reuse when ready, else end the previous client, make a new one and connect it once |
| SshConnection.SshClient.LeaveConnect | src/utils/zfs_ssh_exec_client.js:172-184 | the outcome of the handshake goes to the caller, and a failed client is ended |
| SshConnection.SshClient.TakeReply | src/utils/zfs_ssh_exec_client.js:376 | a caller gets its own reply, once |
| SshConnection.SshClient.FoundDead | src/utils/zfs_ssh_exec_client.js:401-406 | a client found dead is marked closed only while it is the current, ready one |
| SshConnection.AnswersExactly | src/utils/zfs_ssh_exec_client.js:123-196 | in every reachable state: whom a step answers; with the current client, except for a caller whose own handshake failed, which is refused, its client ended and the connection broken |
| SshConnection.RefusedOnlyAfterFailure | src/utils/zfs_ssh_exec_client.js:123-184 | in every run, a refused caller's own client, made on its latest turn, threw or broke before it became ready; a resolved handshake has a client that became ready first |
| SshConnection.EventsExactly | src/utils/zfs_ssh_exec_client.js:50-82 | the current client's event becomes the state of the connection, any other client's nothing |
| SshConnection.NeverStuck | src/utils/zfs_ssh_exec_client.js:106-196 | the mutex never blocks for good: a free one lets in whoever waits, a pending handshake can be decided by any event but an end, a decided one frees it |
| SshConnection.ConnectionSafety | src/utils/zfs_ssh_exec_client.js:50-82 | in every run: ready only if the current client's latest event is ready; at most one handshake; one connect() per client; only clients that became ready are handed out |
| SshConnection.ReplacedOnlyWhenLost | src/utils/zfs_ssh_exec_client.js:123-141 | in every run, a replaced client was lost before, and was ended |
| SshConnection.CreatesOnlyAfterLoss | src/utils/zfs_ssh_exec_client.js:124-139 | a step makes a client only when there is none or the current one is lost, and then a fresh one |
| SshConnection.QueuedCallersShareClient | src/utils/zfs_ssh_exec_client.js:106-127 | callers queued behind a reconnect all get the client it made |
| SshExec.RExec.OnConnected | src/utils/zfs_ssh_exec_client.js:373-408 | one round of the connect loop: listeners attached, the exec issued, or the client found dead |
| SshExec.RExec.SettleWith | src/utils/zfs_ssh_exec_client.js:320-332 | the first outcome stays; timer and listeners go with it |
| SshExec.RExec.OnWake | src/utils/zfs_ssh_exec_client.js:374 | another round only while unsettled |
| SshExec.RExec.OnConnectionEnded | src/utils/zfs_ssh_exec_client.js:306-313 | a lost connection settles an exec in flight |
| SshExec.RExec.OnKill | src/utils/zfs_ssh_exec_client.js:359-363 | a kill destroys the channel and settles nothing |
| SshExec.RExec.OnTimeout | src/utils/zfs_ssh_exec_client.js:334-343 | a timeout settles and destroys the channel |
| SshExec.RExec.OnExec | src/utils/zfs_ssh_exec_client.js:345-371 | a channel that opens after settling is destroyed |
| SshExec.RExec.OnData | src/utils/zfs_ssh_exec_client.js:251-276 | chunks are kept and forwarded only while unsettled |
| SshExec.RExec.OnChannelClose | src/utils/zfs_ssh_exec_client.js:239-250 | closing settles, and is forwarded, only while unsettled |
| SshExec.ExecSafety | src/utils/zfs_ssh_exec_client.js:296-411 | in every run of any number of execs: settles at most once, listens only in flight, close forwarded iff its own channel settled it, result is what was forwarded, no channel survives a timeout |
| SshExec.OutcomeHasItsCause | src/utils/zfs_ssh_exec_client.js:240-411 | in every run of any number of execs, a settled outcome goes back to the one event that settled it: completed with a code by its own channel closing with that code, timed out by its own timeout, connection lost by the end or close of its own client, failed by a refusal, a throw or a channel that did not open; the output is all its channel brought before, in order |
| SshExec.SettlesExactly | src/utils/zfs_ssh_exec_client.js:239-371 | an event settles an open exec iff it is such a cause, and with that outcome: every timeout, close and loss does |
| SshExec.ACommandFails | src/utils/zfs_ssh_exec_client.js:239-250 | a run in which a command that prints and ends with code 1 completes with that output and code |
| SshExec.JoinedIsText | src/utils/zfs_ssh_exec_client.js:251-276 | the output kept is the text of the chunks in order, and nothing when there was none |
| SshExec.DestroysExactly | src/utils/zfs_ssh_exec_client.js:334-371 | exactly what destroys a channel: a kill, a timeout, opening too late |
| SshExec.ChannelLife | src/utils/zfs_ssh_exec_client.js:345-371 | a channel that opens is kept, and streams unless the exec settled; one that closes or fails leaves nothing to do |
| SshExec.ConnectLoop | src/utils/zfs_ssh_exec_client.js:373-411 | with a client an open exec runs on it, or marks it dead, sleeps and asks again; a settled one stops |
| SshExec.SettledIsFinal | src/utils/zfs_ssh_exec_client.js:228-276 | nothing is forwarded or changed after settling, however the run goes on |
| SshExec.NoOrphans | src/utils/zfs_ssh_exec_client.js:113-122 | no exec is in flight on a closed client, and none waits for a connection unserved |
| SshExec.SystemKeepsConnectionSafety | src/utils/zfs_ssh_exec_client.js:401-406 | with any execs around it, which mark clients dead, the connection stays in a state the connection manager reaches by itself, so all its theorems apply |
| SshExec.ConnectionMoves | src/utils/zfs_ssh_exec_client.js:373-411 | each event moves the connection by the connection manager's own steps |
| IscsiExec.Executor.StartCall | src/utils/iscsi.js:715-733 | a call queues with 1 + max(0, retries) attempts |
| IscsiExec.Executor.EnterMutex | src/utils/iscsi.js:733-773 | the first in line gets the free mutex and a child, with a kill timer iff there is a timeout |
| IscsiExec.Executor.OnChildEnds | src/utils/iscsi.js:743-824 | the mutex is freed and the kill timer cleared, also when the child runs on; after a timeout with attempts left the call backs off, otherwise it is done |
| IscsiExec.Executor.OnKillTimer | src/utils/iscsi.js:763-773 | one SIGKILL, and the timer is gone |
| IscsiExec.Executor.OnRetry | src/utils/iscsi.js:753 | after the pause the call queues again, last in line |
| IscsiExec.Executor.OnLateClose | src/utils/iscsi.js:806-824 | a close that comes after the attempt was rejected settles nothing |
| IscsiExec.OneChildInOrder | src/utils/iscsi.js:13-15 | in every reachable state the holder's child is alive, no other is but those a kill failed for, and attempts entered in the order they asked |
| IscsiExec.OneChildIffKillsWork | src/utils/iscsi.js:13-15 | a run has at most one child alive all along, the holder's, iff no attempt of it ends with an error event from a failed kill |
| IscsiExec.FailedKillOverlaps | src/utils/iscsi.js:795-804 | a run after which two children are alive |
| IscsiExec.BoundedAttempts | src/utils/iscsi.js:715-755 | a call started with so many retries makes at most 1 + max(0, retries) attempts, another one only after a timeout, and when done used them all or did not time out last |
| IscsiExec.KillEscalation | src/utils/iscsi.js:763-780 | at most one SIGKILL, never after the attempt ended, and a live child with a timeout has had it or will, or has lost the mutex after a failed kill |
| IscsiExec.KillTimerKills | src/utils/iscsi.js:763-773 | the timer that fires finds a live child without a SIGKILL, and sends it the only one |
| IscsiExec.LateCloseIsHarmless | src/utils/iscsi.js:806-824 | a child left running changes nothing else when it ends, and is never the holder's |
| IscsiExec.EndingFreesMutex | src/utils/iscsi.js:733-745 | however an attempt ends the mutex is free and the next in line can enter; the child is gone too unless a kill failed |
| IscsiExec.RetryIffTimeout | src/utils/iscsi.js:743-746 | a call goes on iff it was ended by a signal and has attempts left |
| SessionDetails.GroupLines | src/utils/iscsi.js:379-410 | the grouping loop ends with the groups of the grouping automaton, or with a group led by no target |
| SessionDetails.ReadDevices | src/utils/iscsi.js:456-486 | the inner loop takes the device pairs that follow and stops where they end |
| SessionDetails.ReadGroup | src/utils/iscsi.js:413-509 | the loop over a group gives the session the line reader gives, or the exception |
| SessionDetails.GetSessionsDetails | src/utils/iscsi.js:374-511 | the whole function on its output text, the two dropped lines included: exactly the sessions the line reader gives, or the exception |
| SessionDetails.GatherTargets | src/utils/iscsi.js:389-410 | grouping printed targets gives one group per session in order, led by its own target line |
| SessionDetails.DetailsRoundTrip | src/utils/iscsi.js:379-511 | printing any non-empty list of targets with sessions and parsing it gives one object per session, in order, with its own target, portals, host and devices |
| SessionDetails.OutputRoundTrip | src/utils/iscsi.js:374-511 | the same from the text: an output of the tool's two lines, the printed targets and trailing white space, cut at line breaks, reads back as those sessions |
| ShellWords.BuildCommand | src/utils/zfs.js:1642-1645 | the command line of name and arguments; the caller's array now starts with the name |
| ShellWords.CommandRoundTrip | src/utils/zfs.js:8-10 | for all texts, the shell reads back the name and exactly the arguments |
| ShellWords.CommandLineInjective | src/utils/zfs.js:1637-1645 | different commands have different command lines |
| ShellWords.HalfCommand | src/utils/zfs.js:1156-1171 | one side of the pipeline, with every argument quoted |
| ShellWords.SendReceiveScript | src/utils/zfs.js:1148-1174 | the script the two growing arrays are joined to |
| ShellWords.NestedPipelineRoundTrip | src/utils/zfs.js:1140-1186 | read twice, the pipeline gives back every option, source and target and exactly one operator |
| ShellWords.RawWordIff | src/utils/zfs.js:1157-1168 | an unquoted text is read as itself iff it is a plain word |
| ShellWords.PipelineReadsBackIff | src/utils/zfs.js:1154-1171 | with sudo, the script reads back as intended iff the sudo path is a plain word |
| ShellWords.SudoPathWithBlank | src/utils/zfs.js:1157-1168 | a path with a blank, for which no script reads back |
| ZvolSizing.GenerateZvolSize | src/utils/zfs.js:187-234 | rounding half up and correcting gives the least multiple of the block size that is not less than the capacity |
| ZvolSizing.BlockTable | src/utils/zfs.js:187-226 | the listed sizes are the powers of two from 512 to 131072, under their digits and, from 1024, in units of 1024 under a 'k'; each listed text is worth what its digits say |
| ZvolSizing.CreateCapacity | src/driver/controller-zfs/index.js:732-785 | a required size is accepted iff a multiple lies in the range, and then the least; a limit alone iff it is a multiple; which error otherwise |
| ZvolSizing.ExpandCapacity | src/driver/controller-zfs/index.js:1585-1629 | the same acceptance for an expansion, with its own error codes |
| ZvolSizing.RepeatRequest | src/driver/controller-zfs/index.js:793-837 | a repeated accepted request passes the existing-size check, another one iff the size lies in its range |
| ZvolSizing.LimitOnlyIsNotFloored | src/driver/controller-zfs/index.js:754-785 | a limit of 20000 alone is refused for a 16K block although 16384 would fit |
| ZvolSizing.DefaultFits | src/driver/controller-zfs/index.js:732-740 | the default size is a multiple of every listed block size |
| ZfsNames.ParentAndLeaf | src/utils/zfs.js:159-172 | a child's name gives back its parent, its own part and its pool |
| ZfsNames.DatasetAndSnapshot | src/utils/zfs.js:143-157 | a snapshot's name gives back the dataset and the snapshot part |
| ZfsNames.DatasetNamesDiffer | src/driver/controller-zfs/index.js:787-791 | with the parents apart, different datasets have different names |
| ZfsNames.SnapNamesDiffer | src/driver/controller-zfs/index.js:957-969 | and so have different snapshots |
| ZfsNames.OriginIsCloneName | src/driver/controller-zfs/index.js:1458-1465 | the prefix test on an origin's full name is the test on the snapshot part |
| ZfsVolumes.Zetabyte.TakeSnapshot | src/utils/zfs.js:1016-1059 | run idempotently, only a missing dataset is an error |
| ZfsVolumes.Zetabyte.CreateDataset | src/utils/zfs.js:915-954 | run idempotently, an existing dataset is left as it is |
| ZfsVolumes.Zetabyte.CloneTo | src/utils/zfs.js:1101-1138 | run idempotently, only a missing snapshot is an error, and an existing dataset is left as it is |
| ZfsVolumes.Zetabyte.Replicate | src/utils/zfs.js:1148-1186 | a missing source and an existing destination are both reported |
| ZfsVolumes.Zetabyte.RemoveSnapshotsFromDataset | src/driver/controller-zfs/index.js:196-200 | all snapshots of a dataset go, or none when one has a clone |
| ZfsVolumes.Zetabyte.DestroyDeferred | src/utils/zfs.js:965-1006 | with -d a snapshot goes, or waits for its last clone; a missing one is no error |
| ZfsVolumes.Zetabyte.DestroyTree | src/utils/zfs.js:965-1006 | a dataset goes with its snapshots, unless one has a clone; a missing one is no error |
| ZfsVolumes.Zetabyte.DestroyEmpty | src/utils/zfs.js:965-1006 | without -r a dataset with children or snapshots stays |
| ZfsVolumes.Controller.CreateVolume | src/driver/controller-zfs/index.js:925-1204 | the ordered commands for each content source and mode change the pool and reply as the step function says |
| ZfsVolumes.Controller.Fill | src/driver/controller-zfs/index.js:1000-1046 | the volume is cloned, or copied and rid of all its snapshots |
| ZfsVolumes.Controller.DeleteVolume | src/driver/controller-zfs/index.js:1417-1552 | origin first, then the managed-snapshot test, then the volume |
| ZfsVolumes.Controller.CreateSnapshot | src/driver/controller-zfs/index.js:2349-2459 | refused for a name used on another volume or a missing volume, else the snapshot is there |
| ZfsVolumes.Controller.CreateDetachedSnapshot | src/driver/controller-zfs/index.js:2321-2437 | container, temporary snapshot, copy, and both temporary snapshots dropped |
| ZfsVolumes.Controller.DeleteSnapshot | src/driver/controller-zfs/index.js:2577-2592 | destroyed now or deferred, never an error |
| ZfsVolumes.Controller.DeleteDetachedSnapshot | src/driver/controller-zfs/index.js:2577-2608 | the copy goes unless it has dependent clones, and then its container when empty |
| ZfsOutcomes.VolumeCreated | src/driver/controller-zfs/index.js:925-1204 | which reply, what is there after a success with which origin, and what becomes of the snapshots; AlreadyExists and NotFound change nothing, a copy that fails only the volume's properties and the snapshot taken for it |
| ZfsOutcomes.VolumeDeleted | src/driver/controller-zfs/index.js:1417-1552 | Ok means that the volume is gone with its snapshots, a refusal that everything is there; its source snapshot goes iff this was its last clone and it is named like the driver's own or was waiting; nothing else changes |
| ZfsOutcomes.SnapshotsProtect | src/driver/controller-zfs/index.js:1488-1549 | without dependent clones, deletion succeeds iff no snapshot of the volume is one made by CreateSnapshot, nor, unless foreign ones are ignored, any on a managed volume |
| ZfsOutcomes.SnapshotTakenProtects | src/driver/controller-zfs/index.js:1488-1549 | a volume whose snapshot was just made cannot be deleted |
| ZfsOutcomes.SnapshotCreated | src/driver/controller-zfs/index.js:2349-2459 | refused, without effect, iff the name is on another volume or the volume is missing; Ok means that the snapshot is there, managed if it is new, and nothing else changed |
| ZfsOutcomes.SnapshotDeleted | src/driver/controller-zfs/index.js:2577-2592 | Ok always; the snapshot is gone iff it has no clone, and waits otherwise; nothing else changes |
| ZfsOutcomes.CopyCreated | src/driver/controller-zfs/index.js:2321-2437 | Ok iff no other volume has a copy of that name and the volume is there; then the copy is there, if new managed and without origin or its temporary snapshot, the volume's temporary snapshot is gone or waits for a clone, and everything else is as it was |
| ZfsOutcomes.CopyDeletedIsGone | src/driver/controller-zfs/index.js:2577-2608 | refused without effect while the copy has dependent clones; otherwise it is gone with its snapshots, and after Ok its container too unless it has other copies |
| ZfsOutcomes.SourceSnapIs | src/driver/controller-zfs/index.js:957-1181 | which snapshot a volume is made from, under which name |
| ZfsLifecycle.LeaksExactly | src/driver/controller-zfs/index.js:925-1552 | in any well-formed pool where every snapshot named after a volume has that volume as a clone, one call leaves it so iff it is not one of the described leaks |
| ZfsLifecycle.RunsLeakNothing | src/driver/controller-zfs/index.js:957-1181 | after any run without such calls, from any such pool, a snapshot named after a volume exists only with that volume as its clone |
| ZfsLifecycle.OwnClonesExactly | src/driver/controller-zfs/index.js:925-1188 | where every clone of a snapshot named after a volume is that volume, one call keeps that iff it does not clone such a snapshot, by its name, for another one |
| ZfsLifecycle.ConsistentRuns | src/driver/controller-zfs/index.js:925-1188 | runs that request each name from one source, cloned, and use no name of the driver's own, leak nothing |
| ZfsLifecycle.OtherSourceLeaks | src/driver/controller-zfs/index.js:1090-1102 | a run in which a name is requested from two volumes leaks |
| ZfsLifecycle.RepeatedCopyLeaks | src/driver/controller-zfs/index.js:1126-1157 | a run with one source per name in which a detached request is repeated leaks |
| ZfsLifecycle.AdoptedSnapshotLeaks | src/driver/controller-zfs/index.js:1457-1486 | a run without any repetition in which DeleteVolume leaks: another volume was cloned from the snapshot taken for the deleted one |
| ZfsLifecycle.StepMoves | src/driver/controller-zfs/index.js:925-1204 | which datasets a call may add or take away; no call changes an origin |
| ZfsLifecycle.DependentsSurvive | src/driver/controller-zfs/index.js:1518-1549 | from any pool, no call destroys a volume or copy with a dependent clone, and deleting one is refused |
| ZfsLifecycle.StepKeepsWell | src/driver/controller-zfs/index.js:925-1204 | every call, leaking or not, keeps the pool well formed: clones have their snapshots, snapshots their datasets, and only snapshots with clones wait |
| ZfsLifecycle.RunsKeepDependedOn | src/driver/controller-zfs/index.js:1518-1549 | over any run, leaks included, what has dependents all along is still there, in a well-formed pool |
| ZfsLifecycle.DeleteRefusesExactly | src/driver/controller-zfs/index.js:1488-1549 | deletion is refused iff there are dependent clones or managed snapshots, and then takes nothing away |
| ZfsLifecycle.DeleteIsFinal | src/driver/controller-zfs/index.js:1457-1552 | after a deletion the volume and its snapshots are gone, and deleting again does nothing; the snapshot taken for it is gone iff it had no other clone |
| ZfsLifecycle.RepeatChangesNothing | src/driver/controller-zfs/index.js:925-1188 | repeating a request at once changes nothing, except where a volume was replaced by a copy of its own snapshot |
| ZfsLifecycle.RepeatWipesSnapshots | src/driver/controller-zfs/index.js:1021-1024 | after a detached request the volume has no snapshots, also those it had before |
| ZfsLifecycle.WipesExactly | src/driver/controller-zfs/index.js:1126-1150 | requesting a volume that is there destroys snapshots of it (others than one named after it) iff the request is detached, fits, has a source that is there, and the volume has such snapshots and no dependent clone |
| ZfsLifecycle.RepeatedCopyWipes | src/driver/controller-zfs/index.js:1126-1150 | a run from the empty pool in which a snapshot of a copy is gone once the copy is requested again |
| ZfsLifecycle.CreateThenDelete | src/driver/controller-zfs/index.js:1457-1486 | creating a volume, from any source and in either mode, and deleting it gives back the pool exactly, unless it was cloned from a snapshot named after another volume that was not waiting: that one is left waiting |
| ZfsLifecycle.RecreatedSnapshotStillGoes | src/driver/controller-zfs/index.js:2442-2459 | a snapshot deleted while cloned and created again still goes with its clone |
| ZfsLifecycle.SnappedIsThere | src/driver/controller-zfs/index.js:2442-2459 | a snapshot reported as made is there, and waits for its last clone iff it was there before and already waiting |
| ZfsLifecycle.ReportedSnapshotGoesExactly | src/driver/controller-zfs/index.js:2442-2459 | a snapshot reported as made, under any name, goes with a volume deleted later iff it is on that volume, or that volume is its only clone and it was waiting or is named like the driver's own |
| ZfsLifecycle.RecreatedSnapshotGoes | src/driver/controller-zfs/index.js:2442-2459 | in a pool with a cloned snapshot, that happens |
| ZfsLifecycle.ClonedVolumeIsReached | src/driver/controller-zfs/index.js:925-1204 | that pool is the result of a run from the empty one |
| ZfsLifecycle.NamedSnapshotGoes | src/driver/controller-zfs/index.js:1457-1486 | a run from the empty pool in which a snapshot reported as made, and not waiting, goes because of its name |
| CloneProperties.ValidateCloneDatasetProperties | src/driver/index.js:567-614 | the normalized copy list and set values, or a refusal |
| CloneProperties.NamesAllowed | src/driver/index.js:490-525 | the names a section may use: user properties outside the driver's namespace, and in a copy list '*' and patterns that do not begin with the namespace's name |
| CloneProperties.ScalarTexts | src/driver/index.js:537-553 | which values have a text, and which count as absent |
| CloneProperties.NormalIsValidated | src/driver/index.js:715-723 | normalizing a normalized section changes nothing |
| CloneProperties.AddStrings | src/driver/index.js:655-661 | all entries are added as strings, or one of them is refused |
| CloneProperties.CloneDeep | src/driver/index.js:618-620 | new objects with the same content |
| CloneProperties.ApplyOverlay | src/driver/index.js:628-710 | one overlay merged into the clone in place, or refused |
| CloneProperties.GetMergedDriverOptions | src/driver/index.js:616-726 | a fresh object with the merge of the overlays; the driver's own options are not written to |
| CloneProperties.ApplyAllIs | src/driver/index.js:628-710 | what the overlays amount to, key by key, and when applying them is refused |
| CloneProperties.CopyJoinedHasAll | src/driver/index.js:687-689 | the joined copy list has every entry of either side, no other, and no duplicates |
| CloneProperties.MergingIsIdempotent | src/driver/index.js:616-726 | merging the same overlays into the result gives the result |
| CloneProperties.MergeRefusesExactly | src/driver/index.js:640-723 | a merge is refused iff an overlay or the driver's own clone section is invalid |
| CloneProperties.ResultIsNormal | src/driver/index.js:715-723 | every merge ends with a clone section in normal form |
| CloneProperties.SelectCopiedDatasetProperties | src/driver/controller-zfs/index.js:2691-2735 | exactly the user properties outside the reserved namespace, set on the source itself and matched by a pattern |
| CloneProperties.CopiedExactly | src/driver/controller-zfs/index.js:2691-2735 | the same spelt out for a snapshot as source, with the namespace, the missing value and the three sources that count |
| CloneProperties.MatchesExactly | src/driver/controller-zfs/index.js:2722-2728 | a pattern matches itself and, when it ends in '*', the names that begin with what is before |
| CloneProperties.BuildCloneDatasetProperties | src/driver/controller-zfs/index.js:2751-2783 | copied properties under the rendered set values |
| CloneProperties.ClonePropertiesOf | src/driver/controller-zfs/index.js:870-910 | the property maps CreateVolume assembles for a clone, in layers |
| CloneProperties.Layering | src/driver/controller-zfs/index.js:988-998 | reserved names and names without a colon keep the driver's value; others take PVC over StorageClass over set over copied over driver |
| CloneProperties.UndesiredAreNotUsers | src/driver/controller-zfs/index.js:1029-1032 | exactly aclmode, aclinherit, acltype and casesensitivity are dropped for clones, so no user property is |
| PagedSearch.FindResourceByProperties | src/driver/freenas/ssh.js:197-274 | ends, and returns the first match or nothing, of the whole list; from a server that takes the limit but not the offset, of its first items (PagedSearch.MissesExactly) |
| PagedSearch.MissesExactly | src/driver/freenas/ssh.js:197-274 | the result differs from the first match of the whole list iff requests are paged, the server takes the limit but not the offset, nothing among its first 100 items matches and a later item does |
| PagedSearch.ItemAfterTheLimitIsMissed | src/driver/freenas/ssh.js:197-274 | a list of 101 items whose last one is not found |
| PagedSearch.SearchPage | src/driver/freenas/ssh.js:241-261 | the first match of one page |
| PagedSearch.PagesDiffer | src/driver/freenas/ssh.js:228-234 | for distinct items the repeated-page stop never ends a search early |
| Retry.Run | src/utils/general.js:206-261 | the first success within max(1, retries) calls is returned unless a failure before it must not be retried; a failure is returned only after that many calls or when it must not be retried; pauses and held time are exact |
| Retry.BackoffIsBounded | src/utils/general.js:245-259 | the back-off of n calls: delay*n(n-1)/2 in exponential mode until the ceiling is reached and the ceiling per pause from then on, else the lesser of delay and ceiling n-1 times; never more than maxwait*(n-1) |
| Retry.ElapsedIs | src/utils/general.js:232-241 | with a least time per call, n calls take at least n times that, and just their own time when none is shorter |

## Left out

- Spawning, HTTP clients, Kubernetes lookups, YAML, logging, Windows and csi-proxy: inputs and outputs without a decision in them.
- NodeStageVolume, NodePublishVolume, share creation, capability tables: long case splits.
- ListVolumes and ListSnapshots paging, parameter precedence, NVMe and partition lookup.
- The reaper's timers (start, stop), environment variables for limits and time-outs (resolveMaxHoldMs, getExecTimeoutMs and the like): their results are parameters.
- `_nexec`, the exec over a connection of its own.
- `reclaimDeadIscsiSession` finds sessions by substring, so an id contained in another target's name selects that one too; the theorems say "targets containing the volume id".
- A failed unstage that is retried: after a logout whose delete failed, the retry finds no session; the claims are per call.
- In CreateVolume: name-length limits, capability checks, later `zfs set` calls and shares. Commands in the ZFS model fail only for the reasons the model gives; a command interrupted half-way is not modelled.
- Reading the source snapshot's properties for a copy list fails for a missing snapshot before the clone does; the model reports NOT_FOUND there.
- A detached snapshot whose name equals that of a container or the last component of the parent dataset is refused by the source; the model accepts it.
- SessionDetails.OutputRoundTrip: on printed lines without a line break in them and a last line that does not end in white space. What is printed in other sections is arbitrary text, and the theorem does not say what their entries become; a section may not be named like a header field or like a property every JavaScript object has.
- ShellWords.Tokens: the reader knows no reserved words, here-documents or IO numbers; none can come out of quoted text.
- ZvolSizing.GenerateZvolSize: block sizes outside the source's list are a precondition.
- IscsiHost.Host.ListNodeDBEntries: answers with the records themselves; the text they are read from, exit code 21 included, is IscsiListings.
- IscsiHost.Host.GetSessions: likewise.
- IscsiHost.Host.NodeDBEntryExists: likewise; how code, output and message make the answer is IscsiListings.NodeDBEntryExists.
- IscsiHost.Host.GetSession: the match of portals is an arbitrary relation here, so that the theorems hold for any name resolution; it is spelt out in Portals.SessionAt and searched with in IscsiListings.GetSession.
- IscsiListings.GetSessions: what the source's Number makes of an id that is not all digits (a sign, a fraction, an exponent, NaN) is left open.
- Portals.ParsePortal: numbers are exact, also beyond 2^53, where the source rounds.
- CloneProperties.Layering: the driver's configuration does not itself contain the internal key datasetPropertiesOverlay.
- PagedSearch.FindResourceByProperties: the list does not change during the search, and a response other than 200 is not modelled.
- Retry.Run: what the code does between calls is its sequence of results, given in advance.
