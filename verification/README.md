# Verification of the host upgrade and reboot protocol

A Dafny model of how `pharos-host-upgrades` processes, one per cluster node, take turns to upgrade,
drain and reboot their hosts. They coordinate only through compare-and-swap updates of the DaemonSet,
whose annotation is the lock, and of their own Node objects. `dafny verify dfyconfig.toml` checks it.

## Layout

- `DaemonSets.dfy`, `Nodes.dfy`, `Conditions.dfy`, `Times.dfy`: the stored objects and the changes made to
  them, condition lists, boot times and backoff.
- `Protocol.dfy`: the cluster as a transition system. Any number of processes with a program counter each,
  their hosts, everybody else who edits the objects, crashes, restarts, reboots, and lock updates that the
  server commits after the client has given up on them (`late`).
- `Invariant.dfy`: the inductive invariant, kept by every step of every run. `Safety.dfy`: what follows for
  every reachable state and run. `History.dfy`: what the history flags of a node say about its run.
  `Witnesses.dfy`: concrete runs that break a guarantee, and with them the exact configurations in which each
  guarantee holds in all runs. `Recovery.dfy`: no state is a dead end.
- `World.dfy`: the API server, host and clock as one process sees them. Before each call an arbitrary oracle
  lets everybody else take protocol steps; calls may fail, with their effect applied, not applied, or
  applied later. `LockClient.dfy`, `NodeClient.dfy`, `KubeClient.dfy`, `Upgrades.dfy`: the code of the process,
  with its loops and error branches. Every method keeps the cluster in a reachable state of the protocol, so
  the theorems of `Safety.dfy` hold at every call it makes; a crash in the middle is a protocol step.
- `Scheduling.dfy`: the scheduler as a machine of two goroutines, in all interleavings. `Daemon.dfy`: the process
  from its start on: recovery, and then the receive loop with the runs of `Upgrades.dfy` as its jobs.

`World.dfy` keeps a record of what happened to the process: the calls of its own that failed, the commits by
others to its Node, its reads from the server and when the last one began, the updates that the server refused as
conflicts, what its watch has delivered and when its timer fires, its attempts to take the lock, its sleeps, the
runs it began, the point at which it ended, and what its runs did to the host, that is upgrades, calls of kubectl
and reboot requests with their results. Contracts speak of that record: an error
needs a failed call, or as many commits by others to this very Node as an update is retried, and steps that
others take elsewhere excuse nothing. Its `fuel` only bounds the loops: it is arbitrary, and every step of
others and every failed call uses some up. When none is left nobody takes a step any more, which is the only
time a watch without a timer may be said to wait for good.

## Assumptions

- The API server does optimistic locking: an update commits exactly when the submitted version is the current
  one. A watch delivers every version after the one it starts from, in order, unless it ends.
- Others never edit the lock, drain and reboot annotations or the two conditions, and never remove the last
  other annotation of the DaemonSet (`DropEmptiesIff` says why: `set` panics on a nil map).
- One process per node, and upgrade work on the host stops with its process.
- An update of a Node that returned an error has been applied or never will be. For the lock this is needed only
  where stated.
- No two processes are configured with the same node name (`ValidConfig`); `MutualExclusionIff` says that this is
  exactly what the lock needs. The options check (`kube.go:23-25`) also lets a process through that has no node
  name; it fails in recovery, because the API server refuses a read without a name, before it ever sees the lock.

## Where the code and its documentation differ

- "This lock is also held during a reboot" (`README.md:43`) is false with `--reboot` but without `--drain`: only the
  drain branch leaves a mark, so a process restarted before the shutdown takes effect releases the lock.
  `LockHeldForRebootIff` gives the exact condition.
- The error releases that `main.go:88-101` marks as a bad idea leave a drained node without the lock;
  `DrainedHoldLockIff` shows it, and the flag `failed` tracks it in every other statement.
- A run whose status update is lost goes on (`kube.go:228-235`), so a node can claim to be up to date and to need
  a reboot at once; `CoherentIff`.

## Model

| member | source | states |
|---|---|---|
| Safety.MutualExclusion | kube/lock.go:153-177 | In every reachable state at most one process is between a successful acquire and the commit of its release, and the lock annotation is its node name |
| Witnesses.MutualExclusionIff | kube.go:23-25 | Mutual exclusion holds in all runs if and only if no two processes share a non-empty node name |
| Safety.HolderStability | kube/lock.go:80-94 | Whatever the holder's process is doing, a step takes the lock from its node if and only if it is that node's own release, committed at once or late; and it leaves the lock free |
| Safety.CriticalStability | main.go:60-137 | While a process is critical only its own release, committed at once, changes the lock |
| Safety.ReleaseAfterRecovery | kube.go:71-79 | No release, committed at once or late, happens while the node is drained or still marked for reboot, whatever failed before, except the release of a run that itself ended in an error; so recovery always uncordons first |
| Safety.LockIsKnown | kube/lock.go:64-78 | In every reachable state the lock annotation is free or the name of a configured process |
| Safety.HandOver | kube/lock.go:80-94 | In every commit history, between two takes by different names lies a release of the first name |
| DaemonSets.LostByDrop | kube/lock.go:80-94 | A held lock changes from one version to a later one only through a commit that removes the holder's own value |
| Safety.MarkedHoldsLock | kube.go:66-81 | A node marked for a reboot it has not made holds the lock through crashes and restarts, unless its run failed |
| Safety.MarkPersists | kube.go:120-145 | Over any stretch of any run at whose end the boot time is not past the mark, the mark stays as it was |
| Safety.LockHeldWhileMarked | kube.go:254-271 | From any point where the node is marked and its run has not failed, mark and lock stay until the boot time is past the mark or the run ends in an error |
| Safety.LockHeldAcrossReboot | main.go:85-134 | In drain mode, from the success of MarkReboot on, mark and lock stay with the node through crashes, restarts and reboots within the same second until the boot time is past the mark, unless host.Reboot returns an error |
| History.IssuedIff | main.go:98-106 | At every point of every run, a reboot counts as requested if and only if host.Reboot succeeded and the host has not booted since |
| Witnesses.LockHeldForRebootIff | README.md:43 | The lock covers every requested reboot in all runs if and only if the tool reboots only with draining |
| Witnesses.UnlockedReboot | main.go:81-106 | A run without drain in which the lock is released before the requested reboot |
| Safety.RebootCheck | kube.go:120-131 | A restarted process passes the check with the annotation present only if the host booted after the mark, and can pass when it booted a second later |
| Safety.MarkNotAhead | main.go:90 | In every reachable state the reboot annotation is an instant that has passed |
| Safety.MarkedByThen | main.go:88-91 | Over any stretch of any run in which the node does not go on from a drain to a new mark, every mark it carries is at most the time at which the stretch began |
| Safety.RebootEndsTheWait | kube.go:120-131 | A host that boots a second or more after its run went on from the drain to the mark passes the check when it has read its boot time |
| Recovery.RebootRecovers | kube.go:66-81 | From every reachable state one reboot of the host alone brings its process to idle, with the node unmarked, undrained and schedulable again, the reboot reported and the lock given back, and nobody else touched |
| Times.RebootDetection | proc/stat.go:15-30 | With the boot time in whole seconds, the check passes if and only if it was read and lies in a later second than the mark |
| Safety.DrainExclusive | kube.go:238-252 | A drained node holds the lock unless its last drain-and-reboot failed, so at most one node is drained without such a failure |
| History.FailedIff | main.go:85-126 | At every point of every run, a node counts as failed if and only if it took an error release with no drain since |
| History.DrainedUnlockedByError | main.go:85-126 | At every point of every run, a node drained without holding the lock took an error release since its last drain |
| Witnesses.DrainedHoldLockIff | main.go:85-101 | Every drained node holds the lock in all runs if and only if the tool does not both reboot and drain |
| Safety.UncordonsOnlyItsOwnDrains | kube/node.go:182-210 | Any change of schedulability by the tool happens under its drain annotation; making a node schedulable removes the annotation and settles exactly one drain |
| Safety.OwedIsDrained | kube.go:245-252 | In every reachable state, at every point of a node's commit history, the drains not yet undone number one if the annotation is present and zero otherwise |
| Safety.IdleIsClean | kube.go:66-81 | An idle process is not drained, not marked, and does not hold the lock unless abandoned updates can still commit |
| Witnesses.IdleNotHoldingIff | kube.go:160-173 | An idle process never holds the lock in all runs if and only if an errored update has been committed or never will be |
| Safety.ConditionsCoherent | kube.go:220-236 | No node reports up to date and reboot required at once unless its last report was not committed, with both reboot and drain on |
| History.MissedIff | kube.go:220-236 | At every point of every run, a report counts as missed if and only if the last report of that node was not committed |
| History.IncoherentByLostReport | kube.go:220-236 | A node whose two conditions contradict each other lost its last report, and the tool both reboots and drains |
| Witnesses.CoherentIff | kube.go:266-270 | The two conditions are coherent in all runs if and only if the tool does not both reboot and drain |
| Safety.Serialisable | kube/lock.go:153-177 | The DaemonSet is the commits replayed in order; others' fields are what the others alone produce, the lock is what the tool alone produces |
| Safety.NodesSerialisable | kube/node.go:85-163 | The same for a Node: others' part, the tool's two annotations, and each condition type by its own writer |
| DaemonSets.ReplaySplits | kube/lock.go:139-151 | Interleaved commits of tool and others lose no update of either |
| Nodes.NodeReplaySplits | kube/node.go:137-163 | The same for annotations, conditions and the rest of a Node |
| DaemonSets.ExcludesOthersIff | kube/lock.go:44-78 | After a set the lock is unavailable to another value if and only if the holder's value is non-empty and different |
| DaemonSets.DropEmptiesIff | kube/lock.go:82-91 | A clear leaves a nil annotation map if and only if the lock was the only annotation |
| Invariant.InvNext | main.go:60-137 | Every step of every process, host, editor and late request keeps the invariant |
| Conditions.GetAfterSetAll | kube/node.go:51-65 | After a batch a lookup gives the last entry of the batch for that type, otherwise the old condition |
| Conditions.SetAllAt | kube/node.go:40-49 | Old entries keep their index, and change only if they are the first of a type in the batch |
| Conditions.SetAllKeepsDistinct | kube/node.go:40-49 | Distinct types stay distinct |
| Conditions.SetAllIdempotent | kube/node.go:51-55 | Applying a batch twice is applying it once |
| Conditions.AfterReport | kube_conditions.go:15-62 | What a reader finds after a committed report, field by field in each case of upgrade error, reboot required and up to date: status, reason, message, heartbeat and transition of both conditions |
| Conditions.AfterReboot | kube_conditions.go:64-88 | What a reader finds after the two reports around a reboot: status, reason, message, heartbeat, and the reboot or boot time as transition |
| Conditions.RebootingCoherentIff | kube_conditions.go:64-75 | Marking a reboot keeps the conditions coherent if and only if the node does not still claim to be up to date |
| Times.WaitIs | kube.go:184-205 | After k failures the wait is min(2^k, 60) seconds, in nanoseconds |
| Times.TotalSleep | kube.go:184-205 | The total sleep after k failures in closed form |
| Times.OversleptBounded | kube.go:188-205 | Sleeps of the form that acquiring makes last past the deadline for at most a minute and 20 milliseconds |
| LockClient.Lock.Inspect | kube/lock.go:44-62 | The value, availability and ownership of the lock in an object |
| LockClient.Lock.Set | kube/lock.go:66-78 | Sets the lock if and only if it is available, otherwise reports the holder and changes nothing |
| LockClient.Lock.Clear | kube/lock.go:82-94 | Clears the lock if and only if it is its own, otherwise reports the holder and changes nothing |
| LockClient.Lock.TestEvent | kube/lock.go:179-190 | An event ends the wait if it is a change in which the lock is available; anything but a change is an error |
| LockClient.Lock.Until | kube/lock.go:201-219 | The timer is set once, to the timeout after the call, or not at all if that is not positive; the watch returns the first version after its start in which the lock is available; it ends without one only by that timer, by a failed call, or for good when nobody takes a step any more, and then no such version was delivered to it |
| LockClient.Lock.Wait | kube/lock.go:192-219 | No wake-up is lost, with a deadline or without: an available object is returned as it is; otherwise one watch is opened at its version, whose timer fires at the deadline if that is ahead and never otherwise, and the result is the first available version after it; an error means that the watch failed or ended, and was not sent such a version |
| LockClient.Lock.Modify | kube/lock.go:155-177 | A nil return means exactly one own commit, which is the latest; each conflict is an update that the server refused, paid for by a distinct commit of others, so K of them allow at most K+1 rounds, with one short pause between rounds; there is a round if and only if the deadline is ahead, no round begins after it, and it ends the call only after such rounds |
| LockClient.Lock.Acquire | kube/lock.go:229-239 | A nil return means that one commit took the lock, which was available in the version it replaced; an error is a failed call, a watch that ended without having been sent an available version, or the deadline after rounds in which the server refused the update; the watch has the timer of this context, and no read begins after the deadline |
| LockClient.Lock.Release | kube/lock.go:249-253 | A nil return means that one commit removed the lock, which in the version it replaced was the caller's own value, and nothing else; only recovery can find it broken, and then the lock is not its own any more |
| LockClient.Lock.Test | kube/lock.go:108-116 | The lock at the moment of the read |
| NodeClient.NodeObject.Put | kube/node.go:40-49 | The loop overwrites the first condition of the type or appends |
| NodeClient.NodeObject.PutAll | kube/node.go:51-55 | The loop applies the batch in order |
| NodeClient.NodeObject.Find | kube/node.go:57-65 | The loop returns the first condition of the type |
| NodeClient.Node.Update | kube/node.go:85-163 | A retried update ends with exactly one own commit on the latest version, or an error and at most one; it fails only for a failed call, or after the server refused every attempt, each after a commit by others to this Node, and then without a commit |
| NodeClient.Node.SetSchedulableIfAnnotated | kube/node.go:182-210 | (true, nil) means one commit removed the annotation and made the node schedulable; (false, nil) that it was absent at the last read and nothing was committed |
| KubeClient.Kube.ClearNodeReboot | kube.go:120-145 | Never passes on the boot that set the mark or without a node name; fails before the report only for a refused mark or a failed call, after it only when the mark cannot be removed, and never because of it; a mark is removed after the reboot was reported |
| KubeClient.Kube.FinishReboot | kube.go:132-144 | If the condition update fails it returns nil with the annotation as it was; otherwise the node says since when it has rebooted and the annotation is gone, or its removal failed, which is the only error |
| KubeClient.Kube.ClearNodeDrain | kube.go:148-158 | Leaves the node without the drain annotation |
| KubeClient.Kube.ClearLock | kube.go:161-173 | Leaves the process idle and clean; a broken lock means that the lock was lost to a release of its own, committed after the test |
| KubeClient.Kube.MakeKube | kube.go:66-81 | Recovery in order: rebooted, uncordoned, released; otherwise the process ends at the step that failed, for a cause of that step; a report of the reboot that failed is no cause, so an error after it needs a second one |
| KubeClient.Kube.AcquireLock | kube.go:176-206 | Every failed attempt is followed by one sleep, the k-th of Wait(k), with only short retries besides, and the server is never read twice without a sleep; every attempt has this context, its watch the timer of this context, and none begins after the deadline; all but one sleep of each kind begin before it; there is an attempt if and only if it was ahead at the start; a nil return leaves this process alone in charge |
| KubeClient.Kube.UpdateHostStatus | kube.go:220-236 | Both conditions carry every field of the report of this run, made during the call, unless a call failed or others committed to this Node in every attempt |
| KubeClient.Kube.DrainNode | kube.go:238-252 | The annotation is committed with its value before kubectl is called; nil means one call of kubectl that succeeded, DrainFailed one that failed, any other error none |
| KubeClient.Kube.MarkReboot | kube.go:254-271 | A nil return leaves the node marked with this reboot time and reported as rebooting since then; an error needs a failed call or conflicts in every attempt |
| World.Cluster.UpdateDaemonSet | kube/lock.go:139-151 | Accepted means the submitted object replaced the current version; conflict that somebody committed in between |
| World.Cluster.HostUpgrade | main.go:66-69 | A host upgrades only while its process holds the lock and no other process is critical, from the call to its end |
| Upgrades.Runner.UpgradeLocked | main.go:66-116 | The host is upgraded once and first; in drain mode it is asked to reboot only after kubectl drained the node and the node was marked with a time between the start and the end of this call, and just when the upgrade asked for it; each error is the recorded failure of that step |
| Upgrades.Runner.Run | main.go:60-144 | Every attempt to take the lock has the deadline of the run, and after that the run does nothing; a run that gets the lock upgrades the host exactly once and the Node carries that very result unless hindered; nil leaves the process idle, not drained and not holding the lock; a run that failed under the lock has given it back unless a call failed that is not the error itself; a shutdown timeout comes after one sleep of that length, in drain mode with the node marked during the run and the lock still held |
| Scheduling.NeverOverlap | scheduler.go:49-77 | In every history runs alternate strictly with their ends, each has a deadline exactly the window after its own trigger, or none without a window, and nothing follows a failed run |
| Scheduling.StartedOrSkipped | scheduler.go:79-86 | The triggers are exactly those that started a run and those that were skipped |
| Daemon.Process.Fire | scheduler.go:79-86 | A trigger is handed over if and only if the loop is waiting at the channel, and recorded as skipped otherwise |
| Daemon.Process.Receive | scheduler.go:49-81 | The start time of a run lies between the arrival of the loop at the channel and the moment it is received |
| Daemon.Process.Serve | scheduler.go:39-77 | The receive loop is one of the scheduler's histories: every trigger that fires is recorded, and started exactly one run or was skipped; the k-th run had its deadline the window after the k-th such trigger; each run without an error upgraded the host exactly once, between runs the process holds no lock and its node is neither drained nor marked, and a failed run ends the process |
| Daemon.Process.Execute | main.go:26-144 | Recovery and then scheduled runs, each with the deadline of its trigger, or a single one without deadline: nothing runs on a node whose marked reboot has not happened or without a node name, a process that ends or waits without an error leaves the node clean, and after an error it is gone |

## Left out

- Host probing, configuration files, upgrade scripts, systemd and kubectl: an upgrade returns any status or error,
  a drain may cordon and may then fail, a reboot request succeeds or fails.
- The API client library, JSON and the string forms of annotation keys, condition types and reasons: keys and types are
  distinct constants, instants are stored as numbers.
- The cron expression parser: triggers fire at arbitrary times. Restarts of the process are steps of the protocol, not a
  loop of `Daemon.dfy`.
- Pauses between the attempts of a Node update, and steps of two processes with the same name on one shared Node object:
  in the model every process has its own.
- Clock adjustments: one clock that never runs backwards stamps marks and boots.
- LockClient.Lock.Modify: terminates because interference and failures are finite; with endless conflicts the loop runs on.
- LockClient.Lock.Wait: a watch that nobody ever wakes ends in `Blocked`, where the code does not return; a deadline
  already passed when the watch starts means no timeout, as in the code.
- World.Cluster.UpdateNode: an update of a Node is never applied after its error was returned.
- KubeClient.Kube.UpdateHostStatus: the timestamps of one report are one reading of the clock.
- The restart loop of a node that cannot reboot, configurations without kube, log messages and flags.
