/** What every reachable state and every run of the cluster guarantees. */
module Safety {
  import opened Conditions
  import opened Annotations
  import opened DaemonSets
  import opened Nodes
  import opened Times
  import opened Protocol
  import opened Invariant

  // ---------------------------------------------------------------- the lock

  /** Only one host upgrades at a time, however gets, watch events, conflicts, errors, late
      commits, crashes and reboots interleave; and the lock annotation names that host. */
  lemma MutualExclusion(cfg: Config, s: State, i: nat, j: nat)
    requires ValidConfig(cfg) && Reachable(cfg, s)
    requires i < |s.members| && j < |s.members|
    requires Critical(s.members[i]) && Critical(s.members[j])
    ensures i == j && i < |cfg.names| && LockValue(s.ds) == cfg.names[i]
  {
    InvHolds(cfg, s);
    assert MemberOk(cfg, s, i) && MemberOk(cfg, s, j);
  }

  /** What a step does to the lock annotation. */
  lemma LockNext(cfg: Config, s: State, a: Action)
    requires Inv(cfg, s) && Enabled(cfg, s, a)
    ensures LockValue(Next(cfg, s, a).ds) ==
      if a.WriteLock? then (if a.mod.Take? then a.mod.value else "")
      else if a.LateCommit? then (if a.request.mod.Take? then a.request.mod.value else "")
      else LockValue(s.ds)
  {
    match a
    case LateCommit(r) =>
      assert RequestOk(cfg, s, r);
      LockAfter(s.ds, r.mod);
    case WriteLock(j, mod) => LockAfter(s.ds, mod);
    case Foreign(mod) => LockAfter(s.ds, mod);
    case _ =>
  }

  /** The step in which node i gives up the lock: its own release, or the late commit of a release it
      gave up on. */
  predicate Releases(cfg: Config, a: Action, i: nat)
    requires i < |cfg.names|
  {
    || a == WriteLock(i, Drop(cfg.names[i]))
    || (a.LateCommit? && a.request.owner == i && a.request.mod.Drop?)
  }

  /** Whoever holds the lock, and whatever its process is doing: the lock annotation changes exactly
      when the holder itself gives it up. No edit, crash, restart or other process changes it. */
  lemma HolderStability(cfg: Config, s: State, a: Action, i: nat)
    requires ValidConfig(cfg) && Reachable(cfg, s) && Enabled(cfg, s, a)
    requires i < |cfg.names| && cfg.names[i] != "" && LockValue(s.ds) == cfg.names[i]
    ensures LockValue(Next(cfg, s, a).ds) != cfg.names[i] <==> Releases(cfg, a, i)
    ensures LockValue(Next(cfg, s, a).ds) != cfg.names[i] ==> LockValue(Next(cfg, s, a).ds) == ""
  {
    InvHolds(cfg, s);
    LockNext(cfg, s, a);
    if a.LateCommit? {
      assert RequestOk(cfg, s, a.request);
      assert s.hist[a.request.version] == s.ds;
      SameName(cfg, a.request.owner, i);
    } else if a.WriteLock? {
      SameName(cfg, a.i, i);
    }
  }

  lemma SameName(cfg: Config, i: nat, j: nat)
    requires ValidConfig(cfg) && i < |cfg.names| && j < |cfg.names|
    ensures cfg.names[i] == cfg.names[j] != "" ==> i == j
  {
  }

  /** A run under the lock is safe even from the releases that were given up on. */
  lemma CriticalStability(cfg: Config, s: State, a: Action, i: nat)
    requires ValidConfig(cfg) && Reachable(cfg, s) && Enabled(cfg, s, a)
    requires i < |s.members| && i < |cfg.names| && Critical(s.members[i])
    ensures LockValue(Next(cfg, s, a).ds) != LockValue(s.ds) <==> a == WriteLock(i, Drop(cfg.names[i]))
  {
    InvHolds(cfg, s);
    assert MemberOk(cfg, s, i);
    HolderStability(cfg, s, a, i);
  }

  /** The release of a run that ended in an error, committed at once or late. */
  predicate AfterError(s: State, a: Action, i: nat)
    requires i < |s.members|
  {
    if a.LateCommit? then a.request.error else s.members[i].pc == Releasing(true)
  }

  /** Recovery uncordons before it releases: the lock is only ever given up for a node that is neither
      drained nor marked for a reboot it has not made, whatever failed before, except by the release of
      a run that ends in an error itself; and then its node is at most drained and marked by that very
      run, which counts as failed. */
  lemma ReleaseAfterRecovery(cfg: Config, s: State, a: Action, i: nat)
    requires ValidConfig(cfg) && Reachable(cfg, s) && Enabled(cfg, s, a)
    requires i < |s.members| && i < |cfg.names| && Releases(cfg, a, i)
    ensures !AfterError(s, a, i) ==> !Drained(s.members[i].node) && !Marked(s.members[i])
    ensures AfterError(s, a, i) && (Drained(s.members[i].node) || Marked(s.members[i])) ==> s.members[i].failed
  {
    InvHolds(cfg, s);
    assert MemberOk(cfg, s, i);
  }

  /** The lock annotation is free or the name of a configured process. */
  lemma LockIsKnown(cfg: Config, s: State)
    requires ValidConfig(cfg) && Reachable(cfg, s)
    ensures LockValue(s.ds) == "" || LockValue(s.ds) in cfg.names
  {
    ServerHolds(cfg, s);
  }

  /** A lock that was held earlier and is not any more was released meanwhile. */
  lemma LostSince(cfg: Config, before: State, s: State, name: string)
    requires ValidConfig(cfg) && Reachable(cfg, s) && before.hist <= s.hist && before.log <= s.log
    requires |before.hist| == |before.log| + 1 && before.hist[|before.log|] == before.ds
    requires LockValue(before.ds) == name != "" && LockValue(s.ds) != name
    ensures Dropped(s.log, |before.log|, |s.log|, name)
  {
    HistoryHolds(cfg, s);
    assert s.hist[|before.log|] == before.ds;
    LostByDrop(s.hist, s.log, |before.log|, |s.log|, name);
  }

  /** Over the whole commit history: a lock that one process took is taken by another only after a
      release of the first one's own value was committed in between. */
  lemma HandOver(cfg: Config, s: State, j: nat, k: nat)
    requires ValidConfig(cfg) && Reachable(cfg, s) && j < k < |s.log|
    requires s.log[j].Take? && s.log[k].Take? && s.log[k].value != s.log[j].value
    ensures Dropped(s.log, j + 1, k, s.log[j].value)
  {
    ServerHolds(cfg, s);
    assert s.hist[j + 1] == ApplyLock(s.hist[j], s.log[j]);
    assert Fits(s.hist[k], s.log[k]);
    if LockValue(s.hist[k]) != s.log[j].value {
      LostByDrop(s.hist, s.log, j + 1, k, s.log[j].value);
    }
  }

  /** The DaemonSet is the commits applied one after the other, and neither the tool nor the other
      writers lose an update to each other. */
  lemma Serialisable(cfg: Config, s: State)
    requires ValidConfig(cfg) && Reachable(cfg, s)
    ensures s.hist != [] && s.ds == Replay(s.hist[0], s.log)
    ensures Unlocked(s.ds) == Unlocked(Replay(s.hist[0], Select(s.log, false)))
    ensures LockValue(s.ds) == LockValue(Replay(s.hist[0], Select(s.log, true)))
  {
    InvHolds(cfg, s);
    SerialReplay(s.hist, s.log, |s.log|);
    assert s.log[..|s.log|] == s.log;
    ReplaySplits(s.hist[0], s.log);
  }

  lemma NodesSerialisable(cfg: Config, s: State, i: nat)
    requires ValidConfig(cfg) && Reachable(cfg, s) && i < |s.members|
    ensures var m := s.members[i];
            && m.hist != [] && m.node == NodeReplay(m.hist[0], m.log)
            && OthersPart(m.node) == OthersPart(NodeReplay(m.hist[0], NodeSelect(m.log, false)))
            && ToolValue(m.node, DrainKey) == ToolValue(NodeReplay(m.hist[0], NodeSelect(m.log, true)), DrainKey)
            && ToolValue(m.node, RebootKey) == ToolValue(NodeReplay(m.hist[0], NodeSelect(m.log, true)), RebootKey)
    ensures var m := s.members[i];
            forall kind ::
              Get(m.node.conditions, kind) ==
              Get(NodeReplay(m.hist[0], NodeSelect(m.log, IsToolKind(kind))).conditions, kind)
  {
    InvHolds(cfg, s);
    assert MemberOk(cfg, s, i);
    var m := s.members[i];
    NodeSerialReplay(m.hist, m.log, |m.log|);
    assert m.log[..|m.log|] == m.log;
    NodeReplaySplits(m.hist[0], m.log);
  }

  // ---------------------------------------------------------------- reboots

  /** A node that is marked for a reboot its host has not made holds the lock, unless its run ended
      in an error. */
  lemma MarkedHoldsLock(cfg: Config, s: State, i: nat)
    requires ValidConfig(cfg) && Reachable(cfg, s) && i < |s.members|
    requires Marked(s.members[i]) && !s.members[i].failed
    ensures i < |cfg.names| && LockValue(s.ds) == cfg.names[i]
  {
    InvHolds(cfg, s);
    assert MemberOk(cfg, s, i);
  }

  /** The check of a restarted process is sound and, with a second of slack, complete: it goes on
      with the mark present only if the host really booted after the mark, and it can go on when
      the boot time was read and is at least a second later. */
  lemma RebootCheck(cfg: Config, s: State, i: nat, to: Pc)
    requires ValidConfig(cfg) && Reachable(cfg, s) && i < |s.members| && i < |cfg.names|
    requires s.members[i].pc.CheckReboot? && RebootKey in s.members[i].node.annotations
    ensures CanMove(cfg, s, i, to) ==>
              && s.members[i].node.annotations[RebootKey].Stamp?
              && s.members[i].boot > s.members[i].node.annotations[RebootKey].time
    ensures s.members[i].node.annotations[RebootKey].Stamp?
         && s.members[i].bootSeen != ZERO_TIME
         && s.members[i].boot >= s.members[i].node.annotations[RebootKey].time + 1_000_000_000
         ==> CanMove(cfg, s, i, SetRebooted)
  {
    InvHolds(cfg, s);
    assert MemberOk(cfg, s, i);
    var m := s.members[i];
    var v := m.node.annotations[RebootKey];
    if v.Stamp? {
      RebootDetection(m.boot, v.time, true);
    }
  }

  /** No mark is ahead of the clock, and none is anything but an instant. */
  lemma MarkNotAhead(cfg: Config, s: State, i: nat)
    requires ValidConfig(cfg) && Reachable(cfg, s) && i < |s.members|
    requires RebootKey in s.members[i].node.annotations
    ensures s.members[i].node.annotations[RebootKey].Stamp?
    ensures s.members[i].node.annotations[RebootKey].time <= s.now
  {
    InvHolds(cfg, s);
    assert MemberOk(cfg, s, i);
  }

  /** The run of node i has drained the node, and goes on to mark it. */
  predicate GoesOnToMark(s: State, t: State, i: nat) {
    i < |s.members| && i < |t.members| && s.members[i].pc.Cordoning? && t.members[i].pc.Marking?
  }

  ghost predicate NoNewMark(run: seq<State>, a: nat, b: nat, i: nat)
    requires a <= b < |run|
  {
    forall k :: a <= k < b ==> !GoesOnToMark(run[k], run[k + 1], i)
  }

  lemma MarkByNext(cfg: Config, s: State, t: State, a: Action, i: nat, until: nat)
    requires Enabled(cfg, s, a) && t == Next(cfg, s, a) && i < |s.members| && i < |t.members|
    requires MarkBy(s.members[i], until) && !GoesOnToMark(s, t, i)
    ensures MarkBy(t.members[i], until)
  {
    if a.Admin? && a.i == i {
      AdminKeepsToolPart(s.members[i].node, a.change);
      assert RebootKey in t.members[i].node.annotations <==> RebootKey in s.members[i].node.annotations;
    }
  }

  /** Until a run next goes on from draining the node to marking it, no mark is later than this instant. */
  lemma {:induction false} MarkedByThen(cfg: Config, run: seq<State>, a: nat, b: nat, i: nat)
    requires ValidConfig(cfg) && IsRun(cfg, run) && a <= b < |run|
    requires i < |run[a].members| && i < |run[b].members| && NoNewMark(run, a, b, i)
    ensures MarkBy(run[b].members[i], run[a].now)
  {
    if a == b {
      InvRun(cfg, run, a);
      assert MemberOk(cfg, run[a], i);
    } else {
      var act := StepBefore(cfg, run, b, i);
      MarkedByThen(cfg, run, a, b - 1, i);
      assert !GoesOnToMark(run[b - 1], run[b - 1 + 1], i);
      MarkByNext(cfg, run[b - 1], run[b], act, i, run[a].now);
    }
  }

  /** Once the host has booted a second after its run went on to mark the node, and the restarted process
      has read its boot time, it passes the check: no reboot is waited for in vain. */
  lemma RebootEndsTheWait(cfg: Config, run: seq<State>, a: nat, b: nat, i: nat)
    requires ValidConfig(cfg) && IsRun(cfg, run) && a <= b < |run|
    requires i < |cfg.names| && i < |run[a].members| && i < |run[b].members| && NoNewMark(run, a, b, i)
    requires run[b].members[i].pc.CheckReboot? && run[b].members[i].bootSeen != ZERO_TIME
    requires run[b].members[i].boot >= run[a].now + 1_000_000_000
    ensures if cfg.names[i] == "" then RebootKey !in run[b].members[i].node.annotations
            else if RebootKey in run[b].members[i].node.annotations then CanMove(cfg, run[b], i, SetRebooted)
            else CanMove(cfg, run[b], i, ClearDrain)
  {
    MarkedByThen(cfg, run, a, b, i);
    InvRun(cfg, run, b);
    assert MemberOk(cfg, run[b], i);
    var m := run[b].members[i];
    if RebootKey in m.node.annotations {
      RebootDetection(m.boot, m.node.annotations[RebootKey].time, true);
    }
  }

  /** Every reboot the tool requested and the host has not made yet is covered by the lock. */
  ghost predicate HeldForReboot(cfg: Config, s: State) {
    forall i :: 0 <= i < |s.members| && i < |cfg.names| && s.members[i].issued ==> LockValue(s.ds) == cfg.names[i]
  }

  lemma DrainModeHoldsForReboot(cfg: Config, s: State)
    requires ValidConfig(cfg) && Reachable(cfg, s) && (cfg.reboot ==> cfg.drain)
    ensures HeldForReboot(cfg, s)
  {
    InvHolds(cfg, s);
    forall i | 0 <= i < |s.members| && i < |cfg.names| && s.members[i].issued
      ensures LockValue(s.ds) == cfg.names[i]
    {
      assert MemberOk(cfg, s, i);
    }
  }

  /** The process has marked its node, and is about to ask for the reboot, waits for it, or died. */
  predicate AwaitsBoot(m: Member) {
    m.pc.Rebooting? || m.pc.Waiting? || m.pc.Down? || m.pc.CheckReboot?
  }

  /** The run of node i gives up after an error. */
  ghost predicate ErrorStep(cfg: Config, s: State, t: State, i: nat) {
    Enabled(cfg, s, Move(i, Releasing(true))) && t == Next(cfg, s, Move(i, Releasing(true)))
  }

  /** `host.Reboot` returns an error. */
  ghost predicate RebootFails(cfg: Config, s: State, t: State, i: nat) {
    ErrorStep(cfg, s, t, i) && s.members[i].pc.Rebooting?
  }

  ghost predicate NoError(cfg: Config, run: seq<State>, a: nat, b: nat, i: nat)
    requires a <= b < |run|
  {
    forall k :: a <= k < b ==> !ErrorStep(cfg, run[k], run[k + 1], i)
  }

  ghost predicate NoRebootError(cfg: Config, run: seq<State>, a: nat, b: nat, i: nat)
    requires a <= b < |run|
  {
    forall k :: a <= k < b ==> !RebootFails(cfg, run[k], run[k + 1], i)
  }

  lemma MemberStep(cfg: Config, s: State, a: Action, i: nat)
    requires Inv(cfg, s) && Enabled(cfg, s, a) && i < |s.members|
    ensures |Next(cfg, s, a).members| == |s.members|
    ensures s.members[i].boot <= Next(cfg, s, a).members[i].boot
  {
    assert MemberOk(cfg, s, i);
  }

  /** Only a process that has seen a later boot removes or moves the mark; and only an error of the run
      sets `failed`. */
  lemma MarkStep(cfg: Config, s: State, a: Action, i: nat)
    requires Inv(cfg, s) && Enabled(cfg, s, a)
    requires i < |s.members| && Marked(s.members[i]) && |Next(cfg, s, a).members| == |s.members|
    ensures var m, n := s.members[i], Next(cfg, s, a).members[i];
            && ToolValue(n.node, RebootKey) == ToolValue(m.node, RebootKey)
            && (n.failed ==> m.failed || a == Move(i, Releasing(true)))
            && (AwaitsBoot(m) && a != Move(i, Releasing(true)) ==> AwaitsBoot(n))
            && (AwaitsBoot(m) && a == Move(i, Releasing(true)) ==> m.pc.Rebooting?)
  {
    assert MemberOk(cfg, s, i);
    if a.Admin? && a.i == i {
      AdminKeepsToolPart(s.members[i].node, a.change);
    }
  }

  lemma MarkNext(cfg: Config, s: State, t: State, a: Action, i: nat)
    requires Inv(cfg, s) && Enabled(cfg, s, a) && t == Next(cfg, s, a)
    requires i < |s.members| && |t.members| == |s.members| && Marked(s.members[i])
    ensures ToolValue(t.members[i].node, RebootKey) == ToolValue(s.members[i].node, RebootKey)
    ensures !s.members[i].failed && !ErrorStep(cfg, s, t, i) ==> !t.members[i].failed
    ensures !s.members[i].failed && AwaitsBoot(s.members[i]) && !RebootFails(cfg, s, t, i) ==>
              !t.members[i].failed && AwaitsBoot(t.members[i])
  {
    MarkStep(cfg, s, a, i);
    assert a == Move(i, Releasing(true)) ==> ErrorStep(cfg, s, t, i);
  }

  /** The node still carries the mark it had. */
  predicate StillMarked(m: Member, n: Member) {
    Marked(n) && ToolValue(n.node, RebootKey) == ToolValue(m.node, RebootKey)
  }

  /** Over any stretch of a run that ends with the host's boot time not past the mark, the mark stays. */
  lemma {:induction false} MarkPersists(cfg: Config, run: seq<State>, a: nat, b: nat, i: nat)
    requires ValidConfig(cfg) && IsRun(cfg, run) && a <= b < |run|
    requires i < |run[a].members| && i < |run[b].members| && Marked(run[a].members[i])
    requires BootTime(run[b].members[i].boot) <= run[a].members[i].node.annotations[RebootKey].time
    ensures StillMarked(run[a].members[i], run[b].members[i])
  {
    if a < b {
      var act := StepBefore(cfg, run, b, i);
      MarkPersists(cfg, run, a, b - 1, i);
      MarkNext(cfg, run[b - 1], run[b], act, i);
    }
  }

  lemma StepBefore(cfg: Config, run: seq<State>, b: nat, i: nat) returns (act: Action)
    requires ValidConfig(cfg) && IsRun(cfg, run) && 0 < b < |run| && i < |run[b].members|
    ensures Inv(cfg, run[b - 1]) && Enabled(cfg, run[b - 1], act) && run[b] == Next(cfg, run[b - 1], act)
    ensures |run[b - 1].members| == |run[b].members| && run[b - 1].members[i].boot <= run[b].members[i].boot
  {
    assert RunState(cfg, run, b);
    act :| Enabled(cfg, run[b - 1], act) && run[b] == Next(cfg, run[b - 1], act);
    InvRun(cfg, run, b - 1);
    InvRun(cfg, run, b);
    MemberStep(cfg, run[b - 1], act, i);
  }

  /** And the run of a marked node counts as failed only after an error step. */
  lemma {:induction false} FailsByError(cfg: Config, run: seq<State>, a: nat, b: nat, i: nat)
    requires ValidConfig(cfg) && IsRun(cfg, run) && a <= b < |run|
    requires i < |run[a].members| && i < |run[b].members| && Marked(run[a].members[i]) && !run[a].members[i].failed
    requires BootTime(run[b].members[i].boot) <= run[a].members[i].node.annotations[RebootKey].time
    ensures NoError(cfg, run, a, b, i) ==> !run[b].members[i].failed
    ensures NoRebootError(cfg, run, a, b, i) && AwaitsBoot(run[a].members[i]) ==>
              !run[b].members[i].failed && AwaitsBoot(run[b].members[i])
  {
    if a < b {
      var act := StepBefore(cfg, run, b, i);
      FailsByError(cfg, run, a, b - 1, i);
      MarkPersists(cfg, run, a, b - 1, i);
      MarkNext(cfg, run[b - 1], run[b], act, i);
      assert run[b] == run[b - 1 + 1];
    }
  }

  /** A mark is covered by the lock for as long as the host has not booted past it and the run has not
      ended in an error. */
  lemma LockHeldWhileMarked(cfg: Config, run: seq<State>, a: nat, b: nat, i: nat)
    requires ValidConfig(cfg) && IsRun(cfg, run) && a <= b < |run|
    requires i < |run[a].members| && i < |run[b].members| && i < |cfg.names|
    requires Marked(run[a].members[i]) && !run[a].members[i].failed && NoError(cfg, run, a, b, i)
    requires BootTime(run[b].members[i].boot) <= run[a].members[i].node.annotations[RebootKey].time
    ensures StillMarked(run[a].members[i], run[b].members[i]) && LockValue(run[b].ds) == cfg.names[i]
  {
    MarkPersists(cfg, run, a, b, i);
    FailsByError(cfg, run, a, b, i);
    InvRun(cfg, run, b);
    assert MemberOk(cfg, run[b], i);
  }

  /** `MarkReboot` has succeeded, or the shutdown was requested, and the host has not booted since. */
  predicate RebootPending(cfg: Config, m: Member) {
    cfg.drain && (m.pc.Rebooting? || m.issued)
  }

  lemma PendingIsMarked(cfg: Config, s: State, i: nat)
    requires Inv(cfg, s) && i < |s.members| && i < |cfg.names| && RebootPending(cfg, s.members[i])
    ensures Marked(s.members[i]) && !s.members[i].failed && AwaitsBoot(s.members[i])
  {
    assert MemberOk(cfg, s, i);
  }

  /** With `--reboot --drain`: from the success of `MarkReboot` on, unless `host.Reboot` returns an
      error, the lock and the mark stay with the node through crashes, restarts, the expiry of the
      reboot timeout and boots within the same second, until the boot time of the host is past the
      mark. */
  lemma LockHeldAcrossReboot(cfg: Config, run: seq<State>, a: nat, b: nat, i: nat)
    requires ValidConfig(cfg) && IsRun(cfg, run) && a <= b < |run|
    requires i < |run[a].members| && i < |run[b].members| && i < |cfg.names|
    requires RebootPending(cfg, run[a].members[i]) && NoRebootError(cfg, run, a, b, i)
    ensures Marked(run[a].members[i])
    ensures BootTime(run[b].members[i].boot) <= run[a].members[i].node.annotations[RebootKey].time ==>
              StillMarked(run[a].members[i], run[b].members[i]) && LockValue(run[b].ds) == cfg.names[i]
  {
    InvRun(cfg, run, a);
    PendingIsMarked(cfg, run[a], i);
    if BootTime(run[b].members[i].boot) <= run[a].members[i].node.annotations[RebootKey].time {
      MarkPersists(cfg, run, a, b, i);
      FailsByError(cfg, run, a, b, i);
      InvRun(cfg, run, b);
      assert MemberOk(cfg, run[b], i);
    }
  }

  // ---------------------------------------------------------------- draining

  /** A drained node holds the lock, or its last drain-and-reboot ended in an error; so at most one
      node is drained without such an error. */
  lemma DrainExclusive(cfg: Config, s: State, i: nat, j: nat)
    requires ValidConfig(cfg) && Reachable(cfg, s) && i < |s.members| && j < |s.members|
    requires Drained(s.members[i].node) && !s.members[i].failed
    ensures i < |cfg.names| && LockValue(s.ds) == cfg.names[i]
    ensures Drained(s.members[j].node) && !s.members[j].failed ==> i == j
  {
    InvHolds(cfg, s);
    assert MemberOk(cfg, s, i) && MemberOk(cfg, s, j);
  }

  lemma DrainedStep(n: Node, mod: NodeMod)
    requires OwnKey(mod)
    ensures Drained(ApplyNode(n, mod)) ==
      if mod.SetAnnotation? && mod.key == DrainKey then true else if mod.Uncordon? then false else Drained(n)
  {
  }

  lemma {:induction false} OwedInLog(m: Member, k: nat)
    requires NodeSerial(m.hist, m.log) && OwnKeys(m.log) && Balanced(m.log)
    requires k <= |m.log| && !Drained(m.hist[0])
    ensures Owed(m.log[..k]) == if Drained(m.hist[k]) then 1 else 0
  {
    if k > 0 {
      var mod := m.log[k - 1];
      OwedInLog(m, k - 1);
      assert m.log[..k] == m.log[..k - 1] + [mod];
      OwedAppend(m.log[..k - 1], mod);
      assert 0 <= Owed(m.log[..k]) <= 1;
      assert m.hist[k - 1 + 1] == ApplyNode(m.hist[k - 1], mod);
      DrainedStep(m.hist[k - 1], mod);
    }
  }

  /** In every run, at every point of the commit history of a node: the drains not yet undone are 1
      exactly when the node carries the drain annotation at that point, and 0 otherwise. */
  lemma OwedIsDrained(cfg: Config, s: State, i: nat, k: nat)
    requires ValidConfig(cfg) && Reachable(cfg, s) && i < |s.members| && k <= |s.members[i].log|
    ensures |s.members[i].hist| == |s.members[i].log| + 1
    ensures Owed(s.members[i].log[..k]) == if Drained(s.members[i].hist[k]) then 1 else 0
  {
    InvHolds(cfg, s);
    assert MemberOk(cfg, s, i);
    OwedInLog(s.members[i], k);
  }

  /** The tool makes a node schedulable only in a commit that also removes its own drain annotation,
      matched by an earlier drain not matched before; and it cordons only under the annotation. */
  lemma UncordonsOnlyItsOwnDrains(cfg: Config, s: State, i: nat, k: nat)
    requires ValidConfig(cfg) && Reachable(cfg, s) && i < |s.members|
    requires k < |s.members[i].log| && k + 1 < |s.members[i].hist|
    requires ToolMod(s.members[i].log[k])
    requires s.members[i].hist[k].unschedulable != s.members[i].hist[k + 1].unschedulable
    ensures var m := s.members[i];
            && Drained(m.hist[k]) && Owed(m.log[..k]) == 1
            && (m.hist[k].unschedulable ==> !Drained(m.hist[k + 1]) && Owed(m.log[..k + 1]) == 0)
            && (m.hist[k + 1].unschedulable ==> Drained(m.hist[k + 1]))
  {
    InvHolds(cfg, s);
    assert MemberOk(cfg, s, i);
    var m := s.members[i];
    OwedIsDrained(cfg, s, i, k);
    OwedIsDrained(cfg, s, i, k + 1);
    assert m.hist[k + 1] == ApplyNode(m.hist[k], m.log[k]);
    assert OwnKey(m.log[k]);
  }

  // ---------------------------------------------------------------- idle processes

  /** An idle process is not drained; and it does not hold the lock, unless updates that were given
      up on can still commit. */
  lemma IdleIsClean(cfg: Config, s: State, i: nat)
    requires ValidConfig(cfg) && Reachable(cfg, s) && i < |s.members| && i < |cfg.names|
    requires s.members[i].pc.Idle?
    ensures !Drained(s.members[i].node) && !Marked(s.members[i])
    ensures !cfg.late ==> LockValue(s.ds) != cfg.names[i]
  {
    InvHolds(cfg, s);
    assert MemberOk(cfg, s, i);
  }

  // ---------------------------------------------------------------- conditions

  /** No node claims to be up to date and to need a reboot at once, unless its last finished
      report was not committed and the tool both drains and reboots. */
  lemma ConditionsCoherent(cfg: Config, s: State, i: nat)
    requires ValidConfig(cfg) && Reachable(cfg, s) && i < |s.members|
    requires !s.members[i].missed || !cfg.reboot || !cfg.drain
    ensures Coherent(s.members[i].node.conditions)
  {
    InvHolds(cfg, s);
    assert MemberOk(cfg, s, i);
  }
}
