/** Runs that show where the guarantees end, and with them the exact conditions under which each
    guarantee holds in every run. */
module Witnesses {
  import opened Wrappers
  import opened Conditions
  import opened Annotations
  import opened DaemonSets
  import opened Nodes
  import opened Times
  import opened Protocol
  import opened Invariant
  import opened Safety

  function FreshNode(): Node {
    Node(map[], false, [], 0)
  }

  function Fresh(cfg: Config): State {
    var ds := DaemonSet(map[OtherKey("owner") := "ops"], 0);
    State(0, ds, [ds], [], {}, seq(|cfg.names|, _ =>
      Member(Down, false, 0, 0, false, FreshNode(), [FreshNode()], [], false, false)))
  }

  lemma FreshReachable(cfg: Config)
    ensures Reachable(cfg, Fresh(cfg))
  {
    var s := Fresh(cfg);
    assert OtherKey("owner") in s.ds.annotations.Keys - {LockKey};
    assert LockValue(s.ds) == "";
    assert Init(cfg, s);
    ReachInit(cfg, s);
  }

  /** What a step of a process or host leaves alone: the DaemonSet, the clock and the abandoned
      requests. */
  ghost predicate Same(s: State, t: State) {
    t.now == s.now && t.ds == s.ds && t.hist == s.hist && t.late == s.late && |t.members| == |s.members|
  }

  ghost predicate Others(s: State, t: State, i: nat) {
    |t.members| == |s.members| && forall k :: 0 <= k < |s.members| && k != i ==> t.members[k] == s.members[k]
  }

  lemma DoMove(cfg: Config, s: State, i: nat, to: Pc) returns (t: State)
    requires Reachable(cfg, s) && i < |s.members| && i < |cfg.names| && CanMove(cfg, s, i, to)
    ensures Reachable(cfg, t) && Same(s, t) && t.members[i] == Moved(s.members[i], to) && Others(s, t, i)
  {
    ReachNext(cfg, s, Move(i, to));
    t := Next(cfg, s, Move(i, to));
  }

  lemma DoNode(cfg: Config, s: State, i: nat, mod: NodeMod) returns (t: State)
    requires Reachable(cfg, s) && i < |s.members| && MayWriteNode(s.members[i], mod)
    ensures Reachable(cfg, t) && Same(s, t) && t.members[i] == Wrote(s.members[i], mod)
  {
    ReachNext(cfg, s, WriteNode(i, mod));
    t := Next(cfg, s, WriteNode(i, mod));
  }

  lemma DoLock(cfg: Config, s: State, i: nat, mod: LockMod) returns (t: State)
    requires Reachable(cfg, s) && i < |s.members| && i < |cfg.names|
    requires MayWriteLock(cfg.names[i], s.members[i].pc, s.ds, mod)
    ensures Reachable(cfg, t) && |t.members| == |s.members| && t.members[i] == s.members[i].(wrote := true)
    ensures Others(s, t, i)
    ensures t.now == s.now && LockValue(t.ds) == if mod.Take? then cfg.names[i] else ""
  {
    ReachNext(cfg, s, WriteLock(i, mod));
    t := Next(cfg, s, WriteLock(i, mod));
    LockAfter(s.ds, mod);
  }

  lemma DoCrash(cfg: Config, s: State, i: nat) returns (t: State)
    requires Reachable(cfg, s) && i < |s.members|
    ensures Reachable(cfg, t) && Same(s, t) && t.members[i] == s.members[i].(pc := Down, wrote := false)
  {
    ReachNext(cfg, s, Crash(i));
    t := Next(cfg, s, Crash(i));
  }

  lemma DoStart(cfg: Config, s: State, i: nat) returns (t: State)
    requires Reachable(cfg, s) && i < |s.members| && s.members[i].pc.Down?
    ensures Reachable(cfg, t) && Same(s, t) && Others(s, t, i)
    ensures t.members[i] == s.members[i].(pc := CheckReboot, wrote := false, bootSeen := BootTime(s.members[i].boot))
  {
    ReachNext(cfg, s, Start(i, true));
    t := Next(cfg, s, Start(i, true));
  }

  /** A process starts on a clean node and gets as far as testing the lock. */
  lemma ToTest(cfg: Config, s: State, i: nat) returns (t: State)
    requires Reachable(cfg, s) && i < |s.members| && i < |cfg.names|
    requires s.members[i].pc.Down? && RebootKey !in s.members[i].node.annotations && !Drained(s.members[i].node)
    requires cfg.names[i] != ""
    ensures Reachable(cfg, t) && Same(s, t) && Others(s, t, i)
    ensures t.members[i] == s.members[i].(pc := TestLock, wrote := false, bootSeen := BootTime(s.members[i].boot))
  {
    t := DoStart(cfg, s, i);
    t := DoMove(cfg, t, i, ClearDrain);
    t := DoMove(cfg, t, i, TestLock);
  }

  /** A process starts on a clean node that does not hold the lock, and becomes idle. */
  lemma Boot(cfg: Config, s: State, i: nat) returns (t: State)
    requires Reachable(cfg, s) && i < |s.members| && i < |cfg.names|
    requires s.members[i].pc.Down? && RebootKey !in s.members[i].node.annotations && !Drained(s.members[i].node)
    requires cfg.names[i] != ""
    requires LockValue(s.ds) != cfg.names[i]
    ensures Reachable(cfg, t) && Same(s, t) && Others(s, t, i)
    ensures t.members[i] == s.members[i].(pc := Idle, wrote := false, bootSeen := BootTime(s.members[i].boot))
  {
    t := ToTest(cfg, s, i);
    t := DoMove(cfg, t, i, Idle);
  }

  /** An idle process takes the lock, upgrades and reaches the report of its status. */
  lemma Upgrade(cfg: Config, s: State, i: nat, status: HostStatus) returns (t: State)
    requires Reachable(cfg, s) && i < |s.members| && i < |cfg.names|
    requires s.members[i].pc.Idle? && Available(s.ds, cfg.names[i])
    ensures Reachable(cfg, t) && |t.members| == |s.members| && LockValue(t.ds) == cfg.names[i]
    ensures Others(s, t, i)
    ensures t.members[i] == s.members[i].(pc := Reporting(status, None), wrote := false)
  {
    t := DoMove(cfg, s, i, Acquiring);
    t := DoLock(cfg, t, i, Take(cfg.names[i]));
    t := DoMove(cfg, t, i, Upgrading);
    t := DoMove(cfg, t, i, Reporting(status, None));
  }

  /** A process of a new cluster has become idle. */
  lemma Begin(cfg: Config, i: nat) returns (s: State)
    requires ValidConfig(cfg) && i < |cfg.names| && cfg.names[i] != ""
    ensures Reachable(cfg, s) && |s.members| == |cfg.names| && |s.hist| == 1
    ensures LockValue(s.ds) == ""
    ensures s.members[i].pc.Idle? && !s.members[i].issued
    ensures s.members[i].node == FreshNode()
  {
    FreshReachable(cfg);
    s := Boot(cfg, Fresh(cfg), i);
  }

  const REQUIRED := HostStatus(true, 0, "", "")
  const UP_TO_DATE := HostStatus(false, 0, "", "")

  // ---------------------------------------------------------------- node names

  ghost predicate Exclusive(s: State) {
    forall i, j :: 0 <= i < |s.members| && 0 <= j < |s.members| && Critical(s.members[i]) && Critical(s.members[j]) ==>
      i == j
  }

  /** Two processes with the same name upgrade at once; neither has written its Node by then. */
  lemma TwoUpgrades(cfg: Config, i: nat, j: nat) returns (s: State)
    requires i < |cfg.names| && j < |cfg.names| && i != j
    requires cfg.names[i] == cfg.names[j] != ""
    ensures Reachable(cfg, s) && !Exclusive(s)
  {
    s := TwoIdle(cfg, i, j);
    s := Upgrade(cfg, s, i, UP_TO_DATE);
    assert s.members[i].pc.Reporting?;
    s := Upgrade(cfg, s, j, UP_TO_DATE);
    assert Critical(s.members[i]) && Critical(s.members[j]);
  }

  lemma TwoIdle(cfg: Config, i: nat, j: nat) returns (s: State)
    requires i < |cfg.names| && j < |cfg.names| && i != j
    requires cfg.names[i] == cfg.names[j] != ""
    ensures Reachable(cfg, s) && |s.members| == |cfg.names| && LockValue(s.ds) == ""
    ensures s.members[i].pc.Idle? && s.members[j].pc.Idle?
  {
    FreshReachable(cfg);
    s := Boot(cfg, Fresh(cfg), i);
    s := Boot(cfg, s, j);
  }

  /** "Only one host upgrades at a time" holds in every run exactly when no two processes share a node
      name. Processes without a name do no harm: they never get to the lock. */
  lemma MutualExclusionIff(cfg: Config)
    ensures (forall s :: Reachable(cfg, s) ==> Exclusive(s)) <==> ValidConfig(cfg)
  {
    if ValidConfig(cfg) {
      forall s | Reachable(cfg, s) ensures Exclusive(s) {
        forall i, j | 0 <= i < |s.members| && 0 <= j < |s.members| && Critical(s.members[i]) && Critical(s.members[j])
          ensures i == j
        {
          MutualExclusion(cfg, s, i, j);
        }
      }
    } else {
      var i, j :| 0 <= i < j < |cfg.names| && cfg.names[i] == cfg.names[j] != "";
      var s := TwoUpgrades(cfg, i, j);
    }
  }

  /** Some process has a node name, so something can happen at all. */
  ghost predicate Deployed(cfg: Config) {
    exists i :: 0 <= i < |cfg.names| && cfg.names[i] != ""
  }

  // ---------------------------------------------------------------- reboot without drain

  lemma RestartAndRelease(cfg: Config, s: State, i: nat) returns (t: State)
    requires i < |s.members| && i < |cfg.names| && Reachable(cfg, s) && LockValue(s.ds) == cfg.names[i]
    requires cfg.names[i] != "" && s.members[i].pc.Down?
    requires RebootKey !in s.members[i].node.annotations && !Drained(s.members[i].node)
    ensures Reachable(cfg, t) && |t.members| == |s.members| && LockValue(t.ds) == ""
    ensures t.members[i].issued == s.members[i].issued
  {
    t := ToTest(cfg, s, i);
    t := DoMove(cfg, t, i, ClearLock);
    t := DoLock(cfg, t, i, Drop(cfg.names[i]));
  }

  lemma RequestReboot(cfg: Config, s: State, i: nat) returns (t: State)
    requires i < |s.members| && i < |cfg.names| && Reachable(cfg, s) && cfg.reboot && !cfg.drain
    requires s.members[i].pc == Reporting(REQUIRED, None)
    ensures Reachable(cfg, t) && Same(s, t)
    ensures t.members[i].pc == Waiting && t.members[i].issued && t.members[i].node == s.members[i].node
  {
    t := DoMove(cfg, s, i, Pc.Rebooting);
    t := DoMove(cfg, t, i, Waiting);
  }

  /** Without `--drain` no mark is left behind, so a process restarted before the shutdown takes
      effect releases the lock, and the reboot happens unlocked. */
  lemma UnlockedReboot(cfg: Config, i: nat) returns (s: State)
    requires ValidConfig(cfg) && i < |cfg.names| && cfg.names[i] != "" && cfg.reboot && !cfg.drain
    ensures Reachable(cfg, s) && !HeldForReboot(cfg, s)
  {
    var name := cfg.names[i];
    s := Begin(cfg, i);
    s := Upgrade(cfg, s, i, REQUIRED);
    s := RequestReboot(cfg, s, i);
    s := DoCrash(cfg, s, i);
    assert name != "";
    s := RestartAndRelease(cfg, s, i);
    assert s.members[i].issued && LockValue(s.ds) == "";
  }

  /** "This lock is also held during a reboot" holds in every run exactly when the tool reboots
      only with draining. */
  lemma LockHeldForRebootIff(cfg: Config)
    requires ValidConfig(cfg) && Deployed(cfg)
    ensures (forall s :: Reachable(cfg, s) ==> HeldForReboot(cfg, s)) <==> (cfg.reboot ==> cfg.drain)
  {
    if cfg.reboot ==> cfg.drain {
      forall s | Reachable(cfg, s) ensures HeldForReboot(cfg, s) {
        DrainModeHoldsForReboot(cfg, s);
      }
    } else {
      var i :| 0 <= i < |cfg.names| && cfg.names[i] != "";
      var s := UnlockedReboot(cfg, i);
    }
  }

  // ---------------------------------------------------------------- error releases

  /** A run whose report is lost goes on to annotate the node for the drain. */
  lemma Drain(cfg: Config, s: State, i: nat) returns (t: State)
    requires i < |s.members| && i < |cfg.names| && Reachable(cfg, s) && cfg.reboot && cfg.drain
    requires s.members[i].pc == Reporting(REQUIRED, None)
    ensures Reachable(cfg, t) && Same(s, t)
    ensures t.members[i].pc == Cordoning && !t.members[i].wrote
    ensures t.members[i].node == ApplyNode(s.members[i].node, SetAnnotation(DrainKey, Flag))
  {
    t := DoMove(cfg, s, i, Draining);
    t := DoNode(cfg, t, i, SetAnnotation(DrainKey, Flag));
    t := DoMove(cfg, t, i, Cordoning);
  }

  ghost predicate DrainedHoldLock(cfg: Config, s: State) {
    forall i :: 0 <= i < |s.members| && i < |cfg.names| && Drained(s.members[i].node) ==>
      LockValue(s.ds) == cfg.names[i]
  }

  /** A drain that fails releases the lock and leaves the node drained. */
  lemma DrainedUnlocked(cfg: Config, i: nat) returns (s: State)
    requires ValidConfig(cfg) && i < |cfg.names| && cfg.names[i] != "" && cfg.reboot && cfg.drain
    ensures Reachable(cfg, s) && !DrainedHoldLock(cfg, s)
  {
    var name := cfg.names[i];
    s := Begin(cfg, i);
    s := Upgrade(cfg, s, i, REQUIRED);
    s := Drain(cfg, s, i);
    s := DoMove(cfg, s, i, Releasing(true));
    s := DoLock(cfg, s, i, Drop(name));
    assert Drained(s.members[i].node) && LockValue(s.ds) == "";
  }

  lemma NeverDrained(cfg: Config, s: State, i: nat)
    requires ValidConfig(cfg) && Reachable(cfg, s) && !(cfg.reboot && cfg.drain) && i < |s.members|
    ensures !Drained(s.members[i].node)
  {
    InvHolds(cfg, s);
    assert MemberOk(cfg, s, i);
  }

  /** Every drained node holds the lock in every run exactly when the tool never drains: with
      `--reboot --drain` the error releases are the exception that DrainExclusive tracks. */
  lemma DrainedHoldLockIff(cfg: Config)
    requires ValidConfig(cfg) && Deployed(cfg)
    ensures (forall s :: Reachable(cfg, s) ==> DrainedHoldLock(cfg, s)) <==> !(cfg.reboot && cfg.drain)
  {
    if cfg.reboot && cfg.drain {
      var i :| 0 <= i < |cfg.names| && cfg.names[i] != "";
      var s := DrainedUnlocked(cfg, i);
    } else {
      forall s | Reachable(cfg, s) ensures DrainedHoldLock(cfg, s) {
        forall i | 0 <= i < |s.members| ensures !Drained(s.members[i].node) {
          NeverDrained(cfg, s, i);
        }
      }
    }
  }

  // ---------------------------------------------------------------- late commits

  ghost predicate IdleNotHolding(cfg: Config, s: State) {
    forall i :: 0 <= i < |s.members| && i < |cfg.names| && s.members[i].pc.Idle? ==> LockValue(s.ds) != cfg.names[i]
  }

  /** A process gives up on its acquisition, which the server has not seen yet. */
  lemma AbandonAcquisition(cfg: Config, i: nat) returns (s: State, r: Request)
    requires ValidConfig(cfg) && i < |cfg.names| && cfg.names[i] != "" && cfg.late
    ensures Reachable(cfg, s) && |s.members| == |cfg.names| && LockValue(s.ds) == ""
    ensures s.members[i].pc.Acquiring? && s.members[i].node == FreshNode()
    ensures r == Request(i, 0, Take(cfg.names[i]), false) && r in s.late && |s.hist| == 1
  {
    s := Begin(cfg, i);
    s := DoMove(cfg, s, i, Acquiring);
    s, r := DoAbandon(cfg, s, i);
  }

  lemma DoAbandon(cfg: Config, s: State, i: nat) returns (t: State, r: Request)
    requires ValidConfig(cfg) && i < |cfg.names| && cfg.names[i] != "" && cfg.late && i < |s.members|
    requires Reachable(cfg, s) && |s.hist| == 1 && s.members[i].pc.Acquiring? && LockValue(s.ds) == ""
    ensures Reachable(cfg, t) && Same(s.(late := t.late), t) && t.members[i] == s.members[i]
    ensures r == Request(i, 0, Take(cfg.names[i]), false) && r in t.late
  {
    ShapeOf(cfg, s);
    r := Request(i, 0, Take(cfg.names[i]), false);
    ReachNext(cfg, s, Abandon(i, 0, r.mod));
    t := Next(cfg, s, Abandon(i, 0, r.mod));
  }

  lemma ShapeOf(cfg: Config, s: State)
    requires ValidConfig(cfg) && Reachable(cfg, s)
    ensures s.hist != [] && s.hist[|s.hist| - 1] == s.ds
  {
    InvHolds(cfg, s);
  }

  /** An acquisition the process crashed on commits after the restarted process went idle. */
  lemma LateAcquisition(cfg: Config, i: nat) returns (s: State)
    requires ValidConfig(cfg) && i < |cfg.names| && cfg.names[i] != "" && cfg.late
    ensures Reachable(cfg, s) && !IdleNotHolding(cfg, s)
  {
    var before, r := AbandonAcquisition(cfg, i);
    before := DoCrash(cfg, before, i);
    before := Boot(cfg, before, i);
    ReachNext(cfg, before, LateCommit(r));
    s := Next(cfg, before, LateCommit(r));
    LockAfter(before.ds, r.mod);
    assert s.members[i].pc.Idle? && LockValue(s.ds) == cfg.names[i];
  }

  /** An idle process never holds the lock, in every run, exactly when an update that returned an
      error has already been committed or never will be. */
  lemma IdleNotHoldingIff(cfg: Config)
    requires ValidConfig(cfg) && Deployed(cfg)
    ensures (forall s :: Reachable(cfg, s) ==> IdleNotHolding(cfg, s)) <==> !cfg.late
  {
    if cfg.late {
      var i :| 0 <= i < |cfg.names| && cfg.names[i] != "";
      var s := LateAcquisition(cfg, i);
    } else {
      forall s | Reachable(cfg, s) ensures IdleNotHolding(cfg, s) {
        forall i | 0 <= i < |s.members| && i < |cfg.names| && s.members[i].pc.Idle?
          ensures LockValue(s.ds) != cfg.names[i]
        {
          IdleIsClean(cfg, s, i);
        }
      }
    }
  }

  // ---------------------------------------------------------------- conditions

  ghost predicate AllCoherent(s: State) {
    forall i :: 0 <= i < |s.members| ==> Coherent(s.members[i].node.conditions)
  }

  /** A first run reports the node up to date; the next one needs a reboot but its report is lost,
      which is only logged, and then marks the reboot. */
  lemma IncoherentNode(cfg: Config, i: nat) returns (s: State)
    requires ValidConfig(cfg) && i < |cfg.names| && cfg.names[i] != "" && cfg.reboot && cfg.drain
    ensures Reachable(cfg, s) && !AllCoherent(s)
  {
    s := ReportUpToDate(cfg, i);
    s := FinishRun(cfg, s, i);
    s := Upgrade(cfg, s, i, REQUIRED);
    s := Drain(cfg, s, i);
    s := MarkForReboot(cfg, s, i);
    assert !Coherent(s.members[i].node.conditions);
  }

  lemma ReportUpToDate(cfg: Config, i: nat) returns (s: State)
    requires ValidConfig(cfg) && i < |cfg.names| && cfg.names[i] != ""
    ensures Reachable(cfg, s) && |s.members| == |cfg.names| && LockValue(s.ds) == cfg.names[i]
    ensures s.members[i].pc == Reporting(UP_TO_DATE, None)
    ensures StatusOf(s.members[i].node.conditions, HostUpgrades) == Some(True)
  {
    s := Begin(cfg, i);
    s := Upgrade(cfg, s, i, UP_TO_DATE);
    var seen, before := s.members[i].bootSeen, s.members[i].node.conditions;
    s := DoReport(cfg, s, i, Report(seen, UP_TO_DATE, None, 0));
    AfterReport(before, seen, UP_TO_DATE, None, 0);
  }

  lemma FinishRun(cfg: Config, s: State, i: nat) returns (t: State)
    requires i < |s.members| && i < |cfg.names| && Reachable(cfg, s) && LockValue(s.ds) == cfg.names[i]
    requires s.members[i].pc == Reporting(UP_TO_DATE, None)
    ensures Reachable(cfg, t) && |t.members| == |s.members| && LockValue(t.ds) == ""
    ensures t.members[i].pc.Idle? && t.members[i].node == s.members[i].node
  {
    t := DoMove(cfg, s, i, Releasing(false));
    t := DoLock(cfg, t, i, Drop(cfg.names[i]));
    t := DoMove(cfg, t, i, Idle);
  }

  lemma MarkForReboot(cfg: Config, s: State, i: nat) returns (t: State)
    requires i < |s.members| && i < |cfg.names| && Reachable(cfg, s) && s.members[i].pc == Cordoning
    requires StatusOf(s.members[i].node.conditions, HostUpgrades) == Some(True)
    ensures Reachable(cfg, t) && |t.members| == |s.members| && !Coherent(t.members[i].node.conditions)
  {
    var at := s.now;
    t := DoMove(cfg, s, i, Marking(at));
    t := DoNode(cfg, t, i, SetAnnotation(RebootKey, Stamp(at)));
    t := DoMove(cfg, t, i, MarkCondition(at));
    t := DoReport(cfg, t, i, [MakeRebootConditionRebooting(at, 0)]);
    RebootingCoherentIff(s.members[i].node.conditions, at, 0);
  }

  lemma DoReport(cfg: Config, s: State, i: nat, batch: seq<Condition>) returns (t: State)
    requires i < |s.members| && Reachable(cfg, s) && MayWriteNode(s.members[i], SetConditions(batch))
    ensures Reachable(cfg, t) && Same(s, t) && t.members[i].pc == s.members[i].pc
    ensures t.members[i].node.conditions == SetAll(s.members[i].node.conditions, batch)
  {
    t := DoNode(cfg, s, i, SetConditions(batch));
  }

  /** The two conditions are coherent in every run exactly when the tool does not both reboot and
      drain; when it does, ConditionsCoherent says which lost report is to blame. */
  lemma CoherentIff(cfg: Config)
    requires ValidConfig(cfg) && Deployed(cfg)
    ensures (forall s :: Reachable(cfg, s) ==> AllCoherent(s)) <==> !(cfg.reboot && cfg.drain)
  {
    if cfg.reboot && cfg.drain {
      var i :| 0 <= i < |cfg.names| && cfg.names[i] != "";
      var s := IncoherentNode(cfg, i);
    } else {
      forall s | Reachable(cfg, s) ensures AllCoherent(s) {
        forall i | 0 <= i < |s.members| ensures Coherent(s.members[i].node.conditions) {
          ConditionsCoherent(cfg, s, i);
        }
      }
    }
  }
}
