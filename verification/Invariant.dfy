/** The inductive invariant of the protocol, and its proof over every step and every run. */
module Invariant {
  import opened Wrappers
  import opened Conditions
  import opened Annotations
  import opened DaemonSets
  import opened Nodes
  import opened Times
  import opened Protocol

  // ---------------------------------------------------------------- one member on its own

  /** A process that has gone past the reboot check, up to where it sets the next mark. */
  predicate PastCheck(m: Member) {
    m.pc.SetRebooted? || m.pc.ClearMark? || m.pc.ClearDrain? || NotDrained(m) || m.pc.Draining?
    || m.pc.Cordoning? || (m.pc.Marking? && !m.wrote)
  }

  /** A process that has made sure that its node is not drained, up to where it drains it. */
  predicate NotDrained(m: Member) {
    m.pc.TestLock? || m.pc.ClearLock? || m.pc.Idle? || m.pc.Acquiring? || m.pc.Upgrading?
    || m.pc.Reporting? || (m.pc.Draining? && !m.wrote) || m.pc == Releasing(false)
  }

  ghost predicate BasicOk(now: nat, m: Member) {
    && m.hist != [] && m.hist[|m.hist| - 1] == m.node
    && NodeSerial(m.hist, m.log) && OwnKeys(m.log)
    && m.boot <= now
    && (m.pc.Down? || m.bootSeen == ZERO_TIME || m.bootSeen == BootTime(m.boot))
    && MarkBy(m, now)
  }

  /** The mark of the node, and the one that its process is about to set, are instants up to this one. */
  predicate MarkBy(m: Member, until: nat) {
    && (RebootKey in m.node.annotations ==>
          m.node.annotations[RebootKey].Stamp? && 0 <= m.node.annotations[RebootKey].time <= until)
    && (m.pc.Marking? || m.pc.MarkCondition? ==> m.pc.at <= until)
  }

  ghost predicate DrainOk(cfg: Config, m: Member) {
    && (NotDrained(m) ==> !Drained(m.node))
    && ((m.pc.Draining? && m.wrote) || m.pc.Cordoning? ==> Drained(m.node))
    && (m.pc == Releasing(true) && !m.failed ==> !Drained(m.node) && !Marked(m))
    && (m.pc.Draining? || m.pc.Cordoning? || m.pc.Marking? || m.pc.MarkCondition? ==> cfg.drain)
    && (Drained(m.node) ==> cfg.reboot && cfg.drain)
    && (DrainSucceeded(cfg, m) ==> !m.failed)
    && DrainLogOk(m.node, m.hist, m.log)
  }

  /** From the commit of the drain annotation to the boot, as long as nothing fails. */
  predicate DrainSucceeded(cfg: Config, m: Member) {
    || (m.pc.Draining? && m.wrote) || m.pc.Cordoning? || m.pc.Marking? || m.pc.MarkCondition?
    || (cfg.drain && (m.pc.Rebooting? || m.issued))
  }

  /** The drain annotation is there exactly when a drain of the log is outstanding. */
  ghost predicate DrainLogOk(node: Node, hist: seq<Node>, log: seq<NodeMod>) {
    && hist != [] && !Drained(hist[0])
    && Balanced(log)
    && Owed(log) == (if Drained(node) then 1 else 0)
  }

  lemma DrainLogAfter(node: Node, hist: seq<Node>, log: seq<NodeMod>, mod: NodeMod)
    requires DrainLogOk(node, hist, log) && OwnKey(mod)
    requires mod.SetAnnotation? && mod.key == DrainKey ==> !Drained(node)
    requires mod.Uncordon? || mod.Cordon? ==> Drained(node)
    ensures DrainLogOk(ApplyNode(node, mod), hist + [ApplyNode(node, mod)], log + [mod])
  {
    OwedAppend(log, mod);
    BalancedAppend(log, mod);
  }

  ghost predicate MarkOk(cfg: Config, m: Member) {
    && (PastCheck(m) ==> !Marked(m))
    && (m.pc.Marking? ==> m.boot <= m.pc.at)
    && ((m.pc.Marking? && m.wrote) || m.pc.MarkCondition? ==> Marked(m))
    && (m.pc.Rebooting? && cfg.drain ==> Marked(m))
    && (m.issued && cfg.drain ==> Marked(m) && (m.pc.Waiting? || m.pc.Down? || m.pc.CheckReboot?))
    && (m.pc.Rebooting? || m.pc.Waiting? || m.issued ==> cfg.reboot)
    && (m.pc.Waiting? ==> m.issued)
    && (m.pc.Draining? || m.pc.Cordoning? || m.pc.Marking? || m.pc.MarkCondition? ==> cfg.reboot)
  }

  ghost predicate ConditionsOk(cfg: Config, m: Member) {
    && ((cfg.reboot && cfg.drain && m.missed) || Coherent(m.node.conditions))
    && (m.pc.Reporting? && m.wrote ==>
          && Coherent(m.node.conditions)
          && (m.pc.status.rebootRequired && m.pc.err.None? ==>
                StatusOf(m.node.conditions, HostUpgrades) == Some(False)))
    && (!m.missed && (m.pc.Draining? || m.pc.Cordoning? || m.pc.Marking? || m.pc.MarkCondition?) ==>
          StatusOf(m.node.conditions, HostUpgrades) == Some(False))
  }

  ghost predicate LocalOk(cfg: Config, now: nat, m: Member) {
    BasicOk(now, m) && DrainOk(cfg, m) && MarkOk(cfg, m) && ConditionsOk(cfg, m)
  }

  // ---------------------------------------------------------------- members and the lock

  /** The member relies on holding the lock. */
  predicate NeedsLock(cfg: Config, m: Member) {
    || Critical(m)
    || (m.pc.Acquiring? && m.wrote)
    || (Drained(m.node) && !m.failed)
    || (Marked(m) && !m.failed)
    || (m.issued && cfg.drain)
    || (m.pc.ClearLock? && !m.wrote && !cfg.late)
  }

  /** The member relies on none of its abandoned releases being able to commit any more. */
  predicate NeedsQuiet(cfg: Config, m: Member) {
    NeedsLock(cfg, m) || m.pc.Idle? || m.pc.Acquiring?
    || ((m.pc.ClearLock? || m.pc.Releasing?) && m.wrote)
  }

  ghost predicate Quiet(s: State, i: nat) {
    forall r :: r in s.late && r.owner == i && r.mod.Drop? ==> r.version + 1 < |s.hist|
  }

  predicate Dirty(m: Member) {
    Drained(m.node) || Marked(m)
  }

  /** While a release that was given up on can still commit, other than one after an error, the node is
      neither drained nor marked. */
  ghost predicate CleanRequests(s: State, i: nat)
    requires i < |s.members|
  {
    Dirty(s.members[i]) ==>
      forall r :: r in s.late && r.owner == i && r.mod.Drop? && !r.error ==> r.version + 1 < |s.hist|
  }

  ghost predicate LockOk(cfg: Config, s: State, i: nat)
    requires i < |s.members| && i < |cfg.names|
  {
    && (NeedsLock(cfg, s.members[i]) ==> LockValue(s.ds) == cfg.names[i])
    && (NeedsQuiet(cfg, s.members[i]) ==> Quiet(s, i))
    && CleanRequests(s, i)
  }

  /** An abandoned request was made from the version it names. */
  ghost predicate RequestOk(cfg: Config, s: State, r: Request) {
    && r.version < |s.hist|
    && r.owner < |cfg.names|
    && match r.mod
       case Take(v) => v == cfg.names[r.owner] && v != "" && Available(s.hist[r.version], v)
       case Drop(v) => v == cfg.names[r.owner] && v != "" && LockValue(s.hist[r.version]) == v
       case _ => false
  }

  ghost predicate ServerOk(cfg: Config, s: State) {
    && |s.members| == |cfg.names|
    && s.hist != [] && s.hist[|s.hist| - 1] == s.ds
    && Serial(s.hist, s.log) && ForeignKeys(s.log) && LogFits(s.hist, s.log)
    && (LockValue(s.ds) == "" || LockValue(s.ds) in cfg.names)
    && (forall k :: 0 <= k < |s.log| && s.log[k].Take? ==> s.log[k].value != "")
    && (forall v :: 0 <= v < |s.hist| ==> HasOther(s.hist[v]))
    && (forall r :: r in s.late ==> RequestOk(cfg, s, r))
    && (!cfg.late ==> s.late == {})
  }

  /** After a release, or a test that found the lock elsewhere, the lock is not held, provided no
      abandoned request can still commit. */
  ghost predicate FreeOk(cfg: Config, s: State, i: nat)
    requires i < |s.members| && i < |cfg.names|
  {
    var m := s.members[i];
    !cfg.late && (m.pc.Idle? || ((m.pc.ClearLock? || m.pc.Releasing?) && m.wrote)) ==> LockValue(s.ds) != cfg.names[i]
  }

  /** A process without a node name never gets past its first read of the Node. */
  predicate Nameless(m: Member) {
    (m.pc.Down? || m.pc.CheckReboot?) && !Drained(m.node) && RebootKey !in m.node.annotations && !m.issued
  }

  ghost predicate MemberOk(cfg: Config, s: State, i: nat)
    requires i < |s.members| && i < |cfg.names|
  {
    && LocalOk(cfg, s.now, s.members[i]) && LockOk(cfg, s, i) && FreeOk(cfg, s, i)
    && (cfg.names[i] == "" ==> Nameless(s.members[i]))
  }

  ghost predicate Inv(cfg: Config, s: State) {
    && ServerOk(cfg, s)
    && forall i :: 0 <= i < |s.members| ==> MemberOk(cfg, s, i)
  }

  // ---------------------------------------------------------------- local steps

  lemma LocalStart(cfg: Config, now: nat, m: Member, read: bool)
    requires LocalOk(cfg, now, m) && m.pc.Down?
    ensures var m' := m.(pc := CheckReboot, wrote := false, bootSeen := SeenBootTime(m.boot, read));
            && LocalOk(cfg, now, m') && (NeedsLock(cfg, m') ==> NeedsLock(cfg, m)) && !NotDrained(m')
            && (Dirty(m') ==> Dirty(m))
  {
  }

  lemma LocalCrash(cfg: Config, now: nat, m: Member)
    requires LocalOk(cfg, now, m)
    ensures var m' := m.(pc := Down, wrote := false);
            LocalOk(cfg, now, m') && (NeedsLock(cfg, m') ==> NeedsLock(cfg, m)) && (Dirty(m') ==> Dirty(m))
  {
  }

  lemma LocalHostReboot(cfg: Config, now: nat, m: Member)
    requires LocalOk(cfg, now, m)
    ensures var m' := m.(pc := Down, wrote := false, boot := now, issued := false);
            LocalOk(cfg, now, m') && (NeedsLock(cfg, m') ==> NeedsLock(cfg, m)) && (Dirty(m') ==> Dirty(m))
  {
  }

  lemma LocalMove(cfg: Config, s: State, i: nat, to: Pc)
    requires i < |s.members| && i < |cfg.names|
    requires LocalOk(cfg, s.now, s.members[i]) && CanMove(cfg, s, i, to)
    ensures var m, m' := s.members[i], Moved(s.members[i], to);
            LocalOk(cfg, s.now, m') && (NeedsLock(cfg, m') ==> NeedsLock(cfg, m) || to.ClearLock?)
  {
    var m, m' := s.members[i], Moved(s.members[i], to);
    assert m.pc.CheckReboot? && to == SetRebooted ==> m.bootSeen == BootTime(m.boot);
    assert BasicOk(s.now, m');
    assert DrainOk(cfg, m');
    assert MarkOk(cfg, m');
    assert ConditionsOk(cfg, m');
  }

  lemma AdminBasic(now: nat, m: Member, mod: NodeMod)
    requires BasicOk(now, m) && AllowedAdmin(mod)
    ensures BasicOk(now, CommitNode(m, mod)) && (Marked(CommitNode(m, mod)) <==> Marked(m))
  {
    AdminKeepsToolPart(m.node, mod);
    assert RebootKey in CommitNode(m, mod).node.annotations <==> RebootKey in m.node.annotations;
  }

  lemma LocalAdmin(cfg: Config, now: nat, m: Member, mod: NodeMod)
    requires LocalOk(cfg, now, m) && AllowedAdmin(mod)
    ensures var m' := CommitNode(m, mod);
            LocalOk(cfg, now, m') && (NeedsLock(cfg, m') <==> NeedsLock(cfg, m)) && (Dirty(m') ==> Dirty(m))
  {
    AdminKeepsToolPart(m.node, mod);
    DrainLogAfter(m.node, m.hist, m.log, mod);
    AdminBasic(now, m, mod);
  }

  function Wrote(m: Member, mod: NodeMod): Member {
    CommitNode(m, mod).(wrote := true, failed := m.failed && !m.pc.Draining?)
  }

  lemma WriteBasic(cfg: Config, now: nat, m: Member, mod: NodeMod)
    requires LocalOk(cfg, now, m) && MayWriteNode(m, mod)
    ensures BasicOk(now, Wrote(m, mod))
  {
    assert OwnKey(mod);
  }

  lemma WriteDrain(cfg: Config, now: nat, m: Member, mod: NodeMod)
    requires LocalOk(cfg, now, m) && MayWriteNode(m, mod)
    ensures DrainOk(cfg, Wrote(m, mod))
  {
    WriteDrainLog(cfg, now, m, mod);
  }

  lemma WriteDrainLog(cfg: Config, now: nat, m: Member, mod: NodeMod)
    requires LocalOk(cfg, now, m) && MayWriteNode(m, mod)
    ensures DrainLogOk(Wrote(m, mod).node, Wrote(m, mod).hist, Wrote(m, mod).log)
  {
    DrainLogAfter(m.node, m.hist, m.log, mod);
  }

  lemma WriteMark(cfg: Config, now: nat, m: Member, mod: NodeMod)
    requires LocalOk(cfg, now, m) && MayWriteNode(m, mod)
    ensures MarkOk(cfg, Wrote(m, mod))
  {
  }

  lemma WriteConditions(cfg: Config, now: nat, m: Member, mod: NodeMod)
    requires LocalOk(cfg, now, m) && MayWriteNode(m, mod)
    ensures ConditionsOk(cfg, Wrote(m, mod))
  {
    if mod.SetConditions? {
      if m.pc.Reporting? {
        AfterReport(m.node.conditions, m.bootSeen, m.pc.status, m.pc.err, mod.batch[0].heartbeat);
      } else {
        assert mod.batch == [mod.batch[0]];
        AfterOne(m.node.conditions, mod.batch[0], HostUpgrades);
        AfterOne(m.node.conditions, mod.batch[0], HostUpgradesReboot);
      }
    }
  }

  lemma LocalWrite(cfg: Config, now: nat, m: Member, mod: NodeMod)
    requires LocalOk(cfg, now, m) && MayWriteNode(m, mod)
    ensures LocalOk(cfg, now, Wrote(m, mod)) && (NeedsLock(cfg, Wrote(m, mod)) ==> NeedsLock(cfg, m))
    ensures Dirty(Wrote(m, mod)) ==> Dirty(m) || Critical(m)
  {
    WriteBasic(cfg, now, m, mod);
    WriteDrain(cfg, now, m, mod);
    WriteMark(cfg, now, m, mod);
    WriteConditions(cfg, now, m, mod);
  }

  // ---------------------------------------------------------------- commits to the DaemonSet

  /** Member i may change the lock: it is free or its own. Then nobody else relies on it. */
  lemma OnlyHolderNeeds(cfg: Config, s: State, i: nat, j: nat)
    requires ValidConfig(cfg) && Inv(cfg, s) && i < |s.members| && j < |s.members| && i != j
    requires Available(s.ds, cfg.names[i]) && cfg.names[i] != ""
    ensures !NeedsLock(cfg, s.members[j])
  {
    assert MemberOk(cfg, s, j);
    assert cfg.names[i] != cfg.names[j];
  }

  lemma ServerCommit(cfg: Config, s: State, mod: LockMod)
    requires ServerOk(cfg, s) && (ByTool(mod) || AllowedForeign(s.ds, mod)) && Fits(s.ds, mod)
    requires mod.Take? ==> mod.value in cfg.names && mod.value != ""
    ensures ServerOk(cfg, Commit(s, mod))
  {
    var t := Commit(s, mod);
    LockAfter(s.ds, mod);
    OthersSurvive(s.ds, mod);
    SerialExtend(s.hist, s.log, mod);
    forall r | r in t.late ensures RequestOk(cfg, t, r) {
      assert RequestOk(cfg, s, r);
      assert t.hist[r.version] == s.hist[r.version];
    }
  }

  lemma InvForeign(cfg: Config, s: State, mod: LockMod)
    requires Inv(cfg, s) && AllowedForeign(s.ds, mod)
    ensures Inv(cfg, Commit(s, mod))
  {
    ServerCommit(cfg, s, mod);
    LockAfter(s.ds, mod);
    forall j | 0 <= j < |s.members| ensures MemberOk(cfg, Commit(s, mod), j) {
      assert MemberOk(cfg, s, j);
    }
  }

  lemma InvWriteLock(cfg: Config, s: State, i: nat, mod: LockMod)
    requires ValidConfig(cfg) && Inv(cfg, s) && i < |s.members| && i < |cfg.names|
    requires MayWriteLock(cfg.names[i], s.members[i].pc, s.ds, mod)
    ensures Inv(cfg, With(Commit(s, mod), i, s.members[i].(wrote := true)))
  {
    var t := With(Commit(s, mod), i, s.members[i].(wrote := true));
    assert MemberOk(cfg, s, i);
    ServerCommit(cfg, s, mod);
    LockAfter(s.ds, mod);
    forall r | r in t.late ensures RequestOk(cfg, t, r) {
      assert RequestOk(cfg, Commit(s, mod), r);
    }
    forall j | 0 <= j < |t.members| ensures MemberOk(cfg, t, j) {
      assert MemberOk(cfg, s, j);
      if j != i {
        OnlyHolderNeeds(cfg, s, i, j);
        assert cfg.names[i] != cfg.names[j];
      } else {
        assert forall r :: r in s.late ==> RequestOk(cfg, s, r);
        assert LocalOk(cfg, t.now, t.members[j]);
      }
    }
  }

  lemma InvLateCommit(cfg: Config, s: State, r: Request)
    requires ValidConfig(cfg) && Inv(cfg, s) && r in s.late && r.version + 1 == |s.hist|
    ensures Inv(cfg, Commit(s, r.mod).(late := s.late - {r}))
  {
    var t := Commit(s, r.mod).(late := s.late - {r});
    assert RequestOk(cfg, s, r);
    ServerCommit(cfg, s, r.mod);
    LockAfter(s.ds, r.mod);
    forall q | q in t.late ensures RequestOk(cfg, t, q) {
      assert RequestOk(cfg, Commit(s, r.mod), q);
    }
    forall j | 0 <= j < |t.members| ensures MemberOk(cfg, t, j) {
      assert MemberOk(cfg, s, j);
      if j != r.owner {
        OnlyHolderNeeds(cfg, s, r.owner, j);
      }
    }
  }

  lemma InvAbandon(cfg: Config, s: State, i: nat, v: nat, mod: LockMod)
    requires Inv(cfg, s) && Enabled(cfg, s, Abandon(i, v, mod))
    ensures Inv(cfg, Next(cfg, s, Abandon(i, v, mod)))
  {
    var t := Next(cfg, s, Abandon(i, v, mod));
    assert MemberOk(cfg, s, i);
    forall q | q in t.late ensures RequestOk(cfg, t, q) {
      if q in s.late { assert RequestOk(cfg, s, q); }
    }
    forall j | 0 <= j < |t.members| ensures MemberOk(cfg, t, j) {
      if j == i {
        AbandonMember(cfg, s, i, v, mod);
      } else {
        AbandonOther(cfg, s, i, v, mod, j);
      }
    }
  }

  lemma AbandonOther(cfg: Config, s: State, i: nat, v: nat, mod: LockMod, j: nat)
    requires Inv(cfg, s) && Enabled(cfg, s, Abandon(i, v, mod)) && j < |s.members| && j != i
    ensures |s.members| == |cfg.names| && |Next(cfg, s, Abandon(i, v, mod)).members| == |s.members|
    ensures MemberOk(cfg, Next(cfg, s, Abandon(i, v, mod)), j)
  {
    assert MemberOk(cfg, s, j);
  }

  lemma AbandonMember(cfg: Config, s: State, i: nat, v: nat, mod: LockMod)
    requires Inv(cfg, s) && Enabled(cfg, s, Abandon(i, v, mod))
    ensures |s.members| == |cfg.names| && MemberOk(cfg, Next(cfg, s, Abandon(i, v, mod)), i)
  {
    assert MemberOk(cfg, s, i);
    if mod.Drop? {
      LocalCrash(cfg, s.now, s.members[i]);
    }
  }

  // ---------------------------------------------------------------- steps of one member

  /** A step that leaves the server alone and gives member i no new reliance on the lock. */
  lemma InvLocal(cfg: Config, s: State, i: nat, m: Member)
    requires Inv(cfg, s) && i < |s.members|
    requires LocalOk(cfg, s.now, m)
    requires NeedsLock(cfg, m) ==> LockValue(s.ds) == cfg.names[i]
    requires NeedsQuiet(cfg, m) ==> Quiet(s, i)
    requires FreeOk(cfg, With(s, i, m), i)
    requires cfg.names[i] == "" ==> Nameless(m)
    requires Dirty(m) ==> Dirty(s.members[i]) || Quiet(s, i)
    ensures Inv(cfg, With(s, i, m))
  {
    var t := With(s, i, m);
    forall q | q in t.late ensures RequestOk(cfg, t, q) {
      assert RequestOk(cfg, s, q);
    }
    forall j | 0 <= j < |t.members| ensures MemberOk(cfg, t, j) {
      assert MemberOk(cfg, s, j);
    }
  }

  lemma InvMove(cfg: Config, s: State, i: nat, to: Pc)
    requires ValidConfig(cfg) && Inv(cfg, s) && i < |s.members| && i < |cfg.names| && CanMove(cfg, s, i, to)
    ensures Inv(cfg, With(s, i, Moved(s.members[i], to)))
  {
    var m := Moved(s.members[i], to);
    assert MemberOk(cfg, s, i);
    LocalMove(cfg, s, i, to);
    if s.members[i].pc.TestLock? {
      forall r | r in s.late && r.owner == i && r.mod.Drop? ensures to.Idle? ==> r.version + 1 < |s.hist| {
        assert RequestOk(cfg, s, r);
      }
    }
    InvLocal(cfg, s, i, m);
  }

  lemma InvStart(cfg: Config, s: State, i: nat, read: bool)
    requires Inv(cfg, s) && i < |s.members| && s.members[i].pc.Down?
    ensures Inv(cfg, Next(cfg, s, Start(i, read)))
  {
    assert MemberOk(cfg, s, i);
    LocalStart(cfg, s.now, s.members[i], read);
    InvLocal(cfg, s, i, Next(cfg, s, Start(i, read)).members[i]);
  }

  lemma InvWriteNode(cfg: Config, s: State, i: nat, mod: NodeMod)
    requires Inv(cfg, s) && i < |s.members| && MayWriteNode(s.members[i], mod)
    ensures Inv(cfg, With(s, i, Wrote(s.members[i], mod)))
  {
    assert MemberOk(cfg, s, i);
    LocalWrite(cfg, s.now, s.members[i], mod);
    InvLocal(cfg, s, i, Wrote(s.members[i], mod));
  }

  lemma InvAdmin(cfg: Config, s: State, i: nat, mod: NodeMod)
    requires Inv(cfg, s) && i < |s.members| && AllowedAdmin(mod)
    ensures Inv(cfg, With(s, i, CommitNode(s.members[i], mod)))
  {
    assert MemberOk(cfg, s, i);
    LocalAdmin(cfg, s.now, s.members[i], mod);
    InvLocal(cfg, s, i, CommitNode(s.members[i], mod));
  }

  lemma InvCrash(cfg: Config, s: State, i: nat)
    requires Inv(cfg, s) && i < |s.members|
    ensures Inv(cfg, With(s, i, s.members[i].(pc := Down, wrote := false)))
  {
    assert MemberOk(cfg, s, i);
    LocalCrash(cfg, s.now, s.members[i]);
    InvLocal(cfg, s, i, s.members[i].(pc := Down, wrote := false));
  }

  lemma InvHostReboot(cfg: Config, s: State, i: nat)
    requires Inv(cfg, s) && i < |s.members|
    ensures Inv(cfg, With(s, i, s.members[i].(pc := Down, wrote := false, boot := s.now, issued := false)))
  {
    assert MemberOk(cfg, s, i);
    LocalHostReboot(cfg, s.now, s.members[i]);
    InvLocal(cfg, s, i, s.members[i].(pc := Down, wrote := false, boot := s.now, issued := false));
  }

  lemma InvNext(cfg: Config, s: State, a: Action)
    requires ValidConfig(cfg) && Inv(cfg, s) && Enabled(cfg, s, a)
    ensures Inv(cfg, Next(cfg, s, a))
  {
    match a
    case Tick(d) =>
      var t := Next(cfg, s, a);
      forall q | q in t.late ensures RequestOk(cfg, t, q) { assert RequestOk(cfg, s, q); }
      forall j | 0 <= j < |t.members| ensures MemberOk(cfg, t, j) { assert MemberOk(cfg, s, j); }
    case Foreign(mod) => InvForeign(cfg, s, mod);
    case LateCommit(r) => InvLateCommit(cfg, s, r);
    case Move(i, to) => InvMove(cfg, s, i, to);
    case WriteLock(i, mod) => InvWriteLock(cfg, s, i, mod);
    case Abandon(i, v, mod) => InvAbandon(cfg, s, i, v, mod);
    case Start(i, read) => InvStart(cfg, s, i, read);
    case WriteNode(i, mod) => InvWriteNode(cfg, s, i, mod);
    case Admin(i, mod) => InvAdmin(cfg, s, i, mod);
    case Crash(i) => InvCrash(cfg, s, i);
    case HostReboot(i) => InvHostReboot(cfg, s, i);
  }

  // ---------------------------------------------------------------- every run

  lemma InvInit(cfg: Config, s: State)
    requires Init(cfg, s)
    ensures Inv(cfg, s)
  {
    forall i | 0 <= i < |s.members| ensures MemberOk(cfg, s, i) {
      assert FreshMember(s.members[i], s.now);
    }
  }

  lemma {:induction false} InvRun(cfg: Config, run: seq<State>, k: nat)
    requires ValidConfig(cfg) && IsRun(cfg, run) && k < |run|
    ensures Inv(cfg, run[k])
  {
    if k == 0 {
      assert RunState(cfg, run, 0);
      InvInit(cfg, run[0]);
    } else {
      InvRun(cfg, run, k - 1);
      assert RunState(cfg, run, k);
      var a :| Enabled(cfg, run[k - 1], a) && run[k] == Next(cfg, run[k - 1], a);
      InvNext(cfg, run[k - 1], a);
    }
  }

  /** The commit history of the DaemonSet. */
  lemma HistoryHolds(cfg: Config, s: State)
    requires ValidConfig(cfg) && Reachable(cfg, s)
    ensures Serial(s.hist, s.log) && ForeignKeys(s.log) && LogFits(s.hist, s.log) && s.hist[|s.log|] == s.ds
  {
    ServerHolds(cfg, s);
  }

  lemma ServerHolds(cfg: Config, s: State)
    requires ValidConfig(cfg) && Reachable(cfg, s)
    ensures ServerOk(cfg, s)
  {
    InvHolds(cfg, s);
  }

  lemma InvHolds(cfg: Config, s: State)
    requires ValidConfig(cfg) && Reachable(cfg, s)
    ensures Inv(cfg, s)
  {
    var run :| IsRun(cfg, run) && run[|run| - 1] == s;
    InvRun(cfg, run, |run| - 1);
  }
}
