/** No state of the cluster is a dead end: one reboot of a host, by itself, brings its node back. */
module Recovery {
  import opened Wrappers
  import opened Conditions
  import opened Annotations
  import opened DaemonSets
  import opened Nodes
  import opened Times
  import opened Protocol
  import opened Invariant
  import opened Safety

  /** A stretch of a run that starts in any state. */
  ghost predicate IsPath(cfg: Config, path: seq<State>) {
    path != [] && forall k :: 0 <= k < |path| ==> PathState(cfg, path, k)
  }

  ghost predicate PathState(cfg: Config, path: seq<State>, k: nat)
    requires k < |path|
  {
    k > 0 ==> Step(cfg, path[k - 1], path[k])
  }

  ghost predicate Leads(cfg: Config, s: State, t: State) {
    exists path :: IsPath(cfg, path) && path[0] == s && path[|path| - 1] == t
  }

  lemma LeadsHere(cfg: Config, s: State)
    ensures Leads(cfg, s, s)
  {
    assert IsPath(cfg, [s]);
  }

  lemma LeadsNext(cfg: Config, s: State, t: State, u: State)
    requires Leads(cfg, s, t) && Step(cfg, t, u)
    ensures Leads(cfg, s, u)
  {
    var path :| IsPath(cfg, path) && path[0] == s && path[|path| - 1] == t;
    var longer := path + [u];
    forall k | 0 <= k < |longer| ensures PathState(cfg, longer, k) {
      if k < |path| {
        assert PathState(cfg, path, k);
        assert longer[k] == path[k] && (k > 0 ==> longer[k - 1] == path[k - 1]);
      } else {
        assert longer[k - 1] == t && longer[k] == u;
      }
    }
    assert longer[0] == s && longer[|longer| - 1] == u;
  }

  /** A path from a reachable state stays among the reachable ones. */
  lemma {:induction false} PathReachable(cfg: Config, path: seq<State>, k: nat)
    requires IsPath(cfg, path) && k < |path| && Reachable(cfg, path[0])
    ensures Reachable(cfg, path[k])
  {
    if k > 0 {
      PathReachable(cfg, path, k - 1);
      assert PathState(cfg, path, k);
      var a :| Enabled(cfg, path[k - 1], a) && path[k] == Next(cfg, path[k - 1], a);
      ReachNext(cfg, path[k - 1], a);
    }
  }

  lemma LeadsReachable(cfg: Config, s: State, t: State)
    requires Leads(cfg, s, t) && Reachable(cfg, s)
    ensures Reachable(cfg, t)
  {
    var path :| IsPath(cfg, path) && path[0] == s && path[|path| - 1] == t;
    PathReachable(cfg, path, |path| - 1);
  }

  /** The path goes on with one more step. */
  lemma Go(cfg: Config, from: State, s: State, a: Action) returns (t: State)
    requires Leads(cfg, from, s) && Enabled(cfg, s, a)
    ensures Leads(cfg, from, t) && t == Next(cfg, s, a)
  {
    t := Next(cfg, s, a);
    LeadsNext(cfg, from, s, t);
  }

  /** A step of node i that concerns only its own member. */
  ghost predicate OnlyMember(s: State, t: State, i: nat) {
    i < |s.members| && |t.members| == |s.members| && t == s.(members := s.members[i := t.members[i]])
  }

  lemma GoMove(cfg: Config, from: State, s: State, i: nat, to: Pc) returns (t: State)
    requires Leads(cfg, from, s) && i < |s.members| && i < |cfg.names| && CanMove(cfg, s, i, to)
    ensures Leads(cfg, from, t) && OnlyMember(s, t, i) && t.members[i] == Moved(s.members[i], to)
  {
    t := Go(cfg, from, s, Move(i, to));
  }

  lemma GoWrite(cfg: Config, from: State, s: State, i: nat, mod: NodeMod) returns (t: State)
    requires Leads(cfg, from, s) && i < |s.members| && MayWriteNode(s.members[i], mod)
    ensures Leads(cfg, from, t) && OnlyMember(s, t, i) && t.members[i] == Wrote(s.members[i], mod)
  {
    t := Go(cfg, from, s, WriteNode(i, mod));
  }

  /** A second passes, the host boots, and its process starts and reads the boot time. */
  lemma Reboots(cfg: Config, s: State, i: nat) returns (t: State)
    requires i < |s.members|
    ensures Leads(cfg, s, t) && t.now == s.now + 1_000_000_000 && OnlyMember(s.(now := t.now), t, i)
    ensures t.members[i].pc.CheckReboot? && !t.members[i].wrote && !t.members[i].issued
    ensures t.members[i].node == s.members[i].node && t.members[i].boot == t.now
    ensures t.members[i].bootSeen == BootTime(t.now)
  {
    LeadsHere(cfg, s);
    t := Go(cfg, s, s, Tick(1_000_000_000));
    t := Go(cfg, s, t, HostReboot(i));
    t := Go(cfg, s, t, Start(i, true));
  }

  /** The process passes the check: the reboot is reported and the mark removed, or there was none. */
  lemma Passes(cfg: Config, from: State, s: State, i: nat) returns (t: State)
    requires Leads(cfg, from, s) && i < |s.members| && i < |cfg.names| && cfg.names[i] != ""
    requires s.members[i].pc.CheckReboot? && !s.members[i].wrote
    requires RebootKey in s.members[i].node.annotations ==>
               && s.members[i].node.annotations[RebootKey].Stamp?
               && s.members[i].bootSeen > s.members[i].node.annotations[RebootKey].time
    ensures Leads(cfg, from, t) && OnlyMember(s, t, i)
    ensures t.members[i].pc.ClearDrain? && !t.members[i].wrote
    ensures t.members[i].issued == s.members[i].issued && t.members[i].boot == s.members[i].boot
    ensures t.members[i].node.annotations == s.members[i].node.annotations - {RebootKey}
    ensures t.members[i].node.unschedulable == s.members[i].node.unschedulable
    ensures RebootKey in s.members[i].node.annotations ==>
              ShowsReboot(t.members[i].node.conditions, False, Rebooted, s.members[i].bootSeen, s.now, s.now)
  {
    if RebootKey !in s.members[i].node.annotations {
      t := GoMove(cfg, from, s, i, ClearDrain);
      return;
    }
    var seen, before := s.members[i].bootSeen, s.members[i].node.conditions;
    t := GoMove(cfg, from, s, i, SetRebooted);
    t := GoWrite(cfg, from, t, i, SetConditions([MakeRebootConditionRebooted(seen, s.now)]));
    AfterReboot(before, seen, s.now);
    t := GoMove(cfg, from, t, i, ClearMark);
    t := GoWrite(cfg, from, t, i, NodeMod.ClearAnnotation(RebootKey));
    t := GoMove(cfg, from, t, i, ClearDrain);
  }

  /** The node is uncordoned if the tool had drained it. */
  lemma Uncordons(cfg: Config, from: State, s: State, i: nat) returns (t: State)
    requires Leads(cfg, from, s) && i < |s.members| && i < |cfg.names|
    requires s.members[i].pc.ClearDrain? && !s.members[i].wrote
    ensures Leads(cfg, from, t) && OnlyMember(s, t, i) && t.members[i].pc.TestLock? && !t.members[i].wrote
    ensures t.members[i].issued == s.members[i].issued && t.members[i].boot == s.members[i].boot
    ensures t.members[i].node == s.members[i].node.(
              annotations := s.members[i].node.annotations - {DrainKey},
              unschedulable := s.members[i].node.unschedulable && !Drained(s.members[i].node))
  {
    t := s;
    if Drained(s.members[i].node) {
      t := GoWrite(cfg, from, t, i, Uncordon(DrainKey));
    }
    t := GoMove(cfg, from, t, i, TestLock);
  }

  /** The lock is released if the node holds it. */
  lemma Frees(cfg: Config, from: State, s: State, i: nat) returns (t: State)
    requires Leads(cfg, from, s) && i < |s.members| && i < |cfg.names| && cfg.names[i] != ""
    requires s.members[i].pc.TestLock?
    ensures Leads(cfg, from, t) && t.now == s.now
    ensures |t.members| == |s.members| && t.members == s.members[i := t.members[i]]
    ensures t.members[i] == s.members[i].(pc := Idle, wrote := false)
    ensures LockValue(t.ds) == if LockValue(s.ds) == cfg.names[i] then "" else LockValue(s.ds)
  {
    if LockValue(s.ds) != cfg.names[i] {
      t := GoMove(cfg, from, s, i, Idle);
      return;
    }
    t := GoMove(cfg, from, s, i, Pc.ClearLock);
    LockAfter(t.ds, Drop(cfg.names[i]));
    t := Go(cfg, from, t, WriteLock(i, Drop(cfg.names[i])));
    t := GoMove(cfg, from, t, i, Idle);
  }

  lemma MarkIsPast(cfg: Config, s: State, i: nat, boot: nat)
    requires ValidConfig(cfg) && Reachable(cfg, s) && i < |s.members| && boot == s.now + 1_000_000_000
    ensures RebootKey in s.members[i].node.annotations ==>
              && s.members[i].node.annotations[RebootKey].Stamp?
              && BootTime(boot) > s.members[i].node.annotations[RebootKey].time
  {
    if RebootKey in s.members[i].node.annotations {
      MarkNotAhead(cfg, s, i);
      assert boot - 1_000_000_000 < BootTime(boot);
    }
  }

  /** From every reachable state, whatever has failed before: when only the host of node i boots again, a
      second later, and its process starts and no call of it fails, it gets to wait for the next run, and
      by then the node is neither marked nor drained, is schedulable again if it was drained, says that it
      has rebooted if it was marked to, and has given back the lock if it held it. */
  lemma RebootRecovers(cfg: Config, s: State, i: nat) returns (t: State)
    requires ValidConfig(cfg) && Reachable(cfg, s) && i < |s.members| && i < |cfg.names| && cfg.names[i] != ""
    ensures Leads(cfg, s, t) && Reachable(cfg, t) && t.now == s.now + 1_000_000_000
    ensures |t.members| == |s.members| && forall j :: 0 <= j < |s.members| && j != i ==> t.members[j] == s.members[j]
    ensures var m, n := s.members[i], t.members[i];
            && n.pc.Idle? && !n.issued && n.boot == t.now
            && n.node.annotations == m.node.annotations - {RebootKey, DrainKey}
            && n.node.unschedulable == (m.node.unschedulable && !Drained(m.node))
            && (RebootKey in m.node.annotations ==>
                  ShowsReboot(n.node.conditions, False, Rebooted, BootTime(n.boot), t.now, t.now))
    ensures LockValue(t.ds) == if LockValue(s.ds) == cfg.names[i] then "" else LockValue(s.ds)
  {
    t := Reboots(cfg, s, i);
    MarkIsPast(cfg, s, i, t.now);
    t := Passes(cfg, s, t, i);
    t := Uncordons(cfg, s, t, i);
    t := Frees(cfg, s, t, i);
    LeadsReachable(cfg, s, t);
  }
}
