/** The whole cluster as a transition system: the API server's objects, one upgrade process and one
    host per node, everybody else who writes the objects, crashes, restarts and reboots.

    A process is described by a program counter that names the call it makes next. A retried
    get-modify-update is one `WriteLock` or `WriteNode` step when it commits, and no step when it
    conflicts or is lost; what the process does with the reply is a `Move` of its counter. */
module Protocol {
  import opened Wrappers
  import opened Conditions
  import opened Annotations
  import opened DaemonSets
  import opened Nodes
  import opened Times

  /** `reboot` and `drain` are the command line options. `late` allows an update of the lock that
      the client gave up on, or crashed on, to be committed by the server later. */
  datatype Config = Config(names: seq<string>, reboot: bool, drain: bool, late: bool)

  /** What the tool needs of its deployment: no two processes are configured with the same node name.
      A process may have none at all; `--kube-node` is not checked. */
  ghost predicate ValidConfig(cfg: Config) {
    forall i, j :: 0 <= i < j < |cfg.names| && cfg.names[i] != "" ==> cfg.names[i] != cfg.names[j]
  }

  datatype Pc =
    | Down                                                  // no process, or one that is exiting
    | CheckReboot | SetRebooted | ClearMark                 // makeKube: clearNodeReboot
    | ClearDrain                                            // makeKube: clearNodeDrain
    | TestLock | ClearLock                                  // makeKube: clearLock
    | Idle                                                  // waiting for the scheduler
    | Acquiring                                             // AcquireLock
    | Upgrading                                             // host.Upgrade
    | Reporting(status: HostStatus, err: Option<string>)    // UpdateHostStatus
    | Draining | Cordoning                                  // DrainNode: annotation, then kubectl
    | Marking(at: nat) | MarkCondition(at: nat)             // MarkReboot: annotation, then condition
    | Rebooting                                             // host.Reboot
    | Waiting                                               // shutdown requested, lock left held
    | Releasing(failed: bool)                               // ReleaseLock, after an error or not

  /** One node: its upgrade process, its host and its Node object.
      `wrote`: the update of the current call was committed. `bootSeen`: the boot time the process
      read when it started. `issued`: a reboot was requested and has not happened yet.
      History: `failed`, the last `DrainNode` run ended in an error; `missed`, the last run did not get
      its `UpdateHostStatus` committed. The module History says what the three record of a run. */
  datatype Member = Member(
    pc: Pc, wrote: bool, bootSeen: int,
    boot: nat, issued: bool,
    node: Node, hist: seq<Node>, log: seq<NodeMod>,
    failed: bool, missed: bool)

  /** An update the client no longer waits for: `mod` applied to the object at `version`. `error`: it
      is the release of a run that ended in an error. */
  datatype Request = Request(owner: nat, version: nat, mod: LockMod, error: bool)

  /** `hist[v]` is the DaemonSet at version v, and `ds` the current one. */
  datatype State = State(
    now: nat,
    ds: DaemonSet, hist: seq<DaemonSet>, log: seq<LockMod>,
    late: set<Request>,
    members: seq<Member>)

  datatype Action =
    | Tick(d: nat)
    | Foreign(edit: LockMod)
    | LateCommit(request: Request)
    | Start(i: nat, read: bool)
    | Move(i: nat, to: Pc)
    | WriteLock(i: nat, mod: LockMod)
    | Abandon(i: nat, version: nat, mod: LockMod)
    | WriteNode(i: nat, change: NodeMod)
    | Admin(i: nat, change: NodeMod)
    | Crash(i: nat)
    | HostReboot(i: nat)

  // ---------------------------------------------------------------- one process

  /** Where the run continues after the host status is reported. */
  function AfterReporting(cfg: Config, status: HostStatus, err: Option<string>): Pc {
    if err.Some? then Releasing(true)
    else if cfg.reboot && status.rebootRequired then (if cfg.drain then Draining else Pc.Rebooting)
    else Releasing(false)
  }

  predicate CanMove(cfg: Config, s: State, i: nat, to: Pc)
    requires i < |s.members| && i < |cfg.names|
  {
    var m := s.members[i];
    match m.pc
    case Down => false
    case CheckReboot =>
      // without a node name the first read of the Node fails
      cfg.names[i] != "" &&
      if RebootKey !in m.node.annotations then to == ClearDrain
      else var v := m.node.annotations[RebootKey]; v.Stamp? && m.bootSeen > v.time && to == SetRebooted
    case SetRebooted => (m.wrote && to == ClearMark) || to == ClearDrain
    case ClearMark => m.wrote && to == ClearDrain
    case ClearDrain => !Drained(m.node) && to == TestLock
    case TestLock => to == if LockValue(s.ds) != "" && LockValue(s.ds) == cfg.names[i] then ClearLock else Idle
    case ClearLock => m.wrote && to == Idle
    case Idle => to == Acquiring
    case Acquiring => m.wrote && to == Upgrading
    case Upgrading => to.Reporting?
    case Reporting(status, err) => to == AfterReporting(cfg, status, err)
    case Draining => (m.wrote && to == Cordoning) || to == Releasing(true)
    case Cordoning => to == Marking(s.now) || to == Releasing(true)
    case Marking(at) => (m.wrote && to == MarkCondition(at)) || to == Releasing(true)
    case MarkCondition(_) => (m.wrote && to == Pc.Rebooting) || to == Releasing(true)
    case Rebooting => to == Waiting || to == Releasing(true)
    case Waiting => false
    case Releasing(failed) => m.wrote && !failed && to == Idle
  }

  function Moved(m: Member, to: Pc): Member {
    m.(pc := to, wrote := false,
       issued := m.issued || (m.pc.Rebooting? && to.Waiting?),
       failed := m.failed || (to == Releasing(true) && !m.pc.Reporting?),
       missed := if m.pc.Reporting? then !m.wrote else m.missed)
  }

  /** The change a process may submit for its Node object at each point. */
  predicate MayWriteNode(m: Member, mod: NodeMod) {
    && !m.wrote
    && match m.pc
       case SetRebooted =>
         mod.SetConditions? && |mod.batch| == 1
         && mod.batch[0] == MakeRebootConditionRebooted(m.bootSeen, mod.batch[0].heartbeat)
       case ClearMark => mod == ClearAnnotation(RebootKey)
       case ClearDrain => Drained(m.node) && mod == Uncordon(DrainKey)
       case Reporting(status, err) =>
         mod.SetConditions? && |mod.batch| == 2
         && mod.batch == Report(m.bootSeen, status, err, mod.batch[0].heartbeat)
       case Draining => mod == SetAnnotation(DrainKey, Flag)
       case Cordoning => mod == NodeMod.Cordon
       case Marking(at) => mod == SetAnnotation(RebootKey, Stamp(at))
       case MarkCondition(at) =>
         mod.SetConditions? && |mod.batch| == 1
         && mod.batch[0] == MakeRebootConditionRebooting(at, mod.batch[0].heartbeat)
       case _ => false
  }

  /** The change a process may submit for the DaemonSet, made from the object `base`. */
  predicate MayWriteLock(name: string, pc: Pc, base: DaemonSet, mod: LockMod) {
    match pc
    case Acquiring => mod == Take(name) && Available(base, name)
    case ClearLock => mod == Drop(name) && LockValue(base) == name
    case Releasing(_) => mod == Drop(name) && LockValue(base) == name
    case _ => false
  }

  // ---------------------------------------------------------------- the transition system

  predicate Enabled(cfg: Config, s: State, a: Action) {
    match a
    case Tick(_) => true
    case Foreign(mod) => AllowedForeign(s.ds, mod)
    case LateCommit(r) => r in s.late && r.version + 1 == |s.hist|
    case Start(i, _) => i < |s.members| && s.members[i].pc.Down?
    case Move(i, to) => i < |s.members| && i < |cfg.names| && CanMove(cfg, s, i, to)
    case WriteLock(i, mod) =>
      i < |s.members| && i < |cfg.names| && MayWriteLock(cfg.names[i], s.members[i].pc, s.ds, mod)
    case Abandon(i, v, mod) =>
      cfg.late && i < |s.members| && i < |cfg.names| && v < |s.hist|
      && MayWriteLock(cfg.names[i], s.members[i].pc, s.hist[v], mod)
    case WriteNode(i, mod) => i < |s.members| && MayWriteNode(s.members[i], mod)
    case Admin(i, mod) => i < |s.members| && AllowedAdmin(mod)
    case Crash(i) => i < |s.members|
    case HostReboot(i) => i < |s.members|
  }

  function Commit(s: State, mod: LockMod): State {
    var ds := ApplyLock(s.ds, mod);
    s.(ds := ds, hist := s.hist + [ds], log := s.log + [mod])
  }

  function CommitNode(m: Member, mod: NodeMod): Member {
    var node := ApplyNode(m.node, mod);
    m.(node := node, hist := m.hist + [node], log := m.log + [mod])
  }

  function With(s: State, i: nat, m: Member): State
    requires i < |s.members|
  {
    s.(members := s.members[i := m])
  }

  function Next(cfg: Config, s: State, a: Action): State
    requires Enabled(cfg, s, a)
  {
    match a
    case Tick(d) => s.(now := s.now + d)
    case Foreign(mod) => Commit(s, mod)
    case LateCommit(r) => Commit(s, r.mod).(late := s.late - {r})
    case Start(i, read) =>
      var m := s.members[i];
      With(s, i, m.(pc := CheckReboot, wrote := false, bootSeen := SeenBootTime(m.boot, read)))
    case Move(i, to) => With(s, i, Moved(s.members[i], to))
    case WriteLock(i, mod) => With(Commit(s, mod), i, s.members[i].(wrote := true))
    case Abandon(i, v, mod) =>
      // a process that cannot release its lock reports the error and exits
      var m := s.members[i];
      With(s.(late := s.late + {Request(i, v, mod, m.pc == Releasing(true))}), i,
           if mod.Drop? then m.(pc := Down, wrote := false) else m)
    case WriteNode(i, mod) =>
      var m := CommitNode(s.members[i], mod);
      With(s, i, m.(wrote := true, failed := m.failed && !m.pc.Draining?))
    case Admin(i, mod) => With(s, i, CommitNode(s.members[i], mod))
    case Crash(i) => With(s, i, s.members[i].(pc := Down, wrote := false))
    case HostReboot(i) => With(s, i, s.members[i].(pc := Down, wrote := false, boot := s.now, issued := false))
  }

  /** Nothing has run yet: the lock is free, no node carries the tool's annotations. */
  ghost predicate Init(cfg: Config, s: State) {
    && |s.members| == |cfg.names|
    && s.hist == [s.ds] && s.log == [] && s.late == {}
    && LockValue(s.ds) == "" && HasOther(s.ds)
    && forall i :: 0 <= i < |s.members| ==> FreshMember(s.members[i], s.now)
  }

  ghost predicate FreshMember(m: Member, now: nat) {
    && m.pc.Down? && !m.wrote && !m.issued && !m.failed && !m.missed
    && m.boot <= now
    && m.hist == [m.node] && m.log == []
    && DrainKey !in m.node.annotations && RebootKey !in m.node.annotations
    && Coherent(m.node.conditions)
  }

  ghost predicate Step(cfg: Config, s: State, t: State) {
    exists a :: Enabled(cfg, s, a) && t == Next(cfg, s, a)
  }

  ghost predicate IsRun(cfg: Config, run: seq<State>) {
    run != [] && forall k :: 0 <= k < |run| ==> RunState(cfg, run, k)
  }

  /** The first state of a run is initial, and each other one follows from the one before. */
  ghost predicate RunState(cfg: Config, run: seq<State>, k: nat)
    requires k < |run|
  {
    if k == 0 then Init(cfg, run[0]) else Step(cfg, run[k - 1], run[k])
  }

  ghost predicate Reachable(cfg: Config, s: State) {
    exists run :: IsRun(cfg, run) && run[|run| - 1] == s
  }

  lemma ReachInit(cfg: Config, s: State)
    requires Init(cfg, s)
    ensures Reachable(cfg, s)
  {
    assert IsRun(cfg, [s]);
  }

  lemma ReachNext(cfg: Config, s: State, a: Action)
    requires Reachable(cfg, s) && Enabled(cfg, s, a)
    ensures Reachable(cfg, Next(cfg, s, a))
  {
    var run :| IsRun(cfg, run) && run[|run| - 1] == s;
    RunExtend(cfg, run, Next(cfg, s, a));
  }

  lemma RunExtend(cfg: Config, run: seq<State>, t: State)
    requires IsRun(cfg, run) && Step(cfg, run[|run| - 1], t)
    ensures IsRun(cfg, run + [t]) && (run + [t])[|run|] == t
  {
    var longer := run + [t];
    forall k | 0 <= k < |longer| ensures RunState(cfg, longer, k) {
      if k < |run| {
        assert RunState(cfg, run, k);
        assert longer[k] == run[k] && (k > 0 ==> longer[k - 1] == run[k - 1]);
      } else {
        assert longer[k - 1] == run[|run| - 1] && longer[k] == t;
      }
    }
  }

  // ---------------------------------------------------------------- what the theorems speak about

  /** Between a successful `AcquireLock` and the commit of `ReleaseLock`. */
  predicate Critical(m: Member) {
    m.pc.Upgrading? || m.pc.Reporting? || m.pc.Draining? || m.pc.Cordoning? || m.pc.Marking?
    || m.pc.MarkCondition? || m.pc.Rebooting? || m.pc.Waiting? || (m.pc.Releasing? && !m.wrote)
  }

  /** The node is marked for a reboot that its host has not made: the mark is not older than the
      boot time the host reports. */
  predicate Marked(m: Member) {
    RebootKey in m.node.annotations
    && m.node.annotations[RebootKey].Stamp? && BootTime(m.boot) <= m.node.annotations[RebootKey].time
  }
}
