/** What one upgrade process sees of the cluster: the API calls, the host and the clock.

    A `Cluster` holds the state of the whole transition system. Every call first lets everybody else
    take any steps of the protocol, chosen by an arbitrary oracle, and then takes a step of the
    calling process or none. So whatever a client method does is a stretch of a run of the protocol,
    and a client that stops in the middle is a run that goes on with a crash. */
module World {
  import opened Wrappers
  import opened Annotations
  import opened Conditions
  import opened DaemonSets
  import opened Nodes
  import opened Times
  import opened Protocol
  import opened Invariant
  import opened Safety

  /** What becomes of a call that goes wrong: the request is lost, applied without a reply, or left
      to be applied later. */
  datatype Fate = Good | Lost | Applied | Late

  datatype Reply = Accepted | Conflict | Failed

  /** A Node as the server returns it. */
  datatype NodeReply = NodeReply(version: nat, node: Node)

  datatype WatchEvent = Modified(version: nat, ds: DaemonSet) | Unexpected | Closed | TimedOut | Nothing | Never

  /** What happened to the process so far.
      `fuel`: how many more steps others take and calls fail; it only bounds the loops.
      `faults`: calls of this process that failed. `edits`: commits by others to its Node.
      `gets`: reads of an object from the server. `looked`: when the last one of them began. `conflicts`:
      updates that the server refused as such. `tries`: attempts to take the lock. `naps`: its sleeps.
      `runs`: the runs it began. `deeds`: what its runs did to the host. */
  datatype Meter = Meter(
    fuel: nat, faults: nat, edits: nat, gets: nat, looked: nat, conflicts: nat,
    tries: seq<Try>, naps: seq<Nap>, runs: seq<Context>, deeds: seq<Deed>)

  /** The watches of the process: how many it has opened, the version from which the last one starts, and
      up to which it has delivered every change; since when that one is waited for, and when its timer
      fires, if it has one. */
  datatype Watching = Watching(count: nat, from: nat, seen: nat, since: nat, expiry: Option<int>)

  /** The timer of a watch fires at the deadline, if that was ahead when it was set; else there is none. */
  ghost predicate TimerFits(ctx: Context, w: Watching) {
    w.expiry == if ctx.Deadline? && w.since < ctx.at then Some(ctx.at) else None
  }

  /** The last of the watches opened between two instants, if any was, has the timer of this context. */
  ghost predicate WatchedFor(ctx: Context, a: Watching, from: nat, b: Watching, until: nat) {
    b == a || (b.count > a.count && TimerFits(ctx, b) && from <= b.since <= until)
  }

  lemma WatchedNext(ctx: Context, a: Watching, from: nat, b: Watching, mid: nat, c: Watching, until: nat)
    requires WatchedFor(ctx, a, from, b, mid) && WatchedFor(ctx, b, mid, c, until) && from <= mid <= until
    ensures WatchedFor(ctx, a, from, c, until)
  {
  }

  /** A call to the host or to kubectl, and its result. */
  datatype Deed =
    | Upgraded(status: HostStatus, err: Option<string>)
    | KubectlDrained(ok: bool)
    | RebootRequested(ok: bool)

  /** Any stretch of an attempt. A fault costs fuel. */
  ghost predicate Trying(a: Meter, b: Meter) {
    && b.fuel <= a.fuel && a.faults <= b.faults && b.fuel + b.faults <= a.fuel + a.faults
    && a.edits <= b.edits && b.tries == a.tries && b.runs == a.runs && b.deeds == a.deeds
  }

  /** A stretch in which the process neither read an object nor slept. */
  ghost predicate Spent(a: Meter, b: Meter) {
    && Trying(a, b)
    && b.gets == a.gets && b.looked == a.looked && b.conflicts == a.conflicts && b.naps == a.naps
  }

  /** A stretch that may read and sleep. */
  ghost predicate Worked(a: Meter, b: Meter) {
    Trying(a, b) && a.gets <= b.gets && a.conflicts <= b.conflicts && a.naps <= b.naps
  }

  /** Some rounds of get, modify and update that all conflicted, each with a commit of others, and the
      pause after each of them. */
  ghost predicate Conflicted(a: Meter, b: Meter, commits: int) {
    Worked(a, b) && |b.naps| - |a.naps| == b.conflicts - a.conflicts == b.gets - a.gets <= commits
  }

  lemma ConflictedNext(a: Meter, b: Meter, c: Meter, commits: int, more: int)
    requires Conflicted(a, b, commits) && Conflicted(b, c, more)
    ensures Conflicted(a, c, commits + more)
  {
  }

  /** Any stretch within a run that leaves the host alone. */
  ghost predicate Onward(a: Meter, b: Meter) {
    Ran(a, b) && b.deeds == a.deeds
  }

  /** Any stretch within a run. */
  ghost predicate Ran(a: Meter, b: Meter) {
    && a.faults <= b.faults && a.edits <= b.edits && a.gets <= b.gets && a.conflicts <= b.conflicts
    && b.tries == a.tries && b.runs == a.runs
  }

  /** The server is never read twice without a sleep in between. */
  ghost predicate Paced(a: Meter, b: Meter) {
    b.gets - a.gets <= |b.naps| - |a.naps| + 1
  }

  /** Why an update of the Node may fail: a call failed, or the server refused updates, each after a commit
      by others to the Node, at least as often as a conflict is retried. */
  ghost predicate Cause(a: Meter, b: Meter, steps: nat) {
    b.faults > a.faults || (b.edits >= a.edits + steps && b.conflicts >= a.conflicts + steps)
  }

  /** The same, twice over. */
  ghost predicate CauseTwice(a: Meter, b: Meter, steps: nat) {
    || b.faults > a.faults + 1
    || (b.faults > a.faults && b.edits >= a.edits + steps && b.conflicts >= a.conflicts + steps)
    || (b.edits >= a.edits + 2 * steps && b.conflicts >= a.conflicts + 2 * steps)
  }

  lemma CausesAdd(a: Meter, b: Meter, c: Meter, steps: nat)
    requires Ran(a, b) && Ran(b, c) && Cause(a, b, steps) && Cause(b, c, steps)
    ensures CauseTwice(a, c, steps)
  {
  }

  function Got(m: Meter, now: nat): Meter {
    m.(gets := m.gets + 1, looked := now)
  }

  function Refused(m: Meter): Meter {
    m.(conflicts := m.conflicts + 1)
  }

  function Tried(m: Meter, ctx: Context, now: nat): Meter {
    m.(tries := m.tries + [Try(ctx, now)])
  }

  function Did(m: Meter, deed: Deed): Meter {
    m.(deeds := m.deeds + [deed])
  }

  function Begun(m: Meter, ctx: Context): Meter {
    m.(runs := m.runs + [ctx])
  }

  /** The action is a step of this process or of its host. */
  predicate Mine(a: Action, me: nat) {
    match a
    case Tick(_) => false
    case Foreign(_) => false
    case LateCommit(_) => false
    case Admin(_, _) => false
    case _ => a.i == me
  }

  /** A commit of the tool for the node name. */
  predicate Own(mod: LockMod, name: string) {
    ByTool(mod) && mod.value == name
  }

  ghost predicate NoOwn(log: seq<LockMod>, from: nat, to: nat, name: string)
    requires to <= |log|
  {
    forall k :: from <= k < to ==> !Own(log[k], name)
  }

  /** What stays of a process while others take steps, and while its own updates are in doubt. */
  ghost predicate Keep(me: nat, s: State, t: State) {
    && |t.members| == |s.members| && me < |s.members|
    && s.hist <= t.hist && s.log <= t.log && s.now <= t.now
    && KeepMember(s.members[me], t.members[me])
  }

  ghost predicate KeepMember(m: Member, n: Member) {
    && n.pc == m.pc && n.bootSeen == m.bootSeen && n.boot == m.boot
    && n.issued == m.issued && n.missed == m.missed
    && m.hist <= n.hist && m.log <= n.log
  }

  /** What others may do to the cluster while process `me` is not looking. */
  ghost predicate Rely(cfg: Config, me: nat, s: State, t: State)
    requires me < |cfg.names|
  {
    && Keep(me, s, t)
    && t.members[me].wrote == s.members[me].wrote && t.members[me].failed == s.members[me].failed
    && NoTool(t.members[me].log, |s.members[me].log|, |t.members[me].log|)
    && SameToolPart(s.members[me].node, t.members[me].node)
    && (cfg.late || NoOwn(t.log, |s.log|, |t.log|, cfg.names[me]))
  }

  lemma RelyTransitive(cfg: Config, me: nat, s: State, t: State, u: State)
    requires me < |cfg.names| && Rely(cfg, me, s, t) && Rely(cfg, me, t, u)
    ensures Rely(cfg, me, s, u)
  {
  }

  lemma OthersRely(cfg: Config, me: nat, s: State, a: Action)
    requires ValidConfig(cfg) && Reachable(cfg, s) && me < |cfg.names|
    requires Enabled(cfg, s, a) && !Mine(a, me)
    ensures me < |s.members| && Rely(cfg, me, s, Next(cfg, s, a))
    ensures |Next(cfg, s, a).hist| <= |s.hist| + 1
    ensures |Next(cfg, s, a).members[me].hist| == |s.members[me].hist| + (if Edits(a, me) then 1 else 0)
  {
    InvHolds(cfg, s);
    var t := Next(cfg, s, a);
    MemberRely(cfg, me, s, a);
    if a.Foreign? || a.LateCommit? || a.WriteLock? {
      ServerRely(cfg, me, s, a);
    }
  }

  /** A commit by others to the Node of the process. */
  predicate Edits(a: Action, me: nat) {
    a.Admin? && a.i == me
  }

  /** Of the other actions only an edit of the Node concerns the member. */
  lemma MemberRely(cfg: Config, me: nat, s: State, a: Action)
    requires me < |s.members| && Enabled(cfg, s, a) && !Mine(a, me)
    ensures var t := Next(cfg, s, a);
            && |t.members| == |s.members|
            && KeepMember(s.members[me], t.members[me])
            && |t.members[me].hist| == |s.members[me].hist| + (if Edits(a, me) then 1 else 0)
            && t.members[me].wrote == s.members[me].wrote && t.members[me].failed == s.members[me].failed
            && NoTool(t.members[me].log, |s.members[me].log|, |t.members[me].log|)
            && SameToolPart(s.members[me].node, t.members[me].node)
  {
    if Edits(a, me) {
      AdminKeepsToolPart(s.members[me].node, a.change);
    } else {
      assert Next(cfg, s, a).members[me] == s.members[me];
    }
  }

  lemma ServerRely(cfg: Config, me: nat, s: State, a: Action)
    requires ValidConfig(cfg) && Inv(cfg, s) && me < |cfg.names|
    requires Enabled(cfg, s, a) && !Mine(a, me) && (a.Foreign? || a.LateCommit? || a.WriteLock?)
    ensures var t := Next(cfg, s, a);
            && s.hist <= t.hist && s.log <= t.log && |t.hist| == |s.hist| + 1
            && (cfg.late || NoOwn(t.log, |s.log|, |t.log|, cfg.names[me]))
  {
    if a.WriteLock? {
      assert MemberOk(cfg, s, a.i);
      SameName(cfg, a.i, me);
    }
  }

  class Cluster {
    const cfg: Config
    const me: nat
    var s: State
    var meter: Meter
    var watch: Watching
    var exited: Pc                             // at which point the process last ended
    var tick: nat
    const others: nat -> seq<Action>           // what the others try before the k-th call
    const fate: nat -> Fate                    // what becomes of the k-th call
    const upgrades: nat -> (HostStatus, Option<string>)
    const kubectl: nat -> (bool, bool)         // whether a drain cordons, and whether it succeeds
    const jitter: nat -> nat                   // the random part of a retry pause
    const timers: nat -> bool                  // whether the timer of a watch fires before its next event

    constructor (cfg: Config, me: nat, s: State, fuel: nat, others: nat -> seq<Action>, fate: nat -> Fate,
                 upgrades: nat -> (HostStatus, Option<string>), kubectl: nat -> (bool, bool), jitter: nat -> nat,
                 timers: nat -> bool)
      requires ValidConfig(cfg) && me < |cfg.names| && Reachable(cfg, s)
      ensures Valid() && this.cfg == cfg && this.me == me && this.s == s
      ensures meter == Meter(fuel, 0, 0, 0, 0, 0, [], [], [], [])
    {
      this.cfg, this.me, this.s, this.meter, this.tick := cfg, me, s, Meter(fuel, 0, 0, 0, 0, 0, [], [], [], []), 0;
      this.others, this.fate, this.upgrades, this.kubectl, this.jitter := others, fate, upgrades, kubectl, jitter;
      this.watch, this.timers, this.exited := Watching(0, 0, 0, 0, None), timers, Down;
      new;
      ShapeHolds(cfg, s, me);
    }

    ghost predicate Valid()
      reads this`s
    {
      ValidConfig(cfg) && Reachable(cfg, s) && Shape(cfg, s, me)
    }

    function Me(): Member
      requires me < |s.members|
      reads this`s
    {
      s.members[me]
    }

    function Name(): string
      requires me < |cfg.names|
    {
      cfg.names[me]
    }

    /** Never grows while others take steps: a commit of theirs costs fuel. */
    ghost function Budget(): nat
      reads this
    {
      meter.fuel + |s.hist|
    }

    /** Time has not run backwards, and nothing was forgotten. */
    ghost predicate Since(t: State, m: Meter)
      reads this
    {
      t.now <= s.now && |t.log| <= |s.log| && Onward(m, meter)
    }

    /** The change to the DaemonSet that the current call is about. */
    function Intent(): LockMod
      requires me < |s.members| && me < |cfg.names|
      reads this`s
    {
      if Me().pc.Acquiring? then Take(Name()) else Drop(Name())
    }

    predicate Expired(ctx: Context)
      reads this`s
    {
      Past(ctx, s.now)
    }

    // -------------------------------------------------------------- everybody else

    /** A step of the protocol. */
    method Step(a: Action)
      requires Valid() && Enabled(cfg, s, a)
      modifies this`s
      ensures Valid() && s == Next(cfg, old(s), a)
    {
      ReachNext(cfg, s, a);
      s := Next(cfg, s, a);
      ShapeHolds(cfg, s, me);
    }

    method WriteDaemonSet(mod: LockMod)
      requires Valid() && MayWriteLock(Name(), Me().pc, s.ds, mod)
      modifies this`s
      ensures Valid() && s == LockWritten(old(s), me, mod)
    {
      Step(WriteLock(me, mod));
    }

    method GiveUp(version: nat, mod: LockMod)
      requires Valid() && cfg.late && version < |s.hist| && MayWriteLock(Name(), Me().pc, s.hist[version], mod)
      modifies this`s
      ensures Valid() && s == Abandoned(old(s), me, version, mod)
    {
      Step(Abandon(me, version, mod));
    }

    method WriteOwnNode(mod: NodeMod)
      requires Valid() && MayWriteNode(Me(), mod)
      modifies this`s
      ensures Valid() && s == NodeWritten(old(s), me, mod)
    {
      Step(WriteNode(me, mod));
    }

    /** Somebody else takes a step. */
    method Disturb(a: Action)
      requires Valid() && Enabled(cfg, s, a) && !Mine(a, me) && meter.fuel > 0
      modifies this`s, this`meter
      ensures Valid() && Rely(cfg, me, old(s), s)
      ensures Spent(old(meter), meter) && meter.faults == old(meter.faults) && Budget() <= old(Budget())
      ensures |Me().hist| == |old(Me()).hist| + meter.edits - old(meter.edits)
    {
      OthersRely(cfg, me, s, a);
      Step(a);
      meter := meter.(fuel := meter.fuel - 1, edits := meter.edits + if Edits(a, me) then 1 else 0);
    }

    /** Others take any number of steps. Every step costs fuel, so the commits are bounded by it. */
    method Interfere()
      requires Valid()
      modifies this`s, this`meter, this`tick
      ensures Valid() && Rely(cfg, me, old(s), s)
      ensures Spent(old(meter), meter) && meter.faults == old(meter.faults) && Budget() <= old(Budget())
      ensures |Me().hist| == |old(Me()).hist| + meter.edits - old(meter.edits)
    {
      var todo := others(tick);
      tick := tick + 1;
      while todo != [] && meter.fuel > 0
        invariant Valid() && Rely(cfg, me, old(s), s)
        invariant Spent(old(meter), meter) && meter.faults == old(meter.faults) && Budget() <= old(Budget())
        invariant |Me().hist| == |old(Me()).hist| + meter.edits - old(meter.edits)
        decreases |todo|
      {
        if Enabled(cfg, s, todo[0]) && !Mine(todo[0], me) {
          ghost var before := s;
          Disturb(todo[0]);
          RelyTransitive(cfg, me, old(s), before, s);
        }
        todo := todo[1..];
      }
    }

    /** Whether the current call goes wrong. */
    method Fault() returns (f: Fate)
      requires Valid()
      modifies this`meter
      ensures Valid()
      ensures f.Good? ==> meter == old(meter)
      ensures !f.Good? ==>
                && old(meter.fuel) > 0
                && meter == old(meter).(fuel := old(meter.fuel) - 1, faults := old(meter.faults) + 1)
    {
      f := if meter.fuel == 0 then Good else fate(tick);
      if !f.Good? {
        meter := meter.(fuel := meter.fuel - 1, faults := meter.faults + 1);
      }
    }

    /** Time passes, and others take steps. */
    method Pass(d: nat)
      requires Valid()
      modifies this`s, this`meter, this`tick
      ensures Valid() && Rely(cfg, me, old(s), s)
      ensures Spent(old(meter), meter) && meter.faults == old(meter.faults) && Budget() <= old(Budget())
      ensures s.now >= old(s).now + d
    {
      OthersRely(cfg, me, s, Tick(d));
      Step(Tick(d));
      ghost var mid := s;
      Interfere();
      RelyTransitive(cfg, me, old(s), mid, s);
    }

    method PassUntil(t: int)
      requires Valid()
      modifies this`s, this`meter, this`tick
      ensures Valid() && Rely(cfg, me, old(s), s)
      ensures Spent(old(meter), meter) && meter.faults == old(meter.faults) && Budget() <= old(Budget())
      ensures s.now >= t
    {
      Pass(if s.now < t then t - s.now else 0);
    }

    method Sleep(d: nat, why: Pause)
      requires Valid()
      modifies this`s, this`meter, this`tick
      ensures Valid() && Rely(cfg, me, old(s), s)
      ensures Spent(old(meter).(naps := old(meter.naps) + [Nap(old(s.now), d, why)]), meter)
      ensures meter.faults == old(meter.faults) && Budget() <= old(Budget())
      ensures s.now >= old(s).now + d
    {
      meter := meter.(naps := meter.naps + [Nap(s.now, d, why)]);
      Pass(d);
    }

    /** The random part of a pause. */
    method Jitter(limit: nat) returns (d: nat)
      requires limit > 0
      ensures d < limit
    {
      d := jitter(tick) % limit;
    }

    // -------------------------------------------------------------- steps of this process

    /** The process goes on to its next call. */
    method Advance(to: Pc)
      requires Valid() && CanMove(cfg, s, me, to)
      modifies this`s
      ensures Valid() && s == With(old(s), me, Moved(old(Me()), to))
    {
      Step(Move(me, to));
    }

    /** The scheduler calls the run. */
    method BeginRun(ctx: Context)
      requires Valid() && Me().pc.Idle?
      modifies this`s, this`meter
      ensures Valid() && s == With(old(s), me, Moved(old(Me()), Acquiring))
      ensures meter == Begun(old(meter), ctx)
    {
      Advance(Acquiring);
      meter := Begun(meter, ctx);
    }

    /** The process ends. */
    method Exit()
      requires Valid()
      modifies this`s, this`exited
      ensures Valid() && s == With(old(s), me, old(Me()).(pc := Down, wrote := false)) && exited == old(Me()).pc
    {
      exited := Me().pc;
      Step(Crash(me));
    }

    // -------------------------------------------------------------- the DaemonSet

    method GetDaemonSet() returns (r: Option<(nat, DaemonSet)>)
      requires Valid()
      modifies this`s, this`meter, this`tick
      ensures Valid() && Rely(cfg, me, old(s), s)
      ensures Spent(Got(old(meter), old(s.now)), meter) && Budget() <= old(Budget())
      ensures r.Some? ==> r.value == (|s.hist| - 1, s.ds)
      ensures r.None? ==> meter.faults > old(meter.faults)
    {
      meter := Got(meter, s.now);
      Interfere();
      var f := Fault();
      r := if f.Good? then Some((|s.hist| - 1, s.ds)) else None;
    }

    /** The server replaces the object when the submitted version is the current one. A request
        whose reply is lost may have been applied, or be applied later. */
    method UpdateDaemonSet(version: nat, content: DaemonSet) returns (reply: Reply, ghost mid: State)
      requires Valid() && version < |s.hist|
      requires MayWriteLock(Name(), Me().pc, s.hist[version], Intent())
      requires content == ApplyLock(s.hist[version], Intent())
      modifies this`s, this`meter, this`tick
      ensures Valid() && Rely(cfg, me, old(s), mid) && Shape(cfg, mid, me) && s.now == mid.now
      ensures Spent(if reply.Conflict? then Refused(old(meter)) else old(meter), meter)
      ensures meter.fuel + |mid.hist| <= old(Budget())
      ensures reply.Accepted? ==> version + 1 == |mid.hist| && s == LockWritten(mid, me, old(Intent()))
      ensures reply.Conflict? ==> version + 1 < |s.hist| && s == mid
      ensures reply.Failed? ==>
                && meter.faults > old(meter.faults)
                && (s == mid || (version + 1 == |mid.hist| && s == LockWritten(mid, me, old(Intent())))
                    || (cfg.late && s == Abandoned(mid, me, version, old(Intent()))))
    {
      ghost var base := s.hist[version];
      Interfere();
      mid := s;
      assert s.hist[version] == base;
      reply := AnswerDaemonSet(version, content, Intent());
    }

    /** The server's side of an update. */
    method AnswerDaemonSet(version: nat, content: DaemonSet, mod: LockMod) returns (reply: Reply)
      requires Valid() && version < |s.hist|
      requires MayWriteLock(Name(), Me().pc, s.hist[version], mod)
      requires content == ApplyLock(s.hist[version], mod)
      modifies this`s, this`meter
      ensures Valid() && s.now == old(s.now)
      ensures Spent(if reply.Conflict? then Refused(old(meter)) else old(meter), meter)
      ensures reply.Accepted? ==> version + 1 == |old(s).hist| && s == LockWritten(old(s), me, mod)
      ensures reply.Conflict? ==> version + 1 < |s.hist| && s == old(s)
      ensures reply.Failed? ==>
                && meter.faults > old(meter.faults)
                && (s == old(s) || (version + 1 == |old(s).hist| && s == LockWritten(old(s), me, mod))
                    || (cfg.late && s == Abandoned(old(s), me, version, mod)))
    {
      var current := version == |s.hist| - 1;
      var f := Fault();
      if f.Late? && cfg.late {
        reply := Failed;
        GiveUp(version, mod);
      } else if f.Late? || f.Lost? || (f.Applied? && !current) {
        reply := Failed;
      } else if !current {
        reply := Conflict;
        meter := Refused(meter);
      } else {
        reply := if f.Good? then Accepted else Failed;
        StoreDaemonSet(content, mod);
      }
    }

    /** The process starts an attempt to take the lock. */
    method BeginTry(ctx: Context)
      requires Valid()
      modifies this`meter
      ensures Valid() && meter == Tried(old(meter), ctx, s.now)
    {
      meter := Tried(meter, ctx, s.now);
    }

    /** What the server stores is the submitted object. */
    method StoreDaemonSet(content: DaemonSet, mod: LockMod)
      requires Valid() && MayWriteLock(Name(), Me().pc, s.ds, mod) && content == ApplyLock(s.ds, mod)
      modifies this`s
      ensures Valid() && s == LockWritten(old(s), me, mod) && s.ds == content
    {
      WriteDaemonSet(mod);
    }

    /** Opens a watch on what comes after a version. */
    method OpenWatch(version: nat) returns (ok: bool)
      requires Valid()
      modifies this
      ensures Valid() && Rely(cfg, me, old(s), s)
      ensures Spent(old(meter), meter) && Budget() <= old(Budget())
      ensures if ok then watch == Watching(old(watch.count) + 1, version, version, s.now, None)
              else watch == old(watch) && meter.faults > old(meter.faults)
    {
      Interfere();
      var f := Fault();
      ok := f.Good?;
      if ok {
        watch := Watching(watch.count + 1, version, version, s.now, None);
      }
    }

    /** Waits for the watch from now on: with a timer, unless the timeout is zero or negative. */
    method SetTimer(timeout: int)
      requires Valid()
      modifies this`watch
      ensures watch == old(watch).(since := s.now, expiry := if timeout > 0 then Some(s.now + timeout) else None)
    {
      watch := watch.(since := s.now, expiry := None);
      if timeout > 0 {
        watch := watch.(expiry := Some(s.now + timeout));
      }
    }

    /** One event of the watch: the next change, if there is one. `Nothing` means that the watch goes on
        waiting, and `Never` that it does so for good, because nobody takes a step any more and it has no
        expiry time. With one it may end then, whatever it has not delivered yet. */
    method NextEvent() returns (e: WatchEvent)
      requires Valid() && watch.seen < |s.hist|
      modifies this
      ensures Valid() && Rely(cfg, me, old(s), s)
      ensures Spent(old(meter), meter) && Budget() <= old(Budget())
      ensures watch == old(watch).(seen := if e.Modified? then old(watch.seen) + 1 else old(watch.seen))
      ensures e.Modified? ==> e.version == watch.seen < |s.hist| && e.ds == s.hist[watch.seen]
      ensures e.Nothing? || e.Never? ==> watch.seen + 1 == |s.hist|
      ensures e.Nothing? ==> meter.fuel < old(meter.fuel)
      ensures e.Unexpected? || e.Closed? ==> meter.faults > old(meter.faults)
      ensures e.TimedOut? ==> watch.expiry.Some? && s.now >= watch.expiry.value
      ensures e.Never? ==> watch.expiry.None? && meter.fuel == 0
    {
      if watch.expiry.Some? && timers(tick) {
        PassUntil(watch.expiry.value);
        return TimedOut;
      }
      Interfere();
      ghost var mid := s;
      var f := Fault();
      if !f.Good? {
        e := if f.Lost? then Closed else Unexpected;
      } else if watch.seen + 1 < |s.hist| {
        watch := watch.(seen := watch.seen + 1);
        e := Modified(watch.seen, s.hist[watch.seen]);
      } else if meter.fuel > 0 {
        meter := meter.(fuel := meter.fuel - 1);
        e := Nothing;
      } else if watch.expiry.Some? {
        PassUntil(watch.expiry.value);
        RelyTransitive(cfg, me, old(s), mid, s);
        e := TimedOut;
      } else {
        e := Never;
      }
    }

    // -------------------------------------------------------------- the Node

    method FetchNode() returns (r: Option<NodeReply>)
      requires Valid()
      modifies this
      ensures Valid() && Rely(cfg, me, old(s), s) && Spent(old(meter), meter)
      ensures |Me().hist| == |old(Me()).hist| + meter.edits - old(meter.edits)
      ensures r.Some? ==> r.value.version + 1 == |Me().hist| && r.value.node == Me().node
      ensures r.None? ==> meter.faults > old(meter.faults)
    {
      Interfere();
      var f := Fault();
      r := if f.Good? then Some(NodeReply(|Me().hist| - 1, Me().node)) else None;
    }

    /** Without a node name the call fails. */
    method GetNode() returns (r: Option<NodeReply>)
      requires Valid()
      modifies this
      ensures Valid() && Rely(cfg, me, old(s), s)
      ensures Onward(Got(old(meter), old(s.now)), meter)
      ensures meter.gets == old(meter.gets) + 1 && meter.naps == old(meter.naps)
      ensures meter.conflicts == old(meter.conflicts)
      ensures |Me().hist| == |old(Me()).hist| + meter.edits - old(meter.edits)
      ensures r.Some? ==> r.value.version + 1 == |Me().hist| && r.value.node == Me().node && Name() != ""
      ensures r.None? ==> meter.faults > old(meter.faults)
    {
      meter := Got(meter, s.now);
      if Name() == "" {
        meter := meter.(faults := meter.faults + 1);
        Interfere();
        return None;
      }
      r := FetchNode();
    }

    ghost predicate IsCurrentNode(version: nat, node: Node)
      requires me < |s.members|
      reads this`s
    {
      version + 1 == |Me().hist| && Me().hist[version] == node && Me().node == node
    }

    /** The server stores what `Merge` says when the submitted version is the current one. `mod` names
        the change that the client made to the version it read. */
    method UpdateNode(version: nat, content: Node, status: bool, mod: NodeMod) returns (reply: Reply, ghost mid: State)
      requires Valid() && version < |Me().hist|
      requires MayWriteNode(Me().(node := Me().hist[version]), mod)
      requires Merge(Me().hist[version], content, status) == ApplyNode(Me().hist[version], mod)
      modifies this
      ensures Valid() && Rely(cfg, me, old(s), mid) && Shape(cfg, mid, me)
      ensures Spent(if reply.Conflict? then Refused(old(meter)) else old(meter), meter)
      ensures |mid.members[me].hist| == |old(Me()).hist| + meter.edits - old(meter.edits)
      ensures reply.Accepted? ==> version + 1 == |mid.members[me].hist| && s == NodeWritten(mid, me, mod)
      ensures reply.Conflict? ==> version + 1 < |Me().hist| && s == mid
      ensures reply.Failed? ==>
                && meter.faults > old(meter.faults)
                && (s == mid || (version + 1 == |mid.members[me].hist| && s == NodeWritten(mid, me, mod)))
    {
      ghost var base := Me().hist[version];
      Interfere();
      mid := s;
      assert Me().hist[version] == base;
      reply := AnswerNode(version, content, status, mod);
    }

    method AnswerNode(version: nat, content: Node, status: bool, mod: NodeMod) returns (reply: Reply)
      requires Valid() && version < |Me().hist|
      requires MayWriteNode(Me().(node := Me().hist[version]), mod)
      requires Merge(Me().hist[version], content, status) == ApplyNode(Me().hist[version], mod)
      modifies this`s, this`meter
      ensures Valid() && meter.edits == old(meter.edits)
      ensures Spent(if reply.Conflict? then Refused(old(meter)) else old(meter), meter)
      ensures reply.Accepted? ==> version + 1 == |old(Me()).hist| && s == NodeWritten(old(s), me, mod)
      ensures reply.Conflict? ==> version + 1 < |Me().hist| && s == old(s)
      ensures reply.Failed? ==>
                && meter.faults > old(meter.faults)
                && (s == old(s) || (version + 1 == |old(Me()).hist| && s == NodeWritten(old(s), me, mod)))
    {
      var current := version == |Me().hist| - 1;
      var f := Fault();
      if f.Late? || f.Lost? || (f.Applied? && !current) {
        reply := Failed;
      } else if !current {
        reply := Conflict;
        meter := Refused(meter);
      } else {
        reply := if f.Good? then Accepted else Failed;
        Store(content, status, mod);
      }
    }

    /** What the server stores is the submitted object, or its status. */
    method Store(content: Node, status: bool, mod: NodeMod)
      requires Valid() && MayWriteNode(Me(), mod) && Merge(Me().node, content, status) == ApplyNode(Me().node, mod)
      modifies this`s
      ensures Valid() && s == NodeWritten(old(s), me, mod) && Me().node == Merge(old(Me()).node, content, status)
    {
      WriteOwnNode(mod);
    }

    // -------------------------------------------------------------- the host

    /** This process holds the lock, and no other process is critical. */
    ghost predicate Alone()
      requires me < |cfg.names|
      reads this`s
    {
      && LockValue(s.ds) == Name()
      && forall j :: 0 <= j < |s.members| && j != me ==> !Critical(s.members[j])
    }

    lemma CriticalIsAlone()
      requires Valid() && Critical(Me())
      ensures Alone()
    {
      MutualExclusion(cfg, s, me, me);
      forall j | 0 <= j < |s.members| && j != me ensures !Critical(s.members[j]) {
        if Critical(s.members[j]) { MutualExclusion(cfg, s, me, j); }
      }
    }

    /** The host upgrades; only the one process that holds the lock may call this. Whatever others do
        meanwhile, it is still alone when the upgrade is done. */
    method HostUpgrade() returns (status: HostStatus, err: Option<string>)
      requires Valid() && Me().pc.Upgrading? && Alone()
      modifies this
      ensures Valid() && Since(old(s), Did(old(meter), Upgraded(status, err))) && Alone()
      ensures Me().pc == Reporting(status, err) && !Me().wrote
    {
      Interfere();
      var (st, er) := upgrades(tick);
      status, err := st, er;
      meter := Did(meter, Upgraded(status, err));
      Advance(Reporting(status, err));
      CriticalIsAlone();
    }

    /** `kubectl drain`: may cordon the node, and may then fail. */
    method KubectlDrain() returns (ok: bool)
      requires Valid() && Me().pc.Cordoning? && !Me().wrote
      modifies this
      ensures Valid() && Since(old(s), Did(old(meter), KubectlDrained(ok))) && Me().pc.Cordoning?
      ensures ToolValue(Me().node, DrainKey) == ToolValue(old(Me()).node, DrainKey)
    {
      var (cordon, done) := kubectl(tick);
      ok := done;
      Interfere();
      if cordon {
        Cordon();
      }
      meter := Did(meter, KubectlDrained(ok));
      Interfere();
    }

    method Cordon()
      requires Valid() && Me().pc.Cordoning? && !Me().wrote
      modifies this`s
      ensures Valid() && Me().pc.Cordoning? && s.now == old(s.now) && s.log == old(s.log)
      ensures ToolValue(Me().node, DrainKey) == ToolValue(old(Me()).node, DrainKey)
    {
      WriteOwnNode(NodeMod.Cordon);
    }

    /** Asks the host to shut down and boot again. */
    method RequestReboot() returns (ok: bool)
      requires Valid() && Me().pc.Rebooting? && Alone()
      requires cfg.drain ==> Marked(Me())
      modifies this
      ensures Valid() && Since(old(s), Did(old(meter), RebootRequested(ok)))
      ensures !ok ==> meter.faults > old(meter.faults)
      ensures if ok then Me().pc.Waiting? && Me().issued else Me().pc.Rebooting?
      ensures ToolValue(Me().node, RebootKey) == ToolValue(old(Me()).node, RebootKey)
    {
      Interfere();
      var f := Fault();
      ok := f.Good?;
      meter := Did(meter, RebootRequested(ok));
      if ok { Advance(Waiting); }
    }
  }

  /** `Update` replaces the metadata and the spec, `UpdateStatus` the status. */
  function Merge(stored: Node, submitted: Node, status: bool): Node {
    if status then stored.(conditions := submitted.conditions) else submitted.(conditions := stored.conditions)
  }

  function LockWritten(s: State, i: nat, mod: LockMod): State {
    if i < |s.members| then With(Commit(s, mod), i, s.members[i].(wrote := true)) else s
  }

  function Abandoned(s: State, i: nat, version: nat, mod: LockMod): State {
    if i < |s.members| then
      With(s.(late := s.late + {Request(i, version, mod, s.members[i].pc == Releasing(true))}), i,
           if mod.Drop? then s.members[i].(pc := Down, wrote := false) else s.members[i])
    else s
  }

  /** The latest version of the DaemonSet is the one before changed by `mod`, and by nothing else; and in
      the one before the lock was available to the process that took it, or its own that it removed. */
  ghost predicate JustCommitted(s: State, mod: LockMod) {
    && |s.hist| >= 2 && s.log != [] && s.log[|s.log| - 1] == mod
    && s.ds == s.hist[|s.hist| - 1]
    && s.ds == ApplyLock(s.hist[|s.hist| - 2], mod) && Fits(s.hist[|s.hist| - 2], mod)
  }

  /** A get-modify-update of the lock made exactly one commit of its own, which is the latest. */
  ghost predicate Committed(cfg: Config, me: nat, a: State, b: State, mod: LockMod)
    requires me < |cfg.names|
  {
    && Keep(me, a, b) && b.members[me].wrote
    && |a.log| < |b.log| && |a.hist| < |b.hist| && JustCommitted(b, mod)
    && (cfg.late || NoOwn(b.log, |a.log|, |b.log| - 1, cfg.names[me]))
    && SameToolPart(a.members[me].node, b.members[me].node)
  }

  /** The process does not know whether its update will still be committed. A release that failed
      like this ends the process. */
  ghost predicate InDoubt(me: nat, a: State, b: State, mod: LockMod) {
    && me < |a.members| && |b.members| == |a.members|
    && a.hist <= b.hist && a.log <= b.log && a.now <= b.now
    && SameToolPart(a.members[me].node, b.members[me].node)
    && b.members[me].missed == a.members[me].missed && b.members[me].bootSeen == a.members[me].bootSeen
    && if mod.Drop? then b.members[me].pc.Down? else Keep(me, a, b)
  }

  /** How a get-modify-update of the lock ends: with one commit, or with an error and none, or one
      whose reply was lost, or one in doubt. */
  ghost predicate Finished(cfg: Config, me: nat, a: State, b: State, mod: LockMod, ok: bool)
    requires me < |cfg.names|
  {
    if ok then Committed(cfg, me, a, b, mod)
    else Rely(cfg, me, a, b) || Committed(cfg, me, a, b, mod) || (cfg.late && InDoubt(me, a, b, mod))
  }

  lemma FinishedLater(cfg: Config, me: nat, a: State, b: State, c: State, mod: LockMod, ok: bool)
    requires me < |cfg.names| && Rely(cfg, me, a, b) && Finished(cfg, me, b, c, mod, ok)
    ensures Finished(cfg, me, a, c, mod, ok)
  {
    if Rely(cfg, me, b, c) {
      RelyTransitive(cfg, me, a, b, c);
    }
  }

  lemma WrittenCommits(cfg: Config, me: nat, s: State, mod: LockMod)
    requires me < |cfg.names| && Shape(cfg, s, me) && ByTool(mod) && mod.value == cfg.names[me] && Fits(s.ds, mod)
    ensures Committed(cfg, me, s, LockWritten(s, me, mod), mod)
  {
  }

  lemma AbandonedInDoubt(cfg: Config, me: nat, s: State, version: nat, mod: LockMod)
    requires Shape(cfg, s, me) && ByTool(mod)
    ensures InDoubt(me, s, Abandoned(s, me, version, mod), mod)
  {
  }

  lemma MayWriteFits(name: string, pc: Pc, base: DaemonSet, mod: LockMod)
    requires MayWriteLock(name, pc, base, mod)
    ensures ByTool(mod) && mod.value == name && Fits(base, mod)
  {
  }

  /** How the answer to an update ends a get-modify-update. */
  lemma AnswerFinishes(cfg: Config, me: nat, before: State, mid: State, after: State, version: nat, mod: LockMod,
                       reply: Reply)
    requires me < |cfg.names| && Rely(cfg, me, before, mid) && Shape(cfg, mid, me)
    requires ByTool(mod) && mod.value == cfg.names[me] && !reply.Conflict?
    requires version < |mid.hist| && Fits(mid.hist[version], mod)
    requires reply.Accepted? ==> version + 1 == |mid.hist| && after == LockWritten(mid, me, mod)
    requires reply.Failed? ==>
               || after == mid || (version + 1 == |mid.hist| && after == LockWritten(mid, me, mod))
               || (cfg.late && after == Abandoned(mid, me, version, mod))
    ensures Finished(cfg, me, before, after, mod, reply.Accepted?)
  {
    if version + 1 == |mid.hist| && after == LockWritten(mid, me, mod) {
      WrittenCommits(cfg, me, mid, mod);
      FinishedLater(cfg, me, before, mid, after, mod, reply.Accepted?);
    } else if after != mid {
      AbandonedInDoubt(cfg, me, mid, version, mod);
      FinishedLater(cfg, me, before, mid, after, mod, false);
    }
  }

  function NodeWritten(s: State, i: nat, mod: NodeMod): State {
    if i < |s.members| then With(s, i, Wrote(s.members[i], mod)) else s
  }

  /** What the calls need to know of a reachable state. */
  ghost predicate Shape(cfg: Config, s: State, me: nat) {
    && |s.members| == |cfg.names| && me < |s.members|
    && s.hist != [] && s.hist[|s.hist| - 1] == s.ds && |s.hist| == |s.log| + 1
    && s.members[me].hist != [] && s.members[me].hist[|s.members[me].hist| - 1] == s.members[me].node
  }

  lemma ShapeHolds(cfg: Config, s: State, me: nat)
    requires ValidConfig(cfg) && Reachable(cfg, s) && me < |cfg.names|
    ensures Shape(cfg, s, me)
  {
    InvHolds(cfg, s);
    assert MemberOk(cfg, s, me);
  }
}
