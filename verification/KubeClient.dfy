/** The kube side of a run: recovery when the process starts, taking and releasing the lock, draining
    and marking the node. */
module KubeClient {
  import opened Wrappers
  import opened Annotations
  import opened Conditions
  import opened DaemonSets
  import opened Nodes
  import opened Times
  import opened Protocol
  import opened Invariant
  import opened Safety
  import opened World
  import opened LockClient
  import NodeClient

  /** From an instant on every attempt to take the lock was made with this context, began before its deadline,
      and read the server and watched it accordingly. */
  ghost predicate InTime(ctx: Context, from: nat, am: Meter, aw: Watching, now: nat, bm: Meter, bw: Watching) {
    && TriedWith(ctx, am.tries, bm.tries)
    && (if bm.tries == am.tries then now == from else !Past(ctx, from))
    && WatchedFor(ctx, aw, from, bw, now)
    && (bm.gets > am.gets ==> !Past(ctx, bm.looked))
  }

  lemma InTimeNext(ctx: Context, from: nat, am: Meter, aw: Watching, mid: nat, bm: Meter, bw: Watching,
                   now: nat, cm: Meter, cw: Watching)
    requires InTime(ctx, from, am, aw, mid, bm, bw) && !Past(ctx, mid) && from <= mid <= now
    requires cm.tries == bm.tries + [Try(ctx, mid)] && WatchedFor(ctx, bw, mid, cw, now) && !Past(ctx, cm.looked)
    ensures InTime(ctx, from, am, aw, now, cm, cw)
  {
    TriedNext(ctx, am.tries, bm.tries, mid);
    WatchedNext(ctx, aw, from, bw, mid, cw, now);
  }

  class Kube {
    const world: Cluster
    const lock: Lock
    const node: NodeClient.Node

    constructor (world: Cluster, steps: nat)
      requires world.Valid() && steps > 0
      ensures this.world == world && Valid() && node.steps == steps
    {
      this.world := world;
      this.lock := new Lock(world);
      this.node := new NodeClient.Node(world, steps);
    }

    ghost predicate Valid()
      reads this, world, lock, node
    {
      lock.world == world && node.world == world && lock.Valid() && node.Valid()
    }

    /** A call failed since, or others kept changing the Node. */
    ghost predicate Hindered(before: Meter)
      reads this, world, node
    {
      Cause(before, world.meter, node.steps)
    }

    /** The same, twice over. */
    ghost predicate HinderedTwice(before: Meter)
      reads this, world, node
    {
      CauseTwice(before, world.meter, node.steps)
    }

    // -------------------------------------------------------------- recovery

    /** The node carries a reboot annotation that is unreadable, or the host has not booted in a later second
        than it says, as far as the process knows. */
    predicate Refuses(m: Member) {
      RebootKey in m.node.annotations &&
      var mark := m.node.annotations[RebootKey];
      !mark.Stamp? || m.bootSeen == ZERO_TIME || m.boot / 1_000_000_000 <= mark.time / 1_000_000_000
    }

    /** Checks that the host rebooted if it was marked to. It never passes while the mark is not older
        than the boot, and without a node name. Once it has passed, either the mark is gone and the
        reboot was reported, or the report failed and the mark, which is older than the boot, stays. It fails
        before the report, or after it, when the mark cannot be removed, but never because of it. */
    method ClearNodeReboot() returns (err: Option<Error>)
      requires Valid() && world.Me().pc.CheckReboot?
      modifies world
      ensures Valid() && world.Since(old(world.s), old(world.meter))
      ensures err.None? ==> world.Me().pc.ClearDrain? && !world.Me().wrote && !Marked(world.Me())
      ensures Refuses(old(world.Me())) || Marked(old(world.Me())) || world.Name() == "" ==> err.Some?
      ensures err.Some? ==>
                if world.Me().pc.CheckReboot? then CheckFailed(err.value, old(world.Me()), old(world.meter))
                else world.Me().pc.ClearMark? && SaysRebooted(old(world.s.now)) && Hindered(old(world.meter))
      ensures err.None? ==> ReportedOrKept(old(world.s), old(world.meter))
      ensures RebootKey !in old(world.Me()).node.annotations ==> RebootKey !in world.Me().node.annotations
    {
      ChecksBoot();
      var value := node.GetAnnotation(RebootKey);
      if value.Err? {
        return Some(value.error);
      }
      if value.value.None? {
        world.Advance(ClearDrain);
        PastCheckUnmarked();
        return None;
      }
      err := PassMark(value.value.value);
    }

    /** The check of a node with a mark. */
    method PassMark(mark: Value) returns (err: Option<Error>)
      requires Valid() && world.Me().pc.CheckReboot? && world.Name() != ""
      requires ToolValue(world.Me().node, RebootKey) == Some(mark)
      modifies world
      ensures Valid() && world.Since(old(world.s), old(world.meter))
      ensures err.None? ==> world.Me().pc.ClearDrain? && !world.Me().wrote && !Marked(world.Me())
      ensures Refuses(old(world.Me())) ==> err.Some?
      ensures err.Some? ==>
                if world.Me().pc.CheckReboot? then
                  (err.value.BadAnnotation? || err.value.StillRebooting?) && Refuses(old(world.Me()))
                else world.Me().pc.ClearMark? && SaysRebooted(old(world.s.now)) && Hindered(old(world.meter))
      ensures err.None? ==> ReportedOrKept(old(world.s), old(world.meter))
    {
      ChecksBoot();
      if !mark.Stamp? {
        return Some(BadAnnotation);
      }
      if !(world.Me().bootSeen > mark.time) {
        return Some(StillRebooting);
      }
      world.Advance(SetRebooted);
      var reported;
      reported, err := FinishReboot();
    }

    /** The check itself fails: the node cannot be read, or its mark is refused. */
    ghost predicate CheckFailed(e: Error, m: Member, before: Meter)
      reads this, world
    {
      if e.GetFailed? then world.meter.faults > before.faults
      else (e.BadAnnotation? || e.StillRebooting?) && Refuses(m)
    }

    /** The node says since when it has rebooted, in a report made since. */
    ghost predicate SaysRebooted(since: nat)
      requires world.Valid()
      reads this, world
    {
      ShowsReboot(world.Me().node.conditions, False, Rebooted, world.Me().bootSeen, since, world.s.now)
    }

    /** What becomes of a mark: it stays as it was, when the report failed, or it is removed and the reboot
        reported. */
    ghost predicate ReportedOrKept(from: State, before: Meter)
      requires world.Valid()
      reads this, world, node
    {
      world.me < |from.members| &&
      (RebootKey in from.members[world.me].node.annotations ==>
        if RebootKey in world.Me().node.annotations then
          && ToolValue(world.Me().node, RebootKey) == ToolValue(from.members[world.me].node, RebootKey)
          && Hindered(before)
        else SaysRebooted(from.now))
    }

    /** Reports that the host has rebooted and removes the mark. If the report fails, that is only logged:
        the mark stays, and there is no error. An error means that the removal failed. */
    method FinishReboot() returns (reported: bool, err: Option<Error>)
      requires Valid() && world.Me().pc.SetRebooted? && !world.Me().wrote && RebootKey in world.Me().node.annotations
      modifies world
      ensures Valid() && world.Since(old(world.s), old(world.meter))
      ensures err.None? ==> world.Me().pc.ClearDrain? && !world.Me().wrote && !Marked(world.Me())
      ensures err.None? ==> (RebootKey in world.Me().node.annotations <==> !reported)
      ensures reported ==> SaysRebooted(old(world.s.now))
      ensures !reported ==> err.None?
      ensures !reported ==> ToolValue(world.Me().node, RebootKey) == ToolValue(old(world.Me()).node, RebootKey)
      ensures err.Some? ==> world.Me().pc.ClearMark?
      ensures err.Some? || !reported ==> Hindered(old(world.meter))
    {
      reported := ReportRebooted();
      if reported {
        world.Advance(ClearMark);
        err := RemoveMark();
        if err.Some? {
          return;
        }
      }
      world.Advance(ClearDrain);
      PastCheckUnmarked();
      err := None;
    }

    method ReportRebooted() returns (reported: bool)
      requires Valid() && world.Me().pc.SetRebooted? && !world.Me().wrote
      modifies world
      ensures Valid() && world.Since(old(world.s), old(world.meter)) && world.Me().pc.SetRebooted?
      ensures ToolValue(world.Me().node, RebootKey) == ToolValue(old(world.Me()).node, RebootKey)
      ensures if reported then
                world.Me().wrote && SaysRebooted(old(world.s.now))
              else Hindered(old(world.meter))
    {
      ghost var now := world.s.now;
      var rebooted := MakeRebootConditionRebooted(world.Me().bootSeen, world.s.now);
      var failure := node.SetCondition([rebooted]);
      reported := failure.None?;
      if reported {
        NodeClient.WrittenReboot(world.Me(), world.Me().bootSeen, now);
      }
      if NodeClient.NodeCommitted(world.me, old(world.s), world.s, SetConditions([rebooted])) {
        NodeClient.CommitKeeps(world.me, old(world.s), world.s, SetConditions([rebooted]));
      }
    }

    method RemoveMark() returns (err: Option<Error>)
      requires Valid() && world.Me().pc.ClearMark? && !world.Me().wrote
      modifies world
      ensures Valid() && world.Since(old(world.s), old(world.meter)) && world.Me().pc.ClearMark?
      ensures err.None? ==> world.Me().wrote && RebootKey !in world.Me().node.annotations
      ensures world.Me().bootSeen == old(world.Me()).bootSeen
      ensures Get(world.Me().node.conditions, HostUpgradesReboot) ==
              Get(old(world.Me()).node.conditions, HostUpgradesReboot)
      ensures err.Some? ==> Hindered(old(world.meter))
    {
      err := node.ClearAnnotation(RebootKey);
      if NodeClient.NodeCommitted(world.me, old(world.s), world.s, NodeMod.ClearAnnotation(RebootKey)) {
        NodeClient.CommitKeeps(world.me, old(world.s), world.s, NodeMod.ClearAnnotation(RebootKey));
      }
    }

    /** What the comparison of the two instants means. */
    lemma ChecksBoot()
      requires Valid() && !world.Me().pc.Down?
      ensures Marked(world.Me()) ==> Refuses(world.Me())
      ensures var m := world.Me();
              RebootKey in m.node.annotations && m.node.annotations[RebootKey].Stamp? ==>
                (m.bootSeen <= m.node.annotations[RebootKey].time <==> Refuses(m))
    {
      InvHolds(world.cfg, world.s);
      assert MemberOk(world.cfg, world.s, world.me);
      var m := world.Me();
      if RebootKey in m.node.annotations && m.node.annotations[RebootKey].Stamp? {
        RebootDetection(m.boot, m.node.annotations[RebootKey].time, m.bootSeen != ZERO_TIME);
      }
    }

    lemma PastCheckUnmarked()
      requires Valid() && PastCheck(world.Me())
      ensures !Marked(world.Me())
    {
      InvHolds(world.cfg, world.s);
      assert MemberOk(world.cfg, world.s, world.me);
    }

    /** Uncordons the node if the tool had drained it. */
    method ClearNodeDrain() returns (err: Option<Error>)
      requires Valid() && world.Me().pc.ClearDrain? && !world.Me().wrote
      modifies world
      ensures Valid() && world.Since(old(world.s), old(world.meter))
      ensures err.None? ==> world.Me().pc.TestLock? && !Drained(world.Me().node)
      ensures err.Some? ==> world.Me().pc.ClearDrain? && Hindered(old(world.meter))
      ensures SameReboot(old(world.Me()), world.Me())
    {
      var changed;
      changed, err := node.SetSchedulableIfAnnotated();
      if NodeClient.NodeCommitted(world.me, old(world.s), world.s, Uncordon(DrainKey)) {
        NodeClient.CommitKeeps(world.me, old(world.s), world.s, Uncordon(DrainKey));
      }
      if err.None? {
        world.Advance(TestLock);
      }
    }

    /** What the later steps of recovery leave alone. */
    ghost predicate SameReboot(m: Member, n: Member) {
      NodeClient.SameReboot(m, n) && n.bootSeen == m.bootSeen
    }

    /** Releases the lock if the node holds it. */
    method ClearLock() returns (err: Option<Error>)
      requires Valid() && world.Me().pc.TestLock?
      modifies world
      ensures Valid() && world.Since(old(world.s), old(world.meter))
      ensures err.None? ==> Clean()
      ensures SameReboot(old(world.Me()), world.Me())
      ensures err.Some? ==>
                && (world.Me().pc.TestLock? || world.Me().pc.ClearLock? || world.Me().pc.Down?)
                && ((err.value.Broken? && LostByRequest(old(world.s))) || world.meter.faults > old(world.meter.faults))
    {
      var holder, acquired;
      holder, acquired, err := lock.Test();
      if err.Some? {
        return;
      }
      if !acquired {
        world.Advance(Idle);
        IdleClean();
        return None;
      }
      err := ReleaseOwn();
    }

    method ReleaseOwn() returns (err: Option<Error>)
      requires Valid() && CanMove(world.cfg, world.s, world.me, Pc.ClearLock) && world.Me().pc.TestLock?
      modifies world
      ensures Valid() && world.Since(old(world.s), old(world.meter))
      ensures err.None? ==> Clean()
      ensures SameReboot(old(world.Me()), world.Me())
      ensures err.Some? ==>
                && (world.Me().pc.ClearLock? || world.Me().pc.Down?)
                && ((err.value.Broken? && LostByRequest(old(world.s))) || world.meter.faults > old(world.meter.faults))
    {
      world.Advance(Pc.ClearLock);
      ghost var before := world.s;
      err := lock.Release();
      if err.None? {
        world.Advance(Idle);
        IdleClean();
      } else if err.value.Broken? {
        LostSince(world.cfg, before, world.s, world.Name());
      }
    }

    /** The lock is not the node's own any more, since a release that it had given up on was committed. */
    ghost predicate LostByRequest(before: State)
      requires world.Valid()
      reads this, world
    {
      && world.cfg.late && LockValue(world.s.ds) != world.Name()
      && Dropped(world.s.log, |before.log|, |world.s.log|, world.Name())
    }

    /** Idle, not drained, not marked, and not holding the lock unless a request that was given up on
        can still commit. */
    ghost predicate Clean()
      requires Valid()
      reads this, world, lock, node
    {
      && world.Me().pc.Idle? && !Drained(world.Me().node) && !Marked(world.Me())
      && (world.cfg.late || LockValue(world.s.ds) != world.Name())
    }

    lemma IdleClean()
      requires Valid() && world.Me().pc.Idle?
      ensures Clean()
    {
      InvHolds(world.cfg, world.s);
      assert MemberOk(world.cfg, world.s, world.me);
    }

    /** Why recovery fails, by the point at which the process ended: before or after the report of the
        reboot, but not because of it. If the report failed there is a second reason. */
    ghost predicate RecoveryError(e: Error, at: Pc, from: State, before: Meter)
      requires world.Valid()
      reads this, world, node
    {
      world.me < |from.members| &&
      if at.CheckReboot? then CheckFailed(e, from.members[world.me], before)
      else if at.ClearMark? then SaysRebooted(from.now) && Hindered(before)
      else
        && (at.ClearDrain? || at.TestLock? || at.ClearLock? || at.Down?)
        && ReportedOrKept(from, before)
        && ((e.Broken? && LostByRequest(from)) ||
            if ReportLost(from) then HinderedTwice(before) else Hindered(before))
    }

    /** A mark is still there after the check has passed it. */
    ghost predicate ReportLost(from: State)
      requires world.Valid()
      reads this, world
    {
      && world.me < |from.members| && RebootKey in from.members[world.me].node.annotations
      && RebootKey in world.Me().node.annotations
    }

    /** The order of recovery: the host has rebooted, then the node is uncordoned, then the lock is
        released. Where one step fails the process ends. A report of the reboot that fails stops nothing. */
    method MakeKube() returns (err: Option<Error>)
      requires Valid() && world.Me().pc.CheckReboot?
      modifies world
      ensures Valid() && world.Since(old(world.s), old(world.meter))
      ensures err.None? ==> Clean() && ReportedOrKept(old(world.s), old(world.meter))
      ensures err.Some? ==> world.Me().pc.Down?
      ensures Refuses(old(world.Me())) || Marked(old(world.Me())) || world.Name() == "" ==> err.Some?
      ensures err.Some? ==> RecoveryError(err.value, world.exited, old(world.s), old(world.meter))
    {
      err := ClearNodeReboot();
      if err.None? {
        err := Recover(old(world.s), old(world.meter));
      }
      if err.Some? {
        world.Exit();
      }
    }

    /** Recovery after the check of the reboot. */
    method Recover(ghost from: State, ghost start: Meter) returns (err: Option<Error>)
      requires Valid() && world.Me().pc.ClearDrain? && !world.Me().wrote
      requires world.Since(from, start) && ReportedOrKept(from, start)
      modifies world
      ensures Valid() && world.Since(from, start) && ReportedOrKept(from, start)
      ensures err.None? ==> Clean()
      ensures err.Some? ==> !world.Me().pc.CheckReboot? && !world.Me().pc.ClearMark?
      ensures err.Some? ==> RecoveryError(err.value, world.Me().pc, from, start)
    {
      ghost var checked := world.meter;
      err := ClearNodeDrain();
      if err.None? {
        err := ClearLock();
      }
      if err.Some? && Hindered(checked) && ReportLost(from) {
        CausesAdd(start, checked, world.meter, node.steps);
      }
    }

    // -------------------------------------------------------------- the lock

    /** What was slept since: no sleep has begun in the future, the backoffs are the first ones of the
        sequence, and so much time has passed. */
    ghost predicate Slept(ctx: Context, first: seq<Nap>, since: nat)
      reads world
    {
      && first <= world.meter.naps
      && SleptUntil(ctx, Added(first, world.meter.naps), world.s.now)
      && world.s.now >= since + Sum(Backoffs(Added(first, world.meter.naps)))
    }

    /** How long to wait after the next failure. */
    ghost function NextWait(first: seq<Nap>): nat
      requires first <= world.meter.naps
      reads world
    {
      Wait(Waits(first))
    }

    /** How often it has backed off. */
    ghost function Waits(first: seq<Nap>): nat
      requires first <= world.meter.naps
      reads world
    {
      |Backoffs(Added(first, world.meter.naps))|
    }

    /** Attempts to acquire the lock until the context expires. Every failed attempt is followed by one
        backoff sleep, the k-th of `Wait(k)`, and there are no other sleeps but the short retries within
        an attempt; of each kind at most one begins after the deadline. It gives up only after an
        attempt, unless the context had expired before. A nil return means that this process alone is
        critical. */
    method AcquireLock(ctx: Context) returns (err: Option<Error>)
      requires Valid() && world.Me().pc.Acquiring?
      modifies world
      ensures Valid() && world.Since(old(world.s), old(world.meter).(tries := world.meter.tries))
      ensures err.None? ==> world.Me().pc.Upgrading? && world.Alone()
      ensures err.Some? ==> world.Me().pc.Acquiring? && (Timeout(ctx, err.value) || WaitsForGood(ctx, err.value))
      ensures TriedWith(ctx, old(world.meter.tries), world.meter.tries)
      ensures WatchedFor(ctx, old(world.watch), old(world.s.now), world.watch, world.s.now)
      ensures world.meter.gets > old(world.meter.gets) ==> ctx.Background? || world.meter.looked < ctx.at
      ensures old(world.meter.naps) <= world.meter.naps
      ensures var naps := Added(old(world.meter.naps), world.meter.naps);
              && Sleeps(naps) && Timely(ctx, naps)
              && world.s.now >= old(world.s.now) + Sum(Backoffs(naps))
      ensures |world.meter.tries| - |old(world.meter.tries)| ==
              Waits(old(world.meter.naps)) + (if err.None? || err == Some(Blocked) then 1 else 0)
      ensures |world.meter.tries| > |old(world.meter.tries)| <==> ctx.Background? || old(world.s.now) < ctx.at
      ensures Paced(old(world.meter), world.meter)
    {
      var wait := SECOND;
      while true
        invariant Valid() && world.Me().pc.Acquiring?
        invariant Worked(old(world.meter).(tries := world.meter.tries), world.meter)
        invariant InTime(ctx, old(world.s.now), old(world.meter), old(world.watch),
                         world.s.now, world.meter, world.watch)
        invariant |world.meter.tries| - |old(world.meter.tries)| == Waits(old(world.meter.naps))
        invariant |old(world.s).log| <= |world.s.log|
        invariant Slept(ctx, old(world.meter.naps), old(world.s.now))
        invariant wait == NextWait(old(world.meter.naps))
        invariant world.meter.gets - old(world.meter.gets) <= |world.meter.naps| - |old(world.meter.naps)|
        decreases world.meter.fuel, !world.Expired(ctx)
      {
        if world.Expired(ctx) {
          return Some(ContextDone);
        }
        ghost var head, metered, watched := world.s.now, world.meter, world.watch;
        err := TryAndBackOff(ctx, wait, old(world.meter.naps), old(world.s.now));
        InTimeNext(ctx, old(world.s.now), old(world.meter), old(world.watch), head, metered, watched,
                   world.s.now, world.meter, world.watch);
        if err.None? || err == Some(Blocked) {
          return;
        }
        wait := wait * 2;
        if wait > MINUTE {
          wait := MINUTE;
        }
      }
    }

    /** An attempt before the deadline, and the sleep after it failed. */
    method TryAndBackOff(ctx: Context, wait: nat, ghost first: seq<Nap>, ghost since: nat) returns (err: Option<Error>)
      requires Valid() && world.Me().pc.Acquiring? && !world.Expired(ctx)
      requires Slept(ctx, first, since) && wait == NextWait(first)
      modifies world
      ensures Valid() && Worked(Tried(old(world.meter), ctx, old(world.s.now)), world.meter)
      ensures Slept(ctx, first, since)
      ensures |old(world.s).log| <= |world.s.log| && old(world.s.now) <= world.s.now
      ensures WatchedFor(ctx, old(world.watch), old(world.s.now), world.watch, world.s.now)
      ensures world.meter.gets > old(world.meter.gets) && !Past(ctx, world.meter.looked)
      ensures Waits(first) == old(Waits(first)) + (if err.None? || err == Some(Blocked) then 0 else 1)
      ensures err.None? ==> world.Me().pc.Upgrading? && world.Alone()
      ensures err.Some? ==> world.Me().pc.Acquiring?
      ensures err == Some(Blocked) ==> WaitsForGood(ctx, err.value)
      ensures err.Some? && err != Some(Blocked) ==> world.meter.fuel < old(world.meter.fuel) || world.Expired(ctx)
      ensures err.Some? && err != Some(Blocked) ==> NextWait(first) == Min(2 * wait, MINUTE)
      ensures Paced(old(world.meter), world.meter)
      ensures err.Some? && err != Some(Blocked) ==>
                world.meter.gets - old(world.meter.gets) <= |world.meter.naps| - |old(world.meter.naps)|
    {
      err := TryLock(ctx);
      SleptAttempt(ctx, first, old(world.meter.naps), world.meter.naps, old(world.s.now), world.s.now);
      if err.Some? && err != Some(Blocked) {
        ghost var tried, nap := world.meter.naps, Nap(world.s.now, wait, Backoff);
        world.Sleep(wait, Backoff);
        assert world.meter.naps == tried + [nap];
        SleptBackoff(ctx, first, tried, nap, world.s.now);
      }
    }

    ghost predicate Timeout(ctx: Context, e: Error)
      reads this, world
    {
      e.ContextDone? && ctx.Deadline? && world.s.now >= ctx.at
    }

    /** The watch of an attempt has no timer, and nobody ever frees the lock, as nobody takes a step any
        more: the call does not return. */
    ghost predicate WaitsForGood(ctx: Context, e: Error)
      requires world.Valid()
      reads this, world
    {
      && e.Blocked? && (ctx.Background? || world.Expired(ctx))
      && !Available(world.s.ds, world.Name()) && world.meter.fuel == 0
    }

    /** One attempt before the deadline; an error means that a call failed, or that the deadline has passed. */
    method TryLock(ctx: Context) returns (err: Option<Error>)
      requires Valid() && world.Me().pc.Acquiring? && !world.Expired(ctx)
      modifies world
      ensures Valid() && Worked(Tried(old(world.meter), ctx, old(world.s.now)), world.meter)
      ensures world.s.now >= old(world.s.now)
      ensures WatchedFor(ctx, old(world.watch), old(world.s.now), world.watch, world.s.now)
      ensures world.meter.gets > old(world.meter.gets) && !Past(ctx, world.meter.looked)
      ensures |old(world.s).log| <= |world.s.log|
      ensures err.None? ==> world.Me().pc.Upgrading? && world.Alone()
      ensures err.Some? ==> world.Me().pc.Acquiring?
      ensures err.Some? ==> world.meter.fuel < old(world.meter.fuel) || world.Expired(ctx) || err == Some(Blocked)
      ensures err == Some(Blocked) ==> WaitsForGood(ctx, err.value)
      ensures RetriesBy(ctx, Added(old(world.meter.naps), world.meter.naps), world.s.now)
      ensures Paced(old(world.meter), world.meter)
    {
      err := lock.Acquire(ctx);
      if err.None? {
        world.Advance(Upgrading);
        world.CriticalIsAlone();
      }
    }

    /** Releases the lock of a run. The run holds it, so this never finds it broken. */
    method ReleaseLock() returns (err: Option<Error>)
      requires Valid() && world.Me().pc.Releasing? && !world.Me().wrote
      modifies world
      ensures Valid() && world.Since(old(world.s), old(world.meter))
      ensures Finished(world.cfg, world.me, old(world.s), world.s, Drop(world.Name()), err.None?)
      ensures err.Some? ==>
                (err.value.GetFailed? || err.value.UpdateFailed?) && world.meter.faults > old(world.meter.faults)
    {
      lock.NeverBroken();
      err := lock.Release();
    }

    // -------------------------------------------------------------- the node

    /** Reports the result of an upgrade, with the boot time that the process has read. A failure is only
        logged: the report is missing only if a call failed or others kept changing the Node. */
    method UpdateHostStatus(status: HostStatus, upgradeErr: Option<string>)
      requires Valid() && world.Me().pc == Reporting(status, upgradeErr) && !world.Me().wrote
      modifies world
      ensures Valid() && world.Since(old(world.s), old(world.meter))
      ensures world.Me().pc == Reporting(status, upgradeErr)
      ensures !world.Me().wrote ==> Hindered(old(world.meter))
      ensures world.Me().wrote ==>
                NodeClient.Reported(world.Me(), status, upgradeErr, old(world.s.now), world.s.now)
    {
      ghost var now := world.s.now;
      var batch := Report(world.Me().bootSeen, status, upgradeErr, world.s.now);
      var failure := node.SetCondition(batch);
      if world.Me().wrote {
        NodeClient.WrittenReport(world.Me(), status, upgradeErr, now);
      }
    }

    /** Annotates the node and lets kubectl drain it: the annotation is there before the cordon. A nil
        return means that kubectl has drained it, and `DrainFailed` that it was called and failed. */
    method DrainNode() returns (err: Option<Error>)
      requires Valid() && world.Me().pc.Draining? && !world.Me().wrote
      modifies world
      ensures Valid() && world.Since(old(world.s), old(world.meter).(deeds := world.meter.deeds))
      ensures world.meter.deeds == old(world.meter.deeds) +
                if err.None? || err == Some(DrainFailed) then [KubectlDrained(err.None?)] else []
      ensures err.None? ==> world.Me().pc.Cordoning?
      ensures world.Me().pc.Cordoning? ==> ToolValue(world.Me().node, DrainKey) == Some(Flag)
      ensures err.Some? ==> world.Me().pc.Draining? || world.Me().pc.Cordoning?
      ensures err.Some? ==> NodeError(err.value, old(world.meter)) || err == Some(DrainFailed)
    {
      err := node.SetAnnotation(DrainKey, Flag);
      if err.Some? {
        return;
      }
      world.Advance(Cordoning);
      var ok := world.KubectlDrain();
      err := if ok then None else Some(DrainFailed);
    }

    /** An update of the Node failed, and not without a cause. */
    ghost predicate NodeError(e: Error, before: Meter)
      reads this, world, node
    {
      NodeClient.Hindered(e, node.steps, before, world.meter)
    }

    lemma DrainedOrMarked()
      requires Valid()
      ensures world.Me().pc.Rebooting? && world.cfg.drain ==> Marked(world.Me())
      ensures world.Me().pc.Marking? ==> world.cfg.drain
    {
      InvHolds(world.cfg, world.s);
      assert MemberOk(world.cfg, world.s, world.me);
    }

    /** Marks the node for a reboot: the annotation first, then the condition. */
    method MarkReboot(rebootTime: nat) returns (err: Option<Error>)
      requires Valid() && world.Me().pc == Marking(rebootTime) && !world.Me().wrote
      modifies world
      ensures Valid() && world.Since(old(world.s), old(world.meter))
      ensures err.None? ==>
                && world.Me().pc.Rebooting? && Marked(world.Me())
                && ToolValue(world.Me().node, RebootKey) == Some(Stamp(rebootTime))
                && SaysRebooting(rebootTime, old(world.s.now))
      ensures err.Some? ==> world.Me().pc.Marking? || world.Me().pc.MarkCondition?
      ensures err.Some? ==> NodeError(err.value, old(world.meter))
    {
      err := Annotate(rebootTime);
      if err.Some? {
        return;
      }
      err := ReportRebooting(rebootTime);
      if err.None? {
        world.Advance(Pc.Rebooting);
        DrainedOrMarked();
      }
    }

    /** The node says since when it reboots, in a report made since. */
    ghost predicate SaysRebooting(rebootTime: nat, since: nat)
      requires world.Valid()
      reads this, world
    {
      ShowsReboot(world.Me().node.conditions, True, Reason.Rebooting, rebootTime, since, world.s.now)
    }

    method Annotate(rebootTime: nat) returns (err: Option<Error>)
      requires Valid() && world.Me().pc == Marking(rebootTime) && !world.Me().wrote
      modifies world
      ensures Valid() && world.Since(old(world.s), old(world.meter))
      ensures err.None? ==>
                && world.Me().pc == MarkCondition(rebootTime) && !world.Me().wrote && world.cfg.drain
                && ToolValue(world.Me().node, RebootKey) == Some(Stamp(rebootTime))
      ensures err.Some? ==> world.Me().pc.Marking? && NodeError(err.value, old(world.meter))
    {
      DrainedOrMarked();
      err := node.SetAnnotation(RebootKey, Stamp(rebootTime));
      if err.None? {
        world.Advance(MarkCondition(rebootTime));
      }
    }

    method ReportRebooting(rebootTime: nat) returns (err: Option<Error>)
      requires Valid() && world.Me().pc == MarkCondition(rebootTime) && !world.Me().wrote
      modifies world
      ensures Valid() && world.Since(old(world.s), old(world.meter)) && world.Me().pc == MarkCondition(rebootTime)
      ensures err.None? ==>
                && world.Me().wrote
                && ToolValue(world.Me().node, RebootKey) == ToolValue(old(world.Me()).node, RebootKey)
                && SaysRebooting(rebootTime, old(world.s.now))
      ensures err.Some? ==> NodeError(err.value, old(world.meter))
    {
      ghost var now := world.s.now;
      var rebooting := MakeRebootConditionRebooting(rebootTime, world.s.now);
      err := node.SetCondition([rebooting]);
      if err.None? {
        NodeClient.WrittenReboot(world.Me(), rebootTime, now);
        NodeClient.CommitKeeps(world.me, old(world.s), world.s, SetConditions([rebooting]));
      }
    }
  }
}
