/** One run of host upgrades, as the scheduler calls it. */
module Upgrades {
  import opened Wrappers
  import opened Annotations
  import opened Conditions
  import opened DaemonSets
  import opened Nodes
  import opened Times
  import opened Protocol
  import opened Invariant
  import opened World
  import opened LockClient
  import KubeClient
  import NodeClient

  /** What draining and rebooting did to the host, by how it ended: kubectl was called once in drain
      mode, and the host was asked to reboot only after kubectl had drained the node. */
  predicate RebootDeeds(drain: bool, err: Option<Error>, deeds: seq<Deed>) {
    if err.None? || err == Some(RebootFailed) then
      deeds == (if drain then [KubectlDrained(true)] else []) + [RebootRequested(err.None?)]
    else if err == Some(DrainFailed) then
      drain && deeds == [KubectlDrained(false)]
    else
      drain && NodeClient.ClientError(err.value) && (deeds == [] || deeds == [KubectlDrained(true)])
  }

  /** What the part of a run under the lock did to the host: it upgraded it once and first, and then
      rebooted it just when that is configured and the upgrade asked for it. */
  predicate LockedDeeds(cfg: Config, rebooting: bool, err: Option<Error>, deeds: seq<Deed>) {
    && deeds != [] && deeds[0].Upgraded?
    && if deeds[0].err.Some? then
         deeds == [deeds[0]] && err == Some(Error.UpgradeFailed(deeds[0].err.value)) && !rebooting
       else if cfg.reboot && deeds[0].status.rebootRequired then
         RebootDeeds(cfg.drain, err, deeds[1..]) && rebooting == err.None?
       else
         deeds == [deeds[0]] && err.None? && !rebooting
  }

  /** A run that never got the lock leaves the host alone; any other run upgrades it exactly once. */
  predicate RunDeeds(cfg: Config, err: Option<Error>, deeds: seq<Deed>) {
    if err.Some? && (err.value.ContextDone? || err.value.Blocked?) then deeds == []
    else if err == Some(ShutdownTimeout) then LockedDeeds(cfg, true, None, deeds)
    else LockedDeeds(cfg, false, err, deeds) || (ReleaseFailed(err) && LockedDeeds(cfg, false, None, deeds))
  }

  /** The run itself went well, and only giving the lock back did not. */
  predicate ReleaseFailed(err: Option<Error>) {
    err.Some? && (err.value.GetFailed? || err.value.UpdateFailed?)
  }

  lemma DeedsAppend(before: seq<Deed>, first: Deed, second: Deed)
    ensures before + [first] + [second] == before + [first, second]
    ensures [first] + [second] == [first, second]
  {
  }

  class Runner {
    const world: Cluster
    const kube: KubeClient.Kube
    const rebootTimeout: nat

    constructor (world: Cluster, kube: KubeClient.Kube, rebootTimeout: nat)
      requires kube.world == world && kube.Valid()
      ensures Valid() && this.world == world && this.kube == kube
    {
      this.world, this.kube, this.rebootTimeout := world, kube, rebootTimeout;
    }

    ghost predicate Valid()
      reads this, world, kube, kube.lock, kube.node
    {
      kube.world == world && kube.Valid()
    }

    /** Why the part of a run under the lock fails: the upgrade or the drain of the host did, or a call,
        or others kept changing the Node. */
    ghost predicate LockedError(e: Error, before: Meter)
      reads this, world, kube, kube.world, kube.node
    {
      if e.UpgradeFailed? || e.DrainFailed? then true
      else if e.RebootFailed? then world.meter.faults > before.faults
      else kube.NodeError(e, before)
    }

    /** Time has not run backwards, and nothing was forgotten. */
    ghost predicate Since(t: State, m: Meter)
      reads world
    {
      t.now <= world.s.now && |t.log| <= |world.s.log| && Ran(m, world.meter)
    }

    /** The node is marked with an instant since then. */
    ghost predicate MarkedSince(since: nat)
      requires world.Valid()
      reads this, world
    {
      var mark := ToolValue(world.Me().node, RebootKey);
      mark.Some? && mark.value.Stamp? && since <= mark.value.time <= world.s.now
    }

    /** Drains, marks and reboots, or only reboots. An error leaves it to the caller to release. */
    method Reboot() returns (err: Option<Error>, ghost deeds: seq<Deed>)
      requires Valid() && !world.Me().wrote
      requires world.cfg.reboot
      requires if world.cfg.drain then world.Me().pc.Draining? else world.Me().pc.Rebooting?
      modifies world
      ensures Valid() && Since(old(world.s), old(world.meter))
      ensures world.meter.deeds == old(world.meter.deeds) + deeds && RebootDeeds(world.cfg.drain, err, deeds)
      ensures err.None? ==> world.Me().pc.Waiting? && world.Me().issued
      ensures err.None? && world.cfg.drain ==> MarkedSince(old(world.s.now))
      ensures err.Some? ==>
                world.Me().pc == Releasing(true) && !world.Me().wrote && LockedError(err.value, old(world.meter))
    {
      if !world.cfg.drain {
        err := AskForReboot();
        deeds := [RebootRequested(err.None?)];
        return;
      }
      err, deeds := DrainAndMark();
      if err.None? {
        err := AskForReboot();
        DeedsAppend(old(world.meter.deeds), KubectlDrained(true), RebootRequested(err.None?));
        deeds := [KubectlDrained(true), RebootRequested(err.None?)];
      }
    }

    method AskForReboot() returns (err: Option<Error>)
      requires Valid() && world.Me().pc.Rebooting?
      modifies world
      ensures Valid() && world.Since(old(world.s), Did(old(world.meter), RebootRequested(err.None?)))
      ensures err.None? ==> world.Me().pc.Waiting? && world.Me().issued
      ensures err.None? ==> ToolValue(world.Me().node, RebootKey) == ToolValue(old(world.Me()).node, RebootKey)
      ensures err.Some? ==>
                && err == Some(RebootFailed) && world.meter.faults > old(world.meter.faults)
                && world.Me().pc == Releasing(true) && !world.Me().wrote
    {
      world.CriticalIsAlone();
      MarkedBeforeReboot();
      var ok := world.RequestReboot();
      if !ok {
        world.Advance(Releasing(true));
        return Some(RebootFailed);
      }
      return None;
    }

    /** Marks the node with the time of the call. */
    method Mark() returns (err: Option<Error>)
      requires Valid() && world.Me().pc.Cordoning?
      modifies world
      ensures Valid() && world.Since(old(world.s), old(world.meter))
      ensures if err.None? then world.Me().pc.Rebooting? else world.Me().pc.Marking? || world.Me().pc.MarkCondition?
      ensures err.None? ==> ToolValue(world.Me().node, RebootKey) == Some(Stamp(old(world.s.now)))
      ensures err.Some? ==> NodeClient.ClientError(err.value) && kube.NodeError(err.value, old(world.meter))
    {
      var now := world.s.now;
      world.Advance(Marking(now));
      err := kube.MarkReboot(now);
    }

    /** Where it fails the node may be drained and marked already. */
    method DrainAndMark() returns (err: Option<Error>, ghost deeds: seq<Deed>)
      requires Valid() && !world.Me().wrote && world.Me().pc.Draining?
      modifies world
      ensures Valid() && Since(old(world.s), old(world.meter))
      ensures world.meter.deeds == old(world.meter.deeds) + deeds
      ensures err.None? ==> world.Me().pc.Rebooting? && deeds == [KubectlDrained(true)]
      ensures err.None? ==> MarkedSince(old(world.s.now))
      ensures err == Some(DrainFailed) ==> deeds == [KubectlDrained(false)]
      ensures deeds == [] || deeds == [KubectlDrained(err != Some(DrainFailed))]
      ensures err.Some? ==> err == Some(DrainFailed) || NodeClient.ClientError(err.value)
      ensures err.Some? ==>
                world.Me().pc == Releasing(true) && !world.Me().wrote && LockedError(err.value, old(world.meter))
    {
      err := kube.DrainNode();
      if err.Some? {
        deeds := if err == Some(DrainFailed) then [KubectlDrained(false)] else [];
        world.Advance(Releasing(true));
        return;
      }
      deeds := [KubectlDrained(true)];
      err := Mark();
      if err.Some? {
        world.Advance(Releasing(true));
      }
    }

    lemma MarkedBeforeReboot()
      requires Valid() && world.Me().pc.Rebooting?
      ensures world.cfg.drain ==> Marked(world.Me())
    {
      InvHolds(world.cfg, world.s);
      assert MemberOk(world.cfg, world.s, world.me);
    }

    /** Upgrades the host while no other process is critical, and reports this very result. */
    method UpgradeAndReport() returns (status: HostStatus, err: Option<string>)
      requires Valid() && world.Me().pc.Upgrading?
      modifies world
      ensures Valid() && world.Since(old(world.s), Did(old(world.meter), Upgraded(status, err)))
      ensures world.Me().pc == AfterReporting(world.cfg, status, err) && !world.Me().wrote
      ensures if world.Me().missed then kube.Hindered(old(world.meter))
              else NodeClient.Reported(world.Me(), status, err, old(world.s.now), world.s.now)
    {
      world.CriticalIsAlone();
      status, err := world.HostUpgrade();
      kube.UpdateHostStatus(status, err);
      world.Advance(AfterReporting(world.cfg, status, err));
    }

    /** Reboots after an upgrade that asked for it. */
    method RebootUpgraded(status: HostStatus, ghost from: State, ghost start: Meter)
      returns (err: Option<Error>, ghost deeds: seq<Deed>)
      requires Valid() && !world.Me().wrote && world.cfg.reboot && status.rebootRequired
      requires if world.cfg.drain then world.Me().pc.Draining? else world.Me().pc.Rebooting?
      requires Since(from, start) && world.meter.deeds == start.deeds + [Upgraded(status, None)]
      modifies world
      ensures Valid() && Since(from, start)
      ensures world.meter.deeds == start.deeds + deeds && LockedDeeds(world.cfg, err.None?, err, deeds)
      ensures err.None? ==> world.Me().pc.Waiting? && world.Me().issued
      ensures err.None? && world.cfg.drain ==> MarkedSince(from.now)
      ensures err.Some? ==>
                && world.Me().pc == Releasing(true) && !world.Me().wrote
                && LockedError(err.value, start) && !err.value.UpgradeFailed?
    {
      ghost var more;
      err, more := Reboot();
      deeds := [Upgraded(status, None)] + more;
    }

    /** The part of a run under the lock. It ends about to release, or waiting for the shutdown, and then in
        drain mode the node is marked with a time at which this was under way. */
    method UpgradeLocked() returns (rebooting: bool, err: Option<Error>, ghost deeds: seq<Deed>)
      requires Valid() && world.Me().pc.Upgrading?
      modifies world
      ensures Valid() && Since(old(world.s), old(world.meter))
      ensures world.meter.deeds == old(world.meter.deeds) + deeds && LockedDeeds(world.cfg, rebooting, err, deeds)
      ensures err.Some? ==>
                world.Me().pc == Releasing(true) && !world.Me().wrote && LockedError(err.value, old(world.meter))
      ensures err.None? && rebooting ==> world.cfg.reboot && world.Me().pc.Waiting? && world.Me().issued
      ensures err.None? && rebooting && world.cfg.drain ==> MarkedSince(old(world.s.now))
      ensures err.None? && !rebooting ==> world.Me().pc == Releasing(false) && !world.Me().wrote
      ensures OnlyReports(rebooting, err) ==> ReportedOrHindered(deeds, old(world.s.now), old(world.meter))
    {
      var status, upgradeErr := UpgradeAndReport();
      deeds := [Upgraded(status, upgradeErr)];
      if upgradeErr.Some? {
        return false, Some(Error.UpgradeFailed(upgradeErr.value)), deeds;
      }
      if world.cfg.reboot && status.rebootRequired {
        err, deeds := RebootUpgraded(status, old(world.s), old(world.meter));
        return err.None?, err, deeds;
      }
      return false, None, deeds;
    }

    /** Why a run fails: the deadline has passed, nobody ever takes a step to free the lock, the host did
        not shut down, or one of the steps failed. The lock is never found broken or busy. */
    ghost predicate RunError(ctx: Context, e: Error, before: Meter)
      reads this, world, kube, kube.world, kube.node
    {
      if e.ContextDone? then ctx.Deadline? && world.s.now >= ctx.at
      else if e.Blocked? then (ctx.Background? || world.Expired(ctx)) && world.meter.fuel == 0
      else e.ShutdownTimeout? || LockedError(e, before)
    }

    /** Every attempt to take the lock was made with the context of the run and began before its deadline, and
        there was one just when that was ahead. */
    ghost predicate Attempted(ctx: Context, before: seq<Try>, since: nat)
      reads world
    {
      && TriedWith(ctx, before, world.meter.tries)
      && (|world.meter.tries| > |before| <==> ctx.Background? || since < ctx.at)
    }

    method Begin(ctx: Context) returns (err: Option<Error>)
      requires Valid() && world.Me().pc.Idle?
      modifies world
      ensures Valid() && world.Since(old(world.s), Begun(old(world.meter), ctx).(tries := world.meter.tries))
      ensures Attempted(ctx, old(world.meter.tries), old(world.s.now))
      ensures ctx.Deadline? && old(world.s.now) >= ctx.at ==> err == Some(ContextDone)
      ensures err.None? ==> world.Me().pc.Upgrading?
      ensures err.Some? ==>
                && world.Me().pc.Down? && (err.value.ContextDone? || err.value.Blocked?)
                && RunError(ctx, err.value, old(world.meter))
    {
      world.BeginRun(ctx);
      err := TakeLock(ctx);
      if err.Some? {
        world.Exit();
      }
    }

    method TakeLock(ctx: Context) returns (err: Option<Error>)
      requires Valid() && world.Me().pc.Acquiring?
      modifies world
      ensures Valid() && world.Since(old(world.s), old(world.meter).(tries := world.meter.tries))
      ensures Attempted(ctx, old(world.meter.tries), old(world.s.now))
      ensures ctx.Deadline? && old(world.s.now) >= ctx.at ==> err == Some(ContextDone)
      ensures err.None? ==> world.Me().pc.Upgrading?
      ensures err.Some? ==> (err.value.ContextDone? || err.value.Blocked?) && RunError(ctx, err.value, old(world.meter))
    {
      err := kube.AcquireLock(ctx);
    }

    /** The part of the run under the lock ended with its report. */
    predicate OnlyReports(rebooting: bool, err: Option<Error>) {
      if err.None? then !rebooting else err.value.UpgradeFailed?
    }

    /** The Node carries the result of the upgrade, unless a call failed or others kept changing it. */
    ghost predicate ReportedOrHindered(deeds: seq<Deed>, since: nat, before: Meter)
      requires world.Valid()
      reads this, world, kube, kube.world, kube.node
    {
      deeds != [] && deeds[0].Upgraded? &&
      if world.Me().missed then kube.Hindered(before)
      else NodeClient.Reported(world.Me(), deeds[0].status, deeds[0].err, since, world.s.now)
    }

    /** The last commit gave the lock of this node back. */
    ghost predicate GaveBack()
      requires world.Valid()
      reads this, world
    {
      JustCommitted(world.s, Drop(world.Name()))
    }

    /** Nothing has touched the report since. */
    ghost predicate SameReport(m: Member, n: Member) {
      SameToolPart(m.node, n.node) && n.missed == m.missed && n.bootSeen == m.bootSeen
    }

    lemma CrashKeepsCommit(s: State, t: State)
      requires world.Valid() && t.ds == s.ds && t.hist == s.hist && t.log == s.log
      ensures JustCommitted(t, Drop(world.Name())) <==> JustCommitted(s, Drop(world.Name()))
    {
    }

    /** Releases the lock after an error of the run; a second error is only logged. */
    method Fail()
      requires Valid() && world.Me().pc.Releasing? && !world.Me().wrote
      modifies world
      ensures Valid() && world.Since(old(world.s), old(world.meter)) && world.Me().pc.Down?
      ensures SameReport(old(world.Me()), world.Me())
      ensures GaveBack() || world.meter.faults > old(world.meter.faults)
    {
      var lockErr := kube.ReleaseLock();
      assert lockErr.None? ==> GaveBack();
      ghost var released := world.s;
      world.Exit();
      CrashKeepsCommit(released, world.s);
    }

    /** Waits to be terminated, and gives up with the lock still held. */
    method WaitForShutdown(ghost since: nat)
      requires Valid() && world.Me().pc.Waiting? && world.Me().issued && world.cfg.reboot
      requires world.cfg.drain ==> MarkedSince(since)
      modifies world
      ensures Valid() && world.Since(old(world.s), old(world.meter)) && world.Me().pc.Down? && world.Me().issued
      ensures HeldForBoot(since) && world.s.now >= old(world.s.now) + rebootTimeout
      ensures world.meter.naps == old(world.meter.naps) + [Nap(old(world.s.now), rebootTimeout, Shutdown)]
    {
      world.Sleep(rebootTimeout, Shutdown);
      world.Exit();
      IssuedHoldsLock();
    }

    /** The end of a run without errors and without a reboot. */
    method Finish() returns (err: Option<Error>)
      requires Valid() && world.Me().pc == Releasing(false) && !world.Me().wrote
      modifies world
      ensures Valid() && world.Since(old(world.s), old(world.meter))
      ensures err.None? ==> kube.Clean()
      ensures SameReport(old(world.Me()), world.Me())
      ensures err.Some? ==>
                && world.Me().pc.Down? && (err.value.GetFailed? || err.value.UpdateFailed?)
                && LockedError(err.value, old(world.meter))
    {
      err := kube.ReleaseLock();
      if err.None? {
        world.Advance(Idle);
        kube.IdleClean();
      } else {
        world.Exit();
      }
    }

    /** How a run from the lock on ends, of which it is known where it began and what it did to the host. */
    ghost predicate Ended(err: Option<Error>, deeds: seq<Deed>, from: State, start: Meter)
      requires world.Valid()
      reads this, world, kube, kube.world, kube.node
    {
      && Since(from, start)
      && world.meter.deeds == start.deeds + deeds && RunDeeds(world.cfg, err, deeds)
      && (OnlyReports(false, err) ==> ReportedOrHindered(deeds, from.now, start))
      && (err.Some? ==>
            && world.Me().pc.Down? && (err.value.ShutdownTimeout? || LockedError(err.value, start))
            && Returned(err.value, deeds, start))
      && (err == Some(ShutdownTimeout) ==> HeldForBoot(from.now) && WaitedFrom(from.now))
    }

    /** The last thing that the process did was to sleep for the reboot timeout. */
    ghost predicate WaitedFrom(since: nat)
      reads this, world
    {
      && world.meter.naps != []
      && var nap := world.meter.naps[|world.meter.naps| - 1];
         && nap.why.Shutdown? && nap.length == rebootTimeout
         && since <= nap.from && nap.from + rebootTimeout <= world.s.now
    }

    /** The run from the lock on. A run that failed under the lock has given it back, unless a call (another
        call, if that was the error) failed too. */
    method RunLocked() returns (err: Option<Error>, ghost deeds: seq<Deed>)
      requires Valid() && world.Me().pc.Upgrading?
      modifies world
      ensures Valid() && Ended(err, deeds, old(world.s), old(world.meter))
      ensures err.None? ==> kube.Clean()
    {
      var rebooting;
      rebooting, err, deeds := UpgradeLocked();
      if rebooting {
        err := WaitForReboot(deeds, old(world.s), old(world.meter));
      } else if err.Some? {
        GiveUp(err.value, deeds, old(world.s), old(world.meter));
      } else {
        err := Conclude(deeds, old(world.s), old(world.meter));
      }
    }

    /** The lock is left held. */
    method WaitForReboot(ghost deeds: seq<Deed>, ghost from: State, ghost start: Meter) returns (err: Option<Error>)
      requires Valid() && world.Me().pc.Waiting? && world.Me().issued && world.cfg.reboot
      requires Since(from, start) && world.meter.deeds == start.deeds + deeds
      requires LockedDeeds(world.cfg, true, None, deeds) && (world.cfg.drain ==> MarkedSince(from.now))
      modifies world
      ensures Valid() && err == Some(ShutdownTimeout) && Ended(err, deeds, from, start)
      ensures world.meter.naps == old(world.meter.naps) + [Nap(old(world.s.now), rebootTimeout, Shutdown)]
    {
      WaitForShutdown(from.now);
      err := Some(ShutdownTimeout);
    }

    /** The run went well. */
    method Conclude(ghost deeds: seq<Deed>, ghost from: State, ghost start: Meter) returns (err: Option<Error>)
      requires Valid() && world.Me().pc == Releasing(false) && !world.Me().wrote
      requires Since(from, start) && world.meter.deeds == start.deeds + deeds
      requires LockedDeeds(world.cfg, false, None, deeds) && ReportedOrHindered(deeds, from.now, start)
      modifies world
      ensures Valid() && Ended(err, deeds, from, start) && (err.None? ==> kube.Clean())
    {
      err := Finish();
    }

    /** The run ended in an error. */
    method GiveUp(err: Error, ghost deeds: seq<Deed>, ghost from: State, ghost start: Meter)
      requires Valid() && world.Me().pc == Releasing(true) && !world.Me().wrote
      requires Since(from, start) && world.meter.deeds == start.deeds + deeds
      requires LockedDeeds(world.cfg, false, Some(err), deeds) && LockedError(err, start)
      requires OnlyReports(false, Some(err)) ==> ReportedOrHindered(deeds, from.now, start)
      modifies world
      ensures Valid() && Ended(Some(err), deeds, from, start)
    {
      Fail();
    }

    /** The error is that of a failed call. */
    predicate CallFailed(e: Error) {
      e.GetFailed? || e.UpdateFailed? || e.RebootFailed?
    }

    /** After an error of the part of the run under the lock, and not of the release, the lock was given
        back, unless a call failed that is not the error itself. */
    ghost predicate Returned(e: Error, deeds: seq<Deed>, before: Meter)
      requires world.Valid()
      reads this, world
    {
      LockedDeeds(world.cfg, false, Some(e), deeds) ==>
        GaveBack() || world.meter.faults > before.faults + if CallFailed(e) then 1 else 0
    }

    /** A reboot was requested, and in drain mode the node is marked, with an instant since then, and holds
        the lock. */
    ghost predicate HeldForBoot(since: nat)
      requires world.Valid()
      reads this, world
    {
      && world.cfg.reboot && world.Me().issued
      && (world.cfg.drain ==> LockValue(world.s.ds) == world.Name() && Marked(world.Me()) && MarkedSince(since))
    }

    /** A whole run. After a run without an error the process is idle again, its node is not drained, it
        does not hold the lock and its upgrade is reported, unless a call failed or others kept changing
        the Node; a run that cannot establish that ends the process. A run that gets the lock upgrades
        the host exactly once, and what it did to the host says how it ended. After an error the lock was given
        back, unless a call failed; only a run that requested a reboot ends with the lock held, in the
        mode that drains and marks the node. A run that begins after its deadline does nothing. */
    method Run(ctx: Context) returns (err: Option<Error>, ghost deeds: seq<Deed>)
      requires Valid() && world.Me().pc.Idle?
      modifies world
      ensures Valid() && Since(old(world.s), Begun(old(world.meter), ctx).(tries := world.meter.tries))
      ensures Attempted(ctx, old(world.meter.tries), old(world.s.now))
      ensures ctx.Deadline? && old(world.s.now) >= ctx.at ==> err == Some(ContextDone) && deeds == []
      ensures world.meter.deeds == old(world.meter.deeds) + deeds && RunDeeds(world.cfg, err, deeds)
      ensures err.None? ==> kube.Clean()
      ensures OnlyReports(false, err) ==> ReportedOrHindered(deeds, old(world.s.now), old(world.meter))
      ensures err.Some? ==> world.Me().pc.Down? && RunError(ctx, err.value, old(world.meter))
      ensures err.Some? ==> Returned(err.value, deeds, old(world.meter))
      ensures err == Some(ShutdownTimeout) ==> HeldForBoot(old(world.s.now)) && WaitedFrom(old(world.s.now))
    {
      err := Begin(ctx);
      deeds := [];
      if err.None? {
        err, deeds := RunLocked();
      }
    }

    lemma IssuedHoldsLock()
      requires Valid() && world.Me().issued
      ensures world.cfg.drain ==> LockValue(world.s.ds) == world.Name() && Marked(world.Me())
    {
      InvHolds(world.cfg, world.s);
      assert MemberOk(world.cfg, world.s, world.me);
    }
  }
}
