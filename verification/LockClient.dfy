/** The lock as the process takes and releases it: a get-modify-update loop on the DaemonSet, and a
    watch to wait until the lock is free. */
module LockClient {
  import opened Wrappers
  import opened Annotations
  import opened DaemonSets
  import opened Times
  import opened Protocol
  import opened Invariant
  import opened World

  datatype Error =
    | ContextDone | GetFailed | UpdateFailed | ConflictFailed
    | Busy(holder: string) | Broken(holder: string)
    | WatchFailed | WatchClosed | WatchTimeout | UnexpectedEvent
    | Blocked                       // the watch waits for good: the call does not return
    | BadAnnotation | StillRebooting | UpgradeFailed(message: string)
    | DrainFailed | RebootFailed | ShutdownTimeout

  /** The client's copy of the DaemonSet. */
  class Object {
    var version: nat
    var annotations: map<Key, string>
    var rest: int

    constructor (version: nat, ds: DaemonSet)
      ensures this.version == version && Content() == ds
    {
      this.version, this.annotations, this.rest := version, ds.annotations, ds.rest;
    }

    function Content(): DaemonSet
      reads this
    {
      DaemonSet(annotations, rest)
    }
  }

  datatype Op = ToAcquire | ToRelease

  /** From a to b every round of a get-modify-update ended with an update that the server refused, and at
      most the last pause began after the deadline. */
  ghost predicate Retrying(cfg: Config, me: nat, ctx: Context, a: State, am: Meter, b: State, bm: Meter)
    requires me < |cfg.names|
  {
    && Rely(cfg, me, a, b)
    && Conflicted(am, bm, |b.hist| - |a.hist|)
    && RetriesBy(ctx, Added(am.naps, bm.naps), b.now)
    && (bm.gets == am.gets ==> b.now == a.now)
    && (bm.gets > am.gets ==> !Past(ctx, a.now) && !Past(ctx, bm.looked))
  }

  lemma RetryingNext(cfg: Config, me: nat, ctx: Context, a: State, am: Meter, b: State, bm: Meter, c: State, cm: Meter)
    requires me < |cfg.names| && Retrying(cfg, me, ctx, a, am, b, bm) && !Past(ctx, b.now)
    requires Rely(cfg, me, b, c) && Conflicted(bm, cm, |c.hist| - |b.hist|) && |cm.naps| == |bm.naps| + 1
    requires IsRetry(cm.naps[|bm.naps|]) && cm.naps[|bm.naps|].from <= c.now && cm.looked == b.now
    ensures Retrying(cfg, me, ctx, a, am, c, cm)
  {
    RelyTransitive(cfg, me, a, b, c);
    ConflictedNext(am, bm, cm, |b.hist| - |a.hist|, |c.hist| - |b.hist|);
    RetriesNext(ctx, am.naps, bm.naps, cm.naps, b.now, c.now);
  }

  /** How often the server was read and how often the process slept from a to b, when the last round has
      ended, with a commit of its own or not: there was a round just when the deadline was ahead, and the
      last one began before it. */
  ghost predicate Rounds(ctx: Context, ok: bool, a: State, am: Meter, b: State, bm: Meter) {
    && Worked(am, bm)
    && (bm.gets > am.gets <==> ctx.Background? || a.now < ctx.at)
    && (bm.gets > am.gets ==> ctx.Background? || bm.looked < ctx.at)
    && bm.gets - am.gets <= (if ok then 0 else 1) + |b.hist| - |a.hist|
    && |bm.naps| - |am.naps| <= bm.gets - am.gets && Paced(am, bm)
    && RetriesBy(ctx, Added(am.naps, bm.naps), b.now)
  }

  lemma RoundsEnd(cfg: Config, me: nat, ctx: Context, a: State, am: Meter, b: State, bm: Meter, c: State, cm: Meter,
                  ok: bool)
    requires me < |cfg.names| && Retrying(cfg, me, ctx, a, am, b, bm) && !Past(ctx, b.now) && Spent(Got(bm, b.now), cm)
    requires b.now <= c.now && |b.hist| + (if ok then 1 else 0) <= |c.hist|
    ensures Rounds(ctx, ok, a, am, c, cm)
  {
  }

  class Lock {
    const world: Cluster
    const value: string

    constructor (world: Cluster)
      requires world.Valid()
      ensures this.world == world && Valid()
    {
      this.world, this.value := world, world.Name();
    }

    ghost predicate Valid()
      reads this, world
    {
      world.Valid() && value == world.Name()
    }

    /** The object is what the server stored, at the version it claims. */
    ghost predicate Read(o: Object)
      reads this, world, o
    {
      o.version < |world.s.hist| && o.Content() == world.s.hist[o.version]
    }

    method Inspect(o: Object) returns (holder: string, available: bool, acquired: bool)
      ensures holder == LockValue(o.Content())
      ensures available <==> Available(o.Content(), value)
      ensures acquired <==> holder == value && holder != ""
    {
      holder := if LockKey in o.annotations then o.annotations[LockKey] else "";
      if holder == "" {
        return holder, true, false;
      } else if holder == value {
        return holder, true, true;
      } else {
        return holder, false, false;
      }
    }

    /** Writes the lock into the object; the assignment panics on a nil map. */
    method Set(o: Object) returns (err: Option<Error>)
      requires o.annotations != map[]
      modifies o`annotations
      ensures err.None? <==> Available(old(o.Content()), value)
      ensures err.None? ==> o.Content() == ApplyLock(old(o.Content()), Take(value))
      ensures err.Some? ==> err == Some(Busy(LockValue(old(o.Content())))) && o.Content() == old(o.Content())
    {
      var holder := if LockKey in o.annotations then o.annotations[LockKey] else "";
      if holder != "" && holder != value {
        return Some(Busy(holder));
      }
      o.annotations := o.annotations[LockKey := value];
      return None;
    }

    method Clear(o: Object) returns (err: Option<Error>)
      modifies o`annotations
      ensures err.None? <==> LockValue(old(o.Content())) == value
      ensures err.None? ==> o.Content() == ApplyLock(old(o.Content()), Drop(value))
      ensures err.Some? ==> err == Some(Broken(LockValue(old(o.Content())))) && o.Content() == old(o.Content())
    {
      var holder := if LockKey in o.annotations then o.annotations[LockKey] else "";
      if holder != value {
        return Some(Broken(holder));
      }
      o.annotations := o.annotations - {LockKey};
      return None;
    }

    method Get() returns (r: Result<Object, Error>)
      requires Valid()
      modifies world`s, world`meter, world`tick
      ensures Valid() && Rely(world.cfg, world.me, old(world.s), world.s)
      ensures Spent(Got(old(world.meter), old(world.s.now)), world.meter) && world.Budget() <= old(world.Budget())
      ensures r.Ok? ==> fresh(r.value) && Read(r.value) && r.value.version == |world.s.hist| - 1
      ensures r.Err? ==> r.error == GetFailed && world.meter.faults > old(world.meter.faults)
    {
      var reply := world.GetDaemonSet();
      if reply.None? {
        return Err(GetFailed);
      }
      var o := new Object(reply.value.0, reply.value.1);
      return Ok(o);
    }

    // -------------------------------------------------------------- waiting

    function Timeout(ctx: Context): int
      reads world
    {
      if ctx.Background? then 0 else ctx.at - world.s.now
    }

    method TestEvent(e: WatchEvent) returns (done: bool, err: Option<Error>)
      ensures err.None? <==> e.Modified?
      ensures err.Some? ==> err.value.WatchTimeout? || err.value.WatchClosed? || err.value.UnexpectedEvent?
      ensures err == Some(WatchTimeout) <==> e.TimedOut?
      ensures done <==> e.Modified? && Available(e.ds, value)
    {
      if e.Modified? {
        var o := new Object(e.version, e.ds);
        var _, available, _ := Inspect(o);
        return available, None;
      }
      return false, Some(if e.TimedOut? then WatchTimeout else if e.Closed? then WatchClosed else UnexpectedEvent);
    }

    /** Why a watch ends without success: its timer fired, it waits for good without one, or it failed. */
    ghost predicate Ended(e: Error, before: Meter)
      reads world
    {
      && (e.WatchTimeout? || e.Blocked? || e.WatchClosed? || e.UnexpectedEvent?)
      && if e.WatchTimeout? then world.watch.expiry.Some? && world.s.now >= world.watch.expiry.value
         else if e.Blocked? then
           world.watch.expiry.None? && world.meter.fuel == 0 && world.watch.seen + 1 == |world.s.hist|
         else world.meter.faults > before.faults
    }

    /** The watch has not been sent a version in which the lock is available, nor was it in the version the
        watch starts from. */
    ghost predicate InVain()
      reads this, world
    {
      && world.watch.from <= world.watch.seen < |world.s.hist|
      && NoneAvailable(world.s.hist, value, world.watch.from, world.watch.seen + 1)
    }

    /** The last event of the watch is the first version, from the one it starts from on, in which the lock
        is available. */
    ghost predicate Found(e: WatchEvent)
      reads this, world
    {
      && e.Modified? && e.version == world.watch.seen && Available(e.ds, value)
      && world.watch.from < world.watch.seen < |world.s.hist| && e.ds == world.s.hist[world.watch.seen]
      && NoneAvailable(world.s.hist, value, world.watch.from, world.watch.seen)
    }

    /** Why an acquisition fails: the deadline has passed between two rounds; or a watch ended that was not
        sent an available version, by its timer, for good, or by a failure; or a call failed. A watch only
        waits for good without a deadline, or with one that had passed, when nobody takes a step any more. */
    ghost predicate Excused(ctx: Context, e: Error, before: Meter)
      reads this, world
    {
      if e.ContextDone? then world.Expired(ctx)
      else if e.WatchTimeout? then InVain() && world.Expired(ctx)
      else if e.Blocked? then
        && InVain() && world.watch.seen + 1 == |world.s.hist|
        && (ctx.Background? || world.Expired(ctx)) && world.meter.fuel == 0
      else world.meter.faults > before.faults && (e.WatchClosed? || e.UnexpectedEvent? ==> InVain())
    }

    /** The next event of the watch, tested: `Modified` and done, `Modified` and not, nothing yet, or the
        end of the watch. */
    method Poll() returns (e: WatchEvent, done: bool, failure: Option<Error>)
      requires Valid() && world.watch.seen < |world.s.hist|
      modifies world
      ensures Valid() && Rely(world.cfg, world.me, old(world.s), world.s)
      ensures Spent(old(world.meter), world.meter) && world.Budget() <= old(world.Budget())
      ensures world.watch == old(world.watch).(seen := old(world.watch.seen) + if e.Modified? then 1 else 0)
      ensures e.Modified? ==> e.version == world.watch.seen < |world.s.hist| && e.ds == world.s.hist[e.version]
      ensures done <==> e.Modified? && Available(e.ds, value)
      ensures failure.Some? <==> !e.Modified? && !e.Nothing?
      ensures e.Nothing? ==> world.meter.fuel < old(world.meter.fuel)
      ensures failure.Some? ==> Ended(failure.value, old(world.meter))
    {
      e := world.NextEvent();
      if e.Never? {
        done, failure := false, Some(Blocked);
      } else if e.Nothing? {
        done, failure := false, None;
      } else {
        done, failure := TestEvent(e);
      }
    }

    /** Takes one event of a watch that has been in vain so far. */
    method Consume() returns (e: WatchEvent, done: bool, failure: Option<Error>)
      requires Valid() && InVain()
      modifies world
      ensures Valid() && Rely(world.cfg, world.me, old(world.s), world.s)
      ensures Spent(old(world.meter), world.meter) && world.Budget() <= old(world.Budget())
      ensures SameWatch(old(world.watch)) && old(world.watch.seen) <= world.watch.seen
      ensures if done then Found(e) && failure.None? else InVain()
      ensures failure.Some? ==> Ended(failure.value, old(world.meter))
      ensures !done && failure.None? ==>
                world.watch.seen > old(world.watch.seen) || world.meter.fuel < old(world.meter.fuel)
    {
      ghost var before, from, seen := world.s, world.watch.from, world.watch.seen;
      e, done, failure := Poll();
      NoneAvailableLater(before.hist, world.s.hist, value, from, seen + 1);
      if e.Modified? && !done {
        NoneAvailableNext(world.s.hist, value, from, e.version);
      }
    }

    /** No other watch has been opened since, and this one has the same timer. */
    ghost predicate SameWatch(before: Watching)
      reads world
    {
      world.watch == before.(seen := world.watch.seen)
    }

    /** Consumes the events of the watch until one passes the test. None that would is passed over. The
        timer is set when it begins, and once. */
    method Until(timeout: int) returns (err: Option<Error>, e: WatchEvent)
      requires Valid() && InVain()
      modifies world
      ensures Valid() && Rely(world.cfg, world.me, old(world.s), world.s)
      ensures Spent(old(world.meter), world.meter) && world.Budget() <= old(world.Budget())
      ensures world.watch.count == old(world.watch.count) && world.watch.from == old(world.watch.from)
      ensures world.watch.since == old(world.s.now)
      ensures world.watch.expiry == if timeout > 0 then Some(old(world.s.now) + timeout) else None
      ensures if err.None? then Found(e) else InVain() && Ended(err.value, old(world.meter))
    {
      world.SetTimer(timeout);
      err, e := Follow();
    }

    /** Consumes the events of a watch until its end, or one passes the test. */
    method Follow() returns (err: Option<Error>, e: WatchEvent)
      requires Valid() && InVain()
      modifies world
      ensures Valid() && Rely(world.cfg, world.me, old(world.s), world.s)
      ensures Spent(old(world.meter), world.meter) && world.Budget() <= old(world.Budget())
      ensures SameWatch(old(world.watch))
      ensures if err.None? then Found(e) else InVain() && Ended(err.value, old(world.meter))
    {
      while true
        invariant Valid() && Rely(world.cfg, world.me, old(world.s), world.s)
        invariant Spent(old(world.meter), world.meter) && world.Budget() <= old(world.Budget())
        invariant SameWatch(old(world.watch)) && InVain()
        decreases world.Budget() - world.watch.seen, world.meter.fuel
      {
        ghost var before := world.s;
        var done;
        e, done, err := Consume();
        RelyTransitive(world.cfg, world.me, old(world.s), before, world.s);
        if done || err.Some? {
          return;
        }
      }
    }

    /** Waits until the lock is free or its own, starting from an object read before. No wake-up is lost: an
        object in which the lock is available is returned as it is. From any other one watch is opened,
        and the result is the first version after it that is available; the wait ends without one only
        when that watch ends, by a failure or its timer, which is that of the context, and then it was not
        sent any. */
    method Wait(ctx: Context, o: Object) returns (err: Option<Error>, latest: Object)
      requires Valid() && Read(o)
      modifies world
      ensures Valid() && Rely(world.cfg, world.me, old(world.s), world.s)
      ensures Spent(old(world.meter), world.meter) && world.Budget() <= old(world.Budget())
      ensures Available(old(o.Content()), value) ==> err.None? && latest == o && world.s == old(world.s)
      ensures world.watch.count <= old(world.watch.count) + 1
      ensures WatchedFor(ctx, old(world.watch), old(world.s.now), world.watch, world.s.now)
      ensures latest == o || fresh(latest)
      ensures err.None? ==> Read(latest) && o.version <= latest.version && Available(latest.Content(), value)
      ensures err.None? ==> NoneAvailable(world.s.hist, value, o.version, latest.version)
      ensures err.Some? ==> WatchError(err.value) && Excused(ctx, err.value, old(world.meter))
      ensures err.Some? && !err.value.WatchFailed? ==> InVain() && world.watch.from == o.version
      ensures err == Some(Blocked) ==>
                NoneAvailable(world.s.hist, value, o.version, |world.s.hist|) && world.meter.fuel == 0
    {
      var _, available, _ := Inspect(o);
      if available {
        return None, o;
      }
      var e;
      err, e := Watch(ctx, o.version);
      latest := o;
      if err.None? {
        latest := new Object(e.version, e.ds);
      }
    }

    /** How a watch can fail, or end without success. */
    predicate WatchError(e: Error) {
      e.WatchFailed? || e.WatchTimeout? || e.Blocked? || e.WatchClosed? || e.UnexpectedEvent?
    }

    lemma EndedExcused(ctx: Context, e: Error, before: Meter)
      requires TimerFits(ctx, world.watch) && world.watch.since <= world.s.now
      requires Ended(e, before) && InVain()
      ensures WatchError(e) && !e.WatchFailed? && Excused(ctx, e, before)
    {
    }

    /** Waits on a watch opened at a version in which the lock is not available. */
    method Watch(ctx: Context, start: nat) returns (err: Option<Error>, e: WatchEvent)
      requires Valid() && start < |world.s.hist| && !Available(world.s.hist[start], value)
      modifies world
      ensures Valid() && Rely(world.cfg, world.me, old(world.s), world.s)
      ensures Spent(old(world.meter), world.meter) && world.Budget() <= old(world.Budget())
      ensures world.watch.count == old(world.watch.count) + if err == Some(WatchFailed) then 0 else 1
      ensures WatchedFor(ctx, old(world.watch), old(world.s.now), world.watch, world.s.now)
      ensures err != Some(WatchFailed) ==> world.watch.from == start && if err.None? then Found(e) else InVain()
      ensures err.Some? ==> WatchError(err.value) && Excused(ctx, err.value, old(world.meter))
    {
      ghost var first := world.s;
      var ok := world.OpenWatch(start);
      if !ok {
        return Some(WatchFailed), Nothing;
      }
      assert world.s.hist[start] == first.hist[start];
      ghost var before := world.s;
      err, e := UntilDeadline(ctx);
      RelyTransitive(world.cfg, world.me, first, before, world.s);
    }

    /** Waits on a watch that has just been opened, until the deadline. */
    method UntilDeadline(ctx: Context) returns (err: Option<Error>, e: WatchEvent)
      requires Valid() && InVain()
      modifies world
      ensures Valid() && Rely(world.cfg, world.me, old(world.s), world.s)
      ensures Spent(old(world.meter), world.meter) && world.Budget() <= old(world.Budget())
      ensures world.watch.count == old(world.watch.count) && world.watch.from == old(world.watch.from)
      ensures TimerFits(ctx, world.watch) && world.watch.since == old(world.s.now)
      ensures if err.None? then Found(e) else InVain() && WatchError(err.value) && err != Some(WatchFailed)
      ensures err.Some? ==> Excused(ctx, err.value, old(world.meter))
    {
      ghost var metered := world.meter;
      var timeout := Timeout(ctx);
      err, e := Until(timeout);
      if err.Some? {
        EndedExcused(ctx, err.value, metered);
      }
    }

    // -------------------------------------------------------------- get, modify, update

    /** The modifier that `Acquire` passes: wait for the lock, then set it in the latest object. */
    method WaitAndSet(ctx: Context, o: Object) returns (err: Option<Error>, latest: Object)
      requires Valid() && Read(o)
      modifies world, o
      ensures Valid() && Rely(world.cfg, world.me, old(world.s), world.s)
      ensures Spent(old(world.meter), world.meter) && world.Budget() <= old(world.Budget())
      ensures WatchedFor(ctx, old(world.watch), old(world.s.now), world.watch, world.s.now)
      ensures err.None? ==> old(o.version) <= latest.version < |world.s.hist|
      ensures err.None? ==> Available(world.s.hist[latest.version], value)
      ensures err.None? ==> latest.Content() == ApplyLock(world.s.hist[latest.version], Take(value))
      ensures err.Some? ==> Excused(ctx, err.value, old(world.meter))
      ensures err == Some(Blocked) ==> !Available(world.s.ds, value) && world.meter.fuel == 0
      ensures err != Some(ContextDone)
    {
      err, latest := Wait(ctx, o);
      if err == Some(Blocked) {
        ShapeHolds(world.cfg, world.s, world.me);
      }
      if err.None? {
        HasOtherAt(latest.version);
        err := Set(latest);
      }
    }

    function Change(op: Op): LockMod {
      if op.ToAcquire? then Take(value) else Drop(value)
    }

    /** The point of the protocol from which the operation may be called. */
    ghost predicate Ready(op: Op)
      requires Valid()
      reads this, world
    {
      if op.ToAcquire? then world.Me().pc.Acquiring?
      else (world.Me().pc.ClearLock? || world.Me().pc.Releasing?) && !world.Me().wrote
    }

    /** A holder of the lock finds its own value in it, whenever it looks. */
    lemma NeverBroken()
      requires Valid() && Ready(ToRelease)
      requires world.Me().pc.Releasing? || !world.cfg.late
      ensures LockValue(world.s.ds) == value
    {
      InvHolds(world.cfg, world.s);
      assert MemberOk(world.cfg, world.s, world.me);
    }

    /** One round of get, modify and update: it conflicts, or ends the operation. A conflict is paid
        for by a commit that someone else made after the `get`. */
    method Round(ctx: Context, op: Op) returns (conflict: bool, err: Option<Error>)
      requires Valid() && Ready(op)
      modifies world
      ensures Valid() && var got := Got(old(world.meter), old(world.s.now));
              Spent(if conflict then Refused(got) else got, world.meter)
      ensures WatchedFor(ctx, old(world.watch), old(world.s.now), world.watch, world.s.now)
      ensures conflict ==> Rely(world.cfg, world.me, old(world.s), world.s)
      ensures conflict ==> |world.s.hist| > |old(world.s).hist| && world.Budget() <= old(world.Budget())
      ensures !conflict ==> Finished(world.cfg, world.me, old(world.s), world.s, Change(op), err.None?)
      ensures !conflict && op.ToAcquire? && err.Some? ==> Excused(ctx, err.value, old(world.meter))
      ensures err == Some(Blocked) ==> !Available(world.s.ds, value) && world.meter.fuel == 0
      ensures err != Some(ContextDone)
      ensures !conflict && op.ToRelease? && err.Some? ==> Unreleased(err.value, old(world.Me()), old(world.meter))
    {
      var failure, latest := Prepare(ctx, op);
      if failure.Some? {
        return false, failure;
      }
      conflict, err := Submit(op, latest.value, old(world.s));
    }

    /** Why a release fails: the process took the lock for its own in recovery and an abandoned request
        committed since, or a call failed. */
    ghost predicate Unreleased(e: Error, m: Member, before: Meter)
      reads this, world
    {
      if e.Broken? then m.pc.ClearLock? && world.cfg.late && LockValue(world.s.ds) != value
      else (e.GetFailed? || e.UpdateFailed?) && world.meter.faults > before.faults
    }

    /** The first half of a round: get and modify. */
    method Prepare(ctx: Context, op: Op) returns (err: Option<Error>, latest: Option<Object>)
      requires Valid() && Ready(op)
      modifies world
      ensures Valid() && Rely(world.cfg, world.me, old(world.s), world.s)
      ensures Spent(Got(old(world.meter), old(world.s.now)), world.meter) && world.Budget() <= old(world.Budget())
      ensures WatchedFor(ctx, old(world.watch), old(world.s.now), world.watch, world.s.now)
      ensures err.None? ==> latest.Some? && |old(world.s).hist| <= latest.value.version + 1 <= |world.s.hist|
      ensures err.None? ==> MayWriteLock(value, world.Me().pc, world.s.hist[latest.value.version], Change(op))
      ensures err.None? ==> latest.value.Content() == ApplyLock(world.s.hist[latest.value.version], Change(op))
      ensures err == Some(Blocked) ==> !Available(world.s.ds, value) && world.meter.fuel == 0
      ensures err != Some(ContextDone)
      ensures err.Some? && op.ToAcquire? ==> Excused(ctx, err.value, old(world.meter))
      ensures err.Some? && op.ToRelease? ==> Unreleased(err.value, old(world.Me()), old(world.meter))
    {
      if op.ToAcquire? {
        err, latest := PrepareAcquire(ctx);
      } else {
        err, latest := PrepareRelease();
      }
    }

    method PrepareAcquire(ctx: Context) returns (err: Option<Error>, latest: Option<Object>)
      requires Valid()
      modifies world
      ensures Valid() && Rely(world.cfg, world.me, old(world.s), world.s)
      ensures Spent(Got(old(world.meter), old(world.s.now)), world.meter) && world.Budget() <= old(world.Budget())
      ensures WatchedFor(ctx, old(world.watch), old(world.s.now), world.watch, world.s.now)
      ensures err.None? ==> latest.Some? && |old(world.s).hist| <= latest.value.version + 1 <= |world.s.hist|
      ensures err.None? ==> Available(world.s.hist[latest.value.version], value)
      ensures err.None? ==> latest.value.Content() == ApplyLock(world.s.hist[latest.value.version], Take(value))
      ensures err == Some(Blocked) ==> !Available(world.s.ds, value) && world.meter.fuel == 0
      ensures err != Some(ContextDone)
      ensures err.Some? ==> Excused(ctx, err.value, old(world.meter))
    {
      var o := Get();
      if o.Err? {
        return Some(o.error), None;
      }
      ghost var got := world.s;
      var changed;
      err, changed := WaitAndSet(ctx, o.value);
      RelyTransitive(world.cfg, world.me, old(world.s), got, world.s);
      latest := Some(changed);
    }

    method PrepareRelease() returns (err: Option<Error>, latest: Option<Object>)
      requires Valid() && Ready(ToRelease)
      modifies world`s, world`meter, world`tick
      ensures Valid() && Rely(world.cfg, world.me, old(world.s), world.s)
      ensures Spent(Got(old(world.meter), old(world.s.now)), world.meter) && world.Budget() <= old(world.Budget())
      ensures err.None? ==> latest.Some? && |old(world.s).hist| <= latest.value.version + 1 <= |world.s.hist|
      ensures err.None? ==> LockValue(world.s.hist[latest.value.version]) == value
      ensures err.None? ==> latest.value.Content() == ApplyLock(world.s.hist[latest.value.version], Drop(value))
      ensures err.Some? ==> Unreleased(err.value, old(world.Me()), old(world.meter))
    {
      var o := Get();
      if o.Err? {
        return Some(o.error), None;
      }
      err := ClearCurrent(o.value);
      latest := Some(o.value);
    }

    /** The modifier that `Release` passes, on the current object. */
    method ClearCurrent(o: Object) returns (err: Option<Error>)
      requires Valid() && Ready(ToRelease) && Read(o) && o.version == |world.s.hist| - 1
      modifies o
      ensures err.None? ==> o.version == old(o.version) && LockValue(world.s.hist[o.version]) == value
      ensures err.None? ==> o.Content() == ApplyLock(world.s.hist[o.version], Drop(value))
      ensures err.Some? ==> err.value.Broken? && LockValue(world.s.ds) != value
      ensures err.Some? ==> world.Me().pc.ClearLock? && world.cfg.late
    {
      if world.Me().pc.Releasing? || !world.cfg.late {
        NeverBroken();
      }
      err := Clear(o);
    }

    /** The update that ends a round. */
    method Submit(op: Op, latest: Object, ghost before: State) returns (conflict: bool, err: Option<Error>)
      requires Valid() && Ready(op) && Rely(world.cfg, world.me, before, world.s)
      requires latest.version < |world.s.hist|
      requires MayWriteLock(value, world.Me().pc, world.s.hist[latest.version], Change(op))
      requires latest.Content() == ApplyLock(world.s.hist[latest.version], Change(op))
      modifies world`s, world`meter, world`tick
      ensures Valid() && Spent(if conflict then Refused(old(world.meter)) else old(world.meter), world.meter)
      ensures world.s.now >= old(world.s.now)
      ensures conflict ==> Rely(world.cfg, world.me, before, world.s)
      ensures conflict ==> |world.s.hist| > latest.version + 1 && world.Budget() <= old(world.Budget())
      ensures !conflict ==> Finished(world.cfg, world.me, before, world.s, Change(op), err.None?)
      ensures conflict ==> err.None?
      ensures !conflict ==> err.None? || (err == Some(UpdateFailed) && world.meter.faults > old(world.meter.faults))
    {
      ghost var start := world.s;
      MayWriteFits(value, world.Me().pc, world.s.hist[latest.version], Change(op));
      var reply, mid := world.UpdateDaemonSet(latest.version, latest.Content());
      RelyTransitive(world.cfg, world.me, before, start, mid);
      if reply.Conflict? {
        return true, None;
      }
      assert mid.hist[latest.version] == start.hist[latest.version];
      AnswerFinishes(world.cfg, world.me, before, mid, world.s, latest.version, Change(op), reply);
      return false, if reply.Accepted? then None else Some(UpdateFailed);
    }

    /** A round, and the pause after a conflict. */
    method RoundAndPause(ctx: Context, op: Op) returns (again: bool, err: Option<Error>)
      requires Valid() && Ready(op)
      modifies world
      ensures Valid()
      ensures again ==> Rely(world.cfg, world.me, old(world.s), world.s) && world.meter.fuel < old(world.meter.fuel)
      ensures again ==> Conflicted(old(world.meter), world.meter, |world.s.hist| - |old(world.s).hist|)
      ensures again ==> |world.meter.naps| == |old(world.meter.naps)| + 1
      ensures again ==> var nap := world.meter.naps[|old(world.meter.naps)|]; IsRetry(nap) && nap.from <= world.s.now
      ensures !again ==> Spent(Got(old(world.meter), old(world.s.now)), world.meter)
      ensures WatchedFor(ctx, old(world.watch), old(world.s.now), world.watch, world.s.now)
      ensures again ==> world.meter.looked == old(world.s.now)
      ensures !again ==> Finished(world.cfg, world.me, old(world.s), world.s, Change(op), err.None?)
      ensures !again && op.ToAcquire? && err.Some? ==> Excused(ctx, err.value, old(world.meter))
      ensures err == Some(Blocked) ==> !Available(world.s.ds, value) && world.meter.fuel == 0
      ensures err != Some(ContextDone)
      ensures !again && op.ToRelease? && err.Some? ==> Unreleased(err.value, old(world.Me()), old(world.meter))
    {
      again, err := Round(ctx, op);
      if again {
        ghost var missed := world.s;
        var extra := world.Jitter(RETRY);
        world.Sleep(RETRY + extra, Retry);
        RelyTransitive(world.cfg, world.me, old(world.s), missed, world.s);
        err := None;
      }
    }

    /** Every round since has conflicted. */
    ghost predicate OnlyConflicts(ctx: Context, from: State, start: Meter)
      requires Valid()
      reads this, world
    {
      Retrying(world.cfg, world.me, ctx, from, start, world.s, world.meter)
    }

    /** One more round, before the deadline. */
    method NextRound(ctx: Context, op: Op, ghost from: State, ghost start: Meter, ghost first: Watching)
      returns (again: bool, err: Option<Error>)
      requires Valid() && Ready(op) && !world.Expired(ctx) && OnlyConflicts(ctx, from, start)
      requires WatchedFor(ctx, first, from.now, world.watch, world.s.now)
      modifies world
      ensures Valid() && WatchedFor(ctx, first, from.now, world.watch, world.s.now)
      ensures again ==> OnlyConflicts(ctx, from, start) && world.meter.fuel < old(world.meter.fuel)
      ensures !again ==> Rounds(ctx, err.None?, from, start, world.s, world.meter)
      ensures !again ==> Finished(world.cfg, world.me, from, world.s, Change(op), err.None?)
      ensures !again && op.ToAcquire? && err.Some? ==> Excused(ctx, err.value, start)
      ensures err == Some(Blocked) ==> !Available(world.s.ds, value) && world.meter.fuel == 0
      ensures !again && op.ToRelease? && err.Some? ==> Unreleased(err.value, old(world.Me()), start)
      ensures !again ==> err != Some(ContextDone)
    {
      ghost var head, metered, watched := world.s, world.meter, world.watch;
      again, err := RoundAndPause(ctx, op);
      WatchedNext(ctx, first, from.now, watched, head.now, world.watch, world.s.now);
      if again {
        RetryingNext(world.cfg, world.me, ctx, from, start, head, metered, world.s, world.meter);
      } else {
        RoundsEnd(world.cfg, world.me, ctx, from, start, head, metered, world.s, world.meter, err.None?);
        FinishedLater(world.cfg, world.me, from, head, world.s, Change(op), err.None?);
      }
    }

    /** Gets, modifies and updates the DaemonSet until the update does not conflict. A nil return means
        that exactly one commit of the operation was made, and it is the latest version; an error that
        at most one was. Each conflict is paid for by a distinct commit of someone else made after that
        round's `get`: with K commits by others there are at most K + 1 rounds. Between two rounds it
        sleeps once, and at most one of these sleeps begins after the deadline. There is a round just when
        the deadline is ahead, and each one begins before it. */
    method Modify(ctx: Context, op: Op) returns (err: Option<Error>)
      requires Valid() && Ready(op) && (op.ToRelease? ==> ctx.Background?)
      modifies world
      ensures Valid() && Rounds(ctx, err.None?, old(world.s), old(world.meter), world.s, world.meter)
      ensures Finished(world.cfg, world.me, old(world.s), world.s, Change(op), err.None?)
      ensures op.ToAcquire? && err.Some? ==> Excused(ctx, err.value, old(world.meter))
      ensures err == Some(Blocked) ==> !Available(world.s.ds, value) && world.meter.fuel == 0
      ensures op.ToRelease? && err.Some? ==> Unreleased(err.value, old(world.Me()), old(world.meter))
      ensures WatchedFor(ctx, old(world.watch), old(world.s.now), world.watch, world.s.now)
      ensures err == Some(ContextDone) ==> OnlyConflicts(ctx, old(world.s), old(world.meter))
    {
      while true
        invariant Valid() && OnlyConflicts(ctx, old(world.s), old(world.meter))
        invariant WatchedFor(ctx, old(world.watch), old(world.s.now), world.watch, world.s.now)
        decreases world.meter.fuel
      {
        if world.Expired(ctx) {
          return Some(ContextDone);
        }
        var again, failure := NextRound(ctx, op, old(world.s), old(world.meter), old(world.watch));
        if !again {
          return failure;
        }
      }
    }

    /** Waits for the lock to be free and takes it: in the version that its commit replaced it was. An
        attempt begun before the deadline reads the server at least once, any other never, and no read
        begins after it; and the deadline ends it only when the watch, whose timer fires then, was not sent
        a free version, or when every lock it found free was gone again before its update. */
    method Acquire(ctx: Context) returns (err: Option<Error>)
      requires Valid() && Ready(ToAcquire)
      modifies world
      ensures Valid() && Worked(Tried(old(world.meter), ctx, old(world.s.now)), world.meter)
      ensures world.meter.gets > old(world.meter.gets) <==> ctx.Background? || old(world.s.now) < ctx.at
      ensures world.meter.gets > old(world.meter.gets) ==> ctx.Background? || world.meter.looked < ctx.at
      ensures WatchedFor(ctx, old(world.watch), old(world.s.now), world.watch, world.s.now)
      ensures Finished(world.cfg, world.me, old(world.s), world.s, Take(value), err.None?)
      ensures err.None? ==> JustCommitted(world.s, Take(value))
      ensures err.Some? ==> Excused(ctx, err.value, old(world.meter))
      ensures err == Some(Blocked) ==> !Available(world.s.ds, value) && world.meter.fuel == 0
      ensures err == Some(ContextDone) ==>
                OnlyConflicts(ctx, old(world.s), Tried(old(world.meter), ctx, old(world.s.now)))
      ensures RetriesBy(ctx, Added(old(world.meter.naps), world.meter.naps), world.s.now)
      ensures Paced(old(world.meter), world.meter)
    {
      world.BeginTry(ctx);
      err := Modify(ctx, ToAcquire);
    }

    /** Releases the lock, which the caller holds: the commit removes the caller's own value. */
    method Release() returns (err: Option<Error>)
      requires Valid() && Ready(ToRelease)
      modifies world
      ensures Valid() && Worked(old(world.meter), world.meter)
      ensures Finished(world.cfg, world.me, old(world.s), world.s, Drop(value), err.None?)
      ensures err.None? ==> JustCommitted(world.s, Drop(value))
      ensures err.Some? ==> Unreleased(err.value, old(world.Me()), old(world.meter))
    {
      err := Modify(Background, ToRelease);
    }

    /** Reads the lock from the server. */
    method Test() returns (holder: string, acquired: bool, err: Option<Error>)
      requires Valid()
      modifies world
      ensures Valid() && Rely(world.cfg, world.me, old(world.s), world.s)
      ensures Spent(Got(old(world.meter), old(world.s.now)), world.meter)
      ensures err.Some? ==> err == Some(GetFailed) && world.meter.faults > old(world.meter.faults)
      ensures err.None? ==> holder == LockValue(world.s.ds) && (acquired <==> holder == value != "")
    {
      var o := Get();
      if o.Err? {
        return "", false, Some(o.error);
      }
      assert o.value.Content() == world.s.ds;
      var available;
      holder, available, acquired := Inspect(o.value);
      err := None;
    }

    lemma HasOtherAt(v: nat)
      requires Valid() && v < |world.s.hist|
      ensures world.s.hist[v].annotations != map[]
    {
      InvHolds(world.cfg, world.s);
      assert HasOther(world.s.hist[v]);
      assert world.s.hist[v].annotations.Keys != {};
    }
  }
}
