/** The process as a whole: recovery when it starts, and then the loop that receives start times from
    the scheduler's channel and runs the upgrades, one run at a time. */
module Daemon {
  import opened Wrappers
  import opened DaemonSets
  import opened Nodes
  import opened Times
  import opened Protocol
  import opened World
  import opened LockClient
  import opened Scheduling
  import KubeClient
  import Upgrades

  /** What the cron goroutine does around one run: how long the loop waits for a trigger, and when more
      of them fire before it is back at the channel, during the run or after it: how far into each. */
  datatype Firing = Firing(wait: nat, during: seq<nat>, after: seq<nat>)

  /** An instant between two others. */
  function Instant(offset: nat, since: nat, now: nat): (t: nat)
    requires since <= now
    ensures since <= t <= now
  {
    since + offset % (now - since + 1)
  }

  function Instants(offsets: seq<nat>, since: nat, now: nat): (r: seq<nat>)
    requires since <= now
    ensures |r| == |offsets|
  {
    seq(|offsets|, k requires 0 <= k < |offsets| => Instant(offsets[k], since, now))
  }

  /** How many triggers fire around the runs. */
  function Count(firings: seq<Firing>): nat {
    if firings == [] then 0
    else
      var last := firings[|firings| - 1];
      Count(firings[..|firings| - 1]) + 1 + |last.during| + |last.after|
  }

  /** How many triggers fire until the k-th run has failed. */
  function UntilFailure(firings: seq<Firing>, k: nat): nat
    requires k < |firings|
  {
    Count(firings[..k]) + 1 + |firings[k].during|
  }

  /** A run without an error has done nothing to the host but upgrade it once, successfully. */
  predicate UpgradedOnce(before: seq<Deed>, after: seq<Deed>) {
    |after| == |before| + 1 && before <= after && after[|before|].Upgraded? && after[|before|].err.None?
  }

  /** The same, for a number of runs. */
  predicate UpgradedEach(before: seq<Deed>, after: seq<Deed>, runs: nat) {
    && |after| == |before| + runs && before <= after
    && forall k :: |before| <= k < |after| ==> after[k].Upgraded? && after[k].err.None?
  }

  lemma UpgradedNext(first: seq<Deed>, before: seq<Deed>, after: seq<Deed>, runs: nat)
    requires UpgradedEach(first, before, runs) && UpgradedOnce(before, after)
    ensures UpgradedEach(first, after, runs + 1)
  {
  }

  class Process {
    const world: Cluster
    const kube: KubeClient.Kube
    const runner: Upgrades.Runner
    const window: int
    const start: nat
    var phase: Phase
    var log: seq<Entry>            // when runs began and ended
    var fired: seq<nat>            // the times of all triggers
    var dropped: seq<nat>          // the times of those that were skipped
    ghost var signals: seq<Signal>
    ghost var clock: nat           // when the last signal was

    constructor (world: Cluster, steps: nat, rebootTimeout: nat, window: int)
      requires world.Valid() && steps > 0 && world.Me().pc.CheckReboot? && world.meter.runs == []
      ensures Valid() && Starting() && this.world == world && this.window == window && fired == []
    {
      this.world, this.window, this.start := world, window, world.s.now;
      var kube := new KubeClient.Kube(world, steps);
      this.kube := kube;
      this.runner := new Upgrades.Runner(world, kube, rebootTimeout);
      this.phase, this.log, this.fired, this.dropped := Approaching, [], [], [];
      this.signals, this.clock := [], world.s.now;
    }

    ghost predicate Parts()
      reads this, world, runner, kube, kube.lock, kube.node
    {
      runner.world == world && runner.kube == kube && runner.Valid()
    }

    /** The history is one of the scheduler's, and up to date. */
    ghost predicate Valid()
      reads this, world, runner, kube, kube.lock, kube.node
    {
      && Parts()
      && clock <= world.s.now
      && After(window, start, signals) == Some(Timeline(clock, phase, log, dropped))
      && Triggers(signals) == fired
    }

    ghost predicate Starting()
      reads this, world
    {
      phase.Approaching? && log == [] && dropped == [] && world.meter.runs == []
    }

    /** Whenever the loop is at the channel, or on its way there, the process does not hold the lock and
        its node is neither drained nor marked; and as many runs were made as triggers started one, each
        with its own deadline. */
    ghost predicate AtRest()
      requires Parts()
      reads this, world, runner, kube, kube.lock, kube.node
    {
      && (phase.Approaching? || phase.Listening?) && kube.Clean()
      && world.meter.runs == Contexts(log)
    }

    /** A failed run has ended the process. */
    ghost predicate Gone()
      requires Parts()
      reads this, world, runner, kube, kube.lock, kube.node
    {
      phase.Exited? && world.Me().pc.Down? && world.meter.runs == Contexts(log)
    }

    ghost method Note(e: Signal)
      requires Parts() && clock <= world.s.now
      requires After(window, start, signals).Some? && Triggers(signals) == fired
      requires After(window, start, signals).value.now == clock
      requires Possible(After(window, start, signals).value.(now := world.s.now), e) && !e.Elapse?
      modifies this`signals, this`clock
      ensures clock == world.s.now
      ensures After(window, start, signals) ==
              Some(React(window, old(After(window, start, signals)).value.(now := world.s.now), e))
      ensures Triggers(signals) == fired + (if e.Trigger? then [e.time] else [])
    {
      var elapsed := Elapse(world.s.now - clock);
      AfterNext(window, start, signals, elapsed);
      AfterNext(window, start, signals + [elapsed], e);
      signals := signals + [elapsed] + [e];
      clock := world.s.now;
    }

    /** The cron goroutine offers the time it read: a non-blocking send. */
    method Fire(time: nat) returns (accepted: bool)
      requires Valid() && time <= world.s.now && !phase.Exited?
      modifies this
      ensures Valid() && fired == old(fired) + [time]
      ensures accepted <==> old(phase).Listening?
      ensures if accepted then
                && phase == Running(time) && dropped == old(dropped)
                && log == old(log) + [Began(time, world.s.now, ContextOf(window, time))]
              else
                && phase == old(phase) && log == old(log) && dropped == old(dropped) + [time]
    {
      Note(Scheduling.Trigger(time));
      fired := fired + [time];
      if phase.Listening? {
        log := log + [Began(time, world.s.now, ContextOf(window, time))];
        phase := Running(time);
        return true;
      }
      dropped := dropped + [time];
      return false;
    }

    /** The triggers that fire while the loop is not at the channel are skipped, every one of them. */
    method Skip(offsets: seq<nat>, since: nat)
      requires Valid() && !phase.Listening? && !phase.Exited? && since <= world.s.now
      modifies this
      ensures Valid() && phase == old(phase) && log == old(log)
      ensures fired == old(fired) + Instants(offsets, since, world.s.now)
      ensures dropped == old(dropped) + Instants(offsets, since, world.s.now)
    {
      ghost var all := Instants(offsets, since, world.s.now);
      for k := 0 to |offsets|
        invariant Valid() && phase == old(phase) && log == old(log)
        invariant fired == old(fired) + all[..k] && dropped == old(dropped) + all[..k]
      {
        var accepted := Fire(Instant(offsets[k], since, world.s.now));
        assert all[..k + 1] == all[..k] + [all[k]];
      }
      assert all[..|offsets|] == all;
    }

    /** The loop waits at the channel. */
    method Await(wait: nat)
      requires Valid() && phase.Approaching? && AtRest()
      modifies this, world
      ensures Valid() && phase.Listening? && AtRest() && log == old(log) && fired == old(fired)
      ensures world.s.now >= old(world.s.now) + wait
      ensures world.meter.runs == old(world.meter.runs) && world.meter.deeds == old(world.meter.deeds)
    {
      Note(Listen);
      phase := Listening;
      world.Sleep(wait, Channel);
      kube.IdleClean();
    }

    /** The loop receives the next start time, which is not earlier than when it came to the channel. */
    method Receive(wait: nat) returns (startTime: nat)
      requires Valid() && phase.Approaching? && AtRest()
      modifies this, world
      ensures Valid() && phase == Running(startTime) && world.Me().pc.Idle?
      ensures old(world.s.now) + wait <= startTime <= world.s.now
      ensures Contexts(log) == world.meter.runs + [ContextOf(window, startTime)] && fired == old(fired) + [startTime]
      ensures world.meter.runs == old(world.meter.runs) && world.meter.deeds == old(world.meter.deeds)
    {
      Await(wait);
      startTime := world.s.now;
      LogNext(log, Began(startTime, world.s.now, ContextOf(window, startTime)));
      var accepted := Fire(startTime);
    }

    /** The job returns. */
    method Conclude(failed: bool)
      requires Valid() && phase.Running?
      modifies this
      ensures Valid() && log == old(log) + [Ended(world.s.now, failed)] && Contexts(log) == old(Contexts(log))
      ensures fired == old(fired)
      ensures phase == if failed then Exited else Approaching
    {
      Note(Return(failed));
      LogNext(log, Ended(world.s.now, failed));
      log := log + [Ended(world.s.now, failed)];
      phase := if failed then Exited else Approaching;
    }

    /** Runs the upgrades with the deadline of this start time. */
    method Upgrade(startTime: nat) returns (err: Option<Error>)
      requires Valid() && world.Me().pc.Idle?
      modifies world
      ensures Valid() && world.meter.runs == old(world.meter.runs) + [ContextOf(window, startTime)]
      ensures world.s.now >= old(world.s.now)
      ensures if err.None? then kube.Clean() else world.Me().pc.Down?
      ensures err.None? ==> UpgradedOnce(old(world.meter.deeds), world.meter.deeds)
    {
      var ctx := Background;
      if window != 0 {
        var deadline := startTime + window;
        ctx := Deadline(deadline);
      }
      assert ctx == ContextOf(window, startTime);
      ghost var deeds;
      err, deeds := runner.Run(ctx);
    }

    /** Runs the job for a start time. An error ends the process. */
    method Work(startTime: nat, during: seq<nat>) returns (err: Option<Error>)
      requires Valid() && phase == Running(startTime) && world.Me().pc.Idle?
      requires world.meter.runs + [ContextOf(window, startTime)] == Contexts(log)
      modifies this, world
      ensures Valid() && world.meter.runs == old(world.meter.runs) + [ContextOf(window, startTime)]
      ensures err.None? ==> UpgradedOnce(old(world.meter.deeds), world.meter.deeds)
      ensures |fired| == old(|fired|) + |during|
      ensures if err.None? then phase.Approaching? && AtRest() else Gone()
    {
      var since := world.s.now;
      err := Upgrade(startTime);
      Skip(during, since);
      Conclude(err.Some?);
    }

    /** The loop is on its way back to the channel. */
    method Linger()
      requires Valid() && phase.Approaching? && AtRest()
      modifies world
      ensures Valid() && AtRest() && world.s.now >= old(world.s.now)
      ensures world.meter.runs == old(world.meter.runs) && world.meter.deeds == old(world.meter.deeds)
    {
      world.Interfere();
      kube.IdleClean();
    }

    /** One turn of the receive loop: a start time is received, and its run made. */
    method Turn(firing: Firing) returns (err: Option<Error>)
      requires Valid() && phase.Approaching? && AtRest()
      modifies this, world
      ensures Valid() && |world.meter.runs| == old(|world.meter.runs|) + 1
      ensures err.None? ==> UpgradedOnce(old(world.meter.deeds), world.meter.deeds)
      ensures |fired| == old(|fired|) + 1 + |firing.during| + if err.None? then |firing.after| else 0
      ensures if err.None? then phase.Approaching? && AtRest() else Gone()
    {
      var startTime := Receive(firing.wait);
      err := Work(startTime, firing.during);
      if err.None? {
        var ended := world.s.now;
        Linger();
        Skip(firing.after, ended);
      }
    }

    /** The receive loop, for any number of triggers. Runs never overlap, every trigger has either started
        exactly one run, whose deadline is that trigger plus the window, or was skipped; between two runs the
        process holds no lock and its node is neither drained nor marked; and a failed run ends the process. */
    method Serve(firings: seq<Firing>) returns (err: Option<Error>)
      requires Valid() && phase.Approaching? && AtRest()
      modifies this, world
      ensures Valid() && Consistent(window, Timeline(clock, phase, log, dropped))
      ensures if err.None? then phase.Approaching? && AtRest() else Gone()
      ensures multiset(fired) == multiset(Started(log)) + multiset(dropped)
      ensures AllDue(window, Started(log), world.meter.runs)
      ensures err.None? ==> |world.meter.runs| == old(|world.meter.runs|) + |firings|
      ensures err.None? ==> UpgradedEach(old(world.meter.deeds), world.meter.deeds, |firings|)
      ensures err.None? ==> |fired| == old(|fired|) + Count(firings)
      ensures err.Some? ==> exists k :: 0 <= k < |firings| && |fired| == old(|fired|) + UntilFailure(firings, k)
    {
      err := None;
      for k := 0 to |firings|
        invariant Valid() && phase.Approaching? && AtRest() && err.None?
        invariant |world.meter.runs| == old(|world.meter.runs|) + k
        invariant UpgradedEach(old(world.meter.deeds), world.meter.deeds, k)
        invariant |fired| == old(|fired|) + Count(firings[..k])
      {
        ghost var before := world.meter.deeds;
        err := Turn(firings[k]);
        if err.Some? {
          assert |fired| == old(|fired|) + UntilFailure(firings, k);
          break;
        }
        assert firings[..k + 1][..k] == firings[..k];
        UpgradedNext(old(world.meter.deeds), before, world.meter.deeds, k);
      }
      assert firings[..|firings|] == firings;
      NeverOverlap(window, start, signals);
      EachDue(window, log);
      StartedOrSkipped(window, start, signals);
    }

    /** The loop from the start of the process on. */
    method ServeAll(firings: seq<Firing>) returns (err: Option<Error>)
      requires Valid() && Starting() && kube.Clean()
      modifies this, world
      ensures Valid() && Consistent(window, Timeline(clock, phase, log, dropped))
      ensures if err.None? then AtRest() && LeftClean() && |world.meter.runs| == |firings| else world.Me().pc.Down?
      ensures err.None? ==> UpgradedEach(old(world.meter.deeds), world.meter.deeds, |firings|)
      ensures AllDue(window, Started(log), world.meter.runs)
    {
      err := Serve(firings);
    }

    /** Without a schedule there is one run, without a deadline, and then the process ends. */
    method RunOnce() returns (err: Option<Error>)
      requires Parts() && kube.Clean() && world.meter.runs == []
      modifies world
      ensures Parts() && world.Me().pc.Down? && world.meter.runs == [Background]
      ensures err.None? ==> LeftClean() && UpgradedEach(old(world.meter.deeds), world.meter.deeds, 1)
    {
      ghost var deeds;
      err, deeds := runner.Run(Background);
      if err.None? {
        world.Exit();
      }
    }

    /** The node is neither drained nor marked, and does not hold the lock, unless a request that was
        given up on can still commit. */
    ghost predicate LeftClean()
      requires Parts()
      reads this, world, runner, kube, kube.lock, kube.node
    {
      && !Drained(world.Me().node) && !Marked(world.Me())
      && (world.cfg.late || LockValue(world.s.ds) != world.Name())
    }

    /** The whole life of a process: it recovers, and then serves the schedule, or without one runs once.
        While the host has not made the reboot that its node is marked for, or without a node name, it
        runs nothing. Wherever it gets without an error it leaves the node clean; after an error the
        process is gone. */
    method Execute(schedule: Option<seq<Firing>>) returns (err: Option<Error>)
      requires Valid() && Starting() && world.Me().pc.CheckReboot?
      modifies this, world
      ensures Parts() && (err.Some? || schedule.None? ==> world.Me().pc.Down?)
      ensures err.None? ==> LeftClean()
      ensures Marked(old(world.Me())) || world.Name() == "" ==> err.Some? && world.meter.runs == []
      ensures err.None? ==> |world.meter.runs| == if schedule.Some? then |schedule.value| else 1
      ensures err.None? ==> UpgradedEach(old(world.meter.deeds), world.meter.deeds, |world.meter.runs|)
      ensures err.None? && schedule.Some? ==>
                Valid() && AtRest() && Consistent(window, Timeline(clock, phase, log, dropped))
      ensures schedule.Some? ==> AllDue(window, Started(log), world.meter.runs)
      ensures schedule.None? ==> forall k :: 0 <= k < |world.meter.runs| ==> world.meter.runs[k].Background?
    {
      err := kube.MakeKube();
      if err.Some? {
        return;
      }
      if schedule.Some? {
        err := ServeAll(schedule.value);
        return;
      }
      err := RunOnce();
    }
  }
}
