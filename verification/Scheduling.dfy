/** Scheduled runs: one goroutine receives start times from an unbuffered channel and runs the job for
    each; a trigger hands its time over if the receiver is waiting, and is dropped otherwise. */
module Scheduling {
  import opened Wrappers
  import opened Times

  /** What the receiving goroutine is doing: on its way to the channel, waiting at it, running a job,
      or gone with the process after a job failed. */
  datatype Phase = Approaching | Listening | Running(trigger: nat) | Exited

  datatype Entry = Began(trigger: nat, at: nat, ctx: Context) | Ended(at: nat, failed: bool)

  datatype Signal =
    | Elapse(d: nat)
    | Listen
    | Trigger(time: nat)       // the time the cron goroutine read before it offered it
    | Return(failed: bool)     // the job returns

  /** `log`: when jobs began and ended. `dropped`: the times of the triggers that were skipped. */
  datatype Timeline = Timeline(now: nat, phase: Phase, log: seq<Entry>, dropped: seq<nat>)

  /** The context of a run: with a window, a deadline that far after its own trigger. */
  function ContextOf(window: int, trigger: nat): Context {
    if window != 0 then Deadline(trigger + window) else Background
  }

  predicate Possible(s: Timeline, e: Signal) {
    match e
    case Elapse(_) => true
    case Listen => s.phase.Approaching?
    case Trigger(time) => time <= s.now && !s.phase.Exited?
    case Return(_) => s.phase.Running?
  }

  function React(window: int, s: Timeline, e: Signal): Timeline
    requires Possible(s, e)
  {
    match e
    case Elapse(d) => s.(now := s.now + d)
    case Listen => s.(phase := Listening)
    case Trigger(time) =>
      if s.phase.Listening?
      then s.(phase := Running(time), log := s.log + [Began(time, s.now, ContextOf(window, time))])
      else s.(dropped := s.dropped + [time])
    case Return(failed) =>
      s.(phase := if failed then Exited else Approaching, log := s.log + [Ended(s.now, failed)])
  }

  /** The timeline after the signals, as long as each of them is possible when it happens. */
  function After(window: int, start: nat, signals: seq<Signal>): Option<Timeline> {
    if signals == [] then Some(Timeline(start, Approaching, [], []))
    else
      var before := After(window, start, signals[..|signals| - 1]);
      var e := signals[|signals| - 1];
      if before.Some? && Possible(before.value, e) then Some(React(window, before.value, e)) else None
  }

  lemma AfterNext(window: int, start: nat, signals: seq<Signal>, e: Signal)
    requires After(window, start, signals).Some? && Possible(After(window, start, signals).value, e)
    ensures After(window, start, signals + [e]) == Some(React(window, After(window, start, signals).value, e))
    ensures Triggers(signals + [e]) == Triggers(signals) + (if e.Trigger? then [e.time] else [])
  {
    assert (signals + [e])[..|signals|] == signals;
  }

  function Triggers(signals: seq<Signal>): seq<nat> {
    if signals == [] then []
    else
      var e := signals[|signals| - 1];
      Triggers(signals[..|signals| - 1]) + (if e.Trigger? then [e.time] else [])
  }

  /** Times of the triggers that started a run. */
  function Started(log: seq<Entry>): seq<nat> {
    if log == [] then []
    else
      var x := log[|log| - 1];
      Started(log[..|log| - 1]) + (if x.Began? then [x.trigger] else [])
  }

  /** The contexts of the runs. */
  function Contexts(log: seq<Entry>): seq<Context> {
    if log == [] then []
    else
      var x := log[|log| - 1];
      Contexts(log[..|log| - 1]) + (if x.Began? then [x.ctx] else [])
  }

  lemma LogNext(log: seq<Entry>, x: Entry)
    ensures Started(log + [x]) == Started(log) + (if x.Began? then [x.trigger] else [])
    ensures Contexts(log + [x]) == Contexts(log) + (if x.Began? then [x.ctx] else [])
  {
    assert (log + [x])[..|log|] == log;
  }

  /** With a window the run has to begin within it, counted from the trigger; without one it may wait. */
  predicate Due(window: int, trigger: nat, ctx: Context) {
    if window != 0 then ctx.Deadline? && ctx.at - trigger == window else ctx.Background?
  }

  /** The runs were made for these triggers, in this order, each with its own deadline. */
  ghost predicate AllDue(window: int, triggers: seq<nat>, runs: seq<Context>) {
    |runs| == |triggers| && forall k :: 0 <= k < |runs| ==> Due(window, triggers[k], runs[k])
  }

  lemma {:induction false} EachDue(window: int, log: seq<Entry>)
    requires Alternating(window, log)
    ensures AllDue(window, Started(log), Contexts(log))
  {
    if log != [] {
      EachDue(window, log[..|log| - 1]);
    }
  }

  /** Runs do not overlap: the log is a strict alternation of beginnings and ends in time order, only
      its last entry can be an open beginning, and nothing follows a failed run. */
  ghost predicate Alternating(window: int, log: seq<Entry>) {
    && (forall k :: 0 <= k < |log| ==> (log[k].Began? <==> k % 2 == 0))
    && (forall j, k :: 0 <= j < k < |log| ==> log[j].at <= log[k].at)
    && (forall k :: 0 <= k < |log| && log[k].Began? ==>
          log[k].trigger <= log[k].at && Due(window, log[k].trigger, log[k].ctx))
    && (forall k :: 0 <= k < |log| - 1 ==> !(log[k].Ended? && log[k].failed))
  }

  ghost predicate Consistent(window: int, s: Timeline) {
    && Alternating(window, s.log)
    && (forall k :: 0 <= k < |s.log| ==> s.log[k].at <= s.now)
    && (s.phase.Running? <==> |s.log| % 2 == 1)
    && (s.phase.Running? ==> s.log[|s.log| - 1].trigger == s.phase.trigger)
    && (s.phase.Exited? <==> |s.log| > 0 && s.log[|s.log| - 1].Ended? && s.log[|s.log| - 1].failed)
  }

  lemma ConsistentNext(window: int, s: Timeline, e: Signal)
    requires Consistent(window, s) && Possible(s, e)
    ensures Consistent(window, React(window, s, e))
  {
    var t := React(window, s, e);
    if |t.log| > |s.log| {
      AlternatingNext(window, s.log, t.log[|s.log|]);
    }
  }

  lemma AlternatingNext(window: int, log: seq<Entry>, x: Entry)
    requires Alternating(window, log) && (x.Began? <==> |log| % 2 == 0)
    requires forall k :: 0 <= k < |log| ==> log[k].at <= x.at
    requires x.Began? ==> x.trigger <= x.at && Due(window, x.trigger, x.ctx)
    requires log != [] ==> !(log[|log| - 1].Ended? && log[|log| - 1].failed)
    ensures Alternating(window, log + [x])
  {
  }

  /** In every history of the scheduler runs never overlap, each run's deadline is its own trigger plus
      the window, and nothing runs after a failed run. */
  lemma {:induction false} NeverOverlap(window: int, start: nat, signals: seq<Signal>)
    ensures var s := After(window, start, signals); s.Some? ==> Consistent(window, s.value)
  {
    if signals != [] {
      var init := signals[..|signals| - 1];
      NeverOverlap(window, start, init);
      var before := After(window, start, init);
      if before.Some? && Possible(before.value, signals[|signals| - 1]) {
        ConsistentNext(window, before.value, signals[|signals| - 1]);
      }
    }
  }

  /** Every trigger either started a run or was skipped, exactly once. */
  lemma {:induction false} StartedOrSkipped(window: int, start: nat, signals: seq<Signal>)
    ensures var s := After(window, start, signals);
            s.Some? ==> multiset(Triggers(signals)) == multiset(Started(s.value.log)) + multiset(s.value.dropped)
  {
    if signals != [] {
      var init, e := signals[..|signals| - 1], signals[|signals| - 1];
      StartedOrSkipped(window, start, init);
      var before := After(window, start, init);
      if before.Some? && Possible(before.value, e) {
        AccountNext(window, before.value, e);
      }
    }
  }

  lemma AccountNext(window: int, s: Timeline, e: Signal)
    requires Possible(s, e)
    ensures var t := React(window, s, e);
            multiset(Started(t.log)) + multiset(t.dropped)
            == multiset(Started(s.log)) + multiset(s.dropped) + (if e.Trigger? then multiset{e.time} else multiset{})
  {
    var t := React(window, s, e);
    if |t.log| > |s.log| {
      assert t.log[..|t.log| - 1] == s.log;
    }
  }
}
