/** What the history of a member records, told by the steps of the run alone: which step set it last,
    and that none has reset it since. */
module History {
  import opened Annotations
  import opened Conditions
  import opened DaemonSets
  import opened Nodes
  import opened Protocol
  import opened Invariant
  import opened Safety

  /** A run of node i that got as far as draining or rebooting gives up with an error. */
  ghost predicate ErrorRelease(cfg: Config, s: State, t: State, i: nat) {
    ErrorStep(cfg, s, t, i) && i < |s.members| && !s.members[i].pc.Reporting?
  }

  /** `DrainNode` annotates node i. */
  ghost predicate DrainStep(cfg: Config, s: State, t: State, i: nat) {
    var a := WriteNode(i, SetAnnotation(DrainKey, Flag));
    Enabled(cfg, s, a) && t == Next(cfg, s, a)
  }

  /** A run of node i goes on after `UpdateHostStatus`. */
  ghost predicate ReportStep(cfg: Config, s: State, t: State, i: nat) {
    && i < |s.members| && s.members[i].pc.Reporting?
    && exists to :: Enabled(cfg, s, Move(i, to)) && t == Next(cfg, s, Move(i, to))
  }

  /** The same, and the report was not committed. */
  ghost predicate LostReport(cfg: Config, s: State, t: State, i: nat) {
    ReportStep(cfg, s, t, i) && !s.members[i].wrote
  }

  /** `host.Reboot` of node i has succeeded. */
  ghost predicate RequestStep(cfg: Config, s: State, t: State, i: nat) {
    Enabled(cfg, s, Move(i, Waiting)) && t == Next(cfg, s, Move(i, Waiting))
  }

  ghost predicate BootStep(cfg: Config, s: State, t: State, i: nat) {
    Enabled(cfg, s, HostReboot(i)) && t == Next(cfg, s, HostReboot(i))
  }

  /** Something switched on before point b, and nothing has switched it off since. */
  ghost predicate OnSince(on: seq<bool>, off: seq<bool>, b: nat)
    requires b <= |on| == |off|
  {
    exists k :: 0 <= k < b && on[k] && forall j :: k < j < b ==> !off[j]
  }

  /** A flag that each step sets, resets or keeps is up exactly when it was set and not reset since. */
  lemma {:induction false} FlagIff(flag: seq<bool>, on: seq<bool>, off: seq<bool>, b: nat)
    requires b <= |on| == |off| && |flag| == |on| + 1 && !flag[0]
    requires forall k :: 0 <= k < |on| ==> (flag[k + 1] <==> on[k] || (flag[k] && !off[k]))
    ensures flag[b] <==> OnSince(on, off, b)
  {
    if b > 0 {
      FlagIff(flag, on, off, b - 1);
      assert flag[b - 1 + 1] <==> on[b - 1] || (flag[b - 1] && !off[b - 1]);
      if on[b - 1] {
        assert OnSince(on, off, b);
      } else if OnSince(on, off, b - 1) && !off[b - 1] {
        var k :| 0 <= k < b - 1 && on[k] && forall j :: k < j < b - 1 ==> !off[j];
        assert forall j :: k < j < b ==> !off[j];
      }
    }
  }

  /** Which steps of the run are of a kind. */
  ghost function Steps(run: seq<State>, kind: (State, State) -> bool): seq<bool>
    requires run != []
  {
    seq(|run| - 1, k requires 0 <= k < |run| - 1 => kind(run[k], run[k + 1]))
  }

  lemma StepsAt(run: seq<State>, kind: (State, State) -> bool, k: nat)
    requires k + 1 < |run|
    ensures |Steps(run, kind)| == |run| - 1 && Steps(run, kind)[k] == kind(run[k], run[k + 1])
  {
  }

  /** The step sets the flag, resets it, or keeps it. */
  ghost predicate FlagStep(flag: State -> bool, on: (State, State) -> bool, off: (State, State) -> bool,
                           s: State, t: State)
  {
    flag(t) <==> on(s, t) || (flag(s) && !off(s, t))
  }

  /** The same for a flag of the states of a run. */
  lemma FlagOfRun(run: seq<State>, flag: State -> bool, on: (State, State) -> bool, off: (State, State) -> bool, b: nat)
    requires b < |run| && !flag(run[0])
    requires forall k :: 0 <= k < |run| - 1 ==> FlagStep(flag, on, off, run[k], run[k + 1])
    ensures flag(run[b]) <==> OnSince(Steps(run, on), Steps(run, off), b)
  {
    var flags := seq(|run|, k requires 0 <= k < |run| => flag(run[k]));
    forall k | 0 <= k < |run| - 1
      ensures flags[k + 1] <==> Steps(run, on)[k] || (flags[k] && !Steps(run, off)[k])
    {
      StepsAt(run, on, k);
      StepsAt(run, off, k);
      assert FlagStep(flag, on, off, run[k], run[k + 1]);
    }
    FlagIff(flags, Steps(run, on), Steps(run, off), b);
  }

  // ---------------------------------------------------------------- one step

  lemma FailedStep(cfg: Config, s: State, a: Action, i: nat)
    requires Enabled(cfg, s, a) && i < |s.members| && i < |cfg.names|
    ensures var t := Next(cfg, s, a);
            && i < |t.members|
            && (t.members[i].failed <==>
                  ErrorRelease(cfg, s, t, i) || (s.members[i].failed && !DrainStep(cfg, s, t, i)))
  {
    var t := Next(cfg, s, a);
    if t.members[i].failed && !s.members[i].failed {
      assert a == Move(i, Releasing(true));
    }
    if s.members[i].failed && !t.members[i].failed {
      assert a == WriteNode(i, SetAnnotation(DrainKey, Flag));
    }
  }

  lemma MissedStep(cfg: Config, s: State, a: Action, i: nat)
    requires Enabled(cfg, s, a) && i < |s.members| && i < |cfg.names|
    ensures var t := Next(cfg, s, a);
            && i < |t.members|
            && (t.members[i].missed <==>
                  LostReport(cfg, s, t, i) || (s.members[i].missed && !ReportStep(cfg, s, t, i)))
  {
    var t := Next(cfg, s, a);
    if t.members[i].missed != s.members[i].missed {
      assert a == Move(i, a.to) && s.members[i].pc.Reporting?;
    }
  }

  lemma IssuedStep(cfg: Config, s: State, a: Action, i: nat)
    requires Enabled(cfg, s, a) && i < |s.members| && i < |cfg.names|
    requires s.members[i].pc.Waiting? ==> s.members[i].issued
    ensures var t := Next(cfg, s, a);
            && i < |t.members|
            && (t.members[i].issued <==>
                  RequestStep(cfg, s, t, i) || (s.members[i].issued && !BootStep(cfg, s, t, i)))
  {
    var t := Next(cfg, s, a);
    IssuedChange(cfg, s, a, i);
    if RequestStep(cfg, s, t, i) {
      assert t.members[i] == Moved(s.members[i], Waiting);
    } else if BootStep(cfg, s, t, i) {
      assert !t.members[i].issued;
    }
  }

  lemma IssuedChange(cfg: Config, s: State, a: Action, i: nat)
    requires Enabled(cfg, s, a) && i < |s.members| && i < |cfg.names|
    ensures i < |Next(cfg, s, a).members|
    ensures Next(cfg, s, a).members[i].issued ==> s.members[i].issued || a == Move(i, Waiting)
    ensures s.members[i].issued ==> Next(cfg, s, a).members[i].issued || a == HostReboot(i)
  {
  }

  // ---------------------------------------------------------------- every run

  lemma LastStep(cfg: Config, run: seq<State>, b: nat, i: nat) returns (act: Action)
    requires ValidConfig(cfg) && IsRun(cfg, run) && 0 < b < |run| && i < |cfg.names|
    ensures |run[b - 1].members| == |cfg.names| && Inv(cfg, run[b - 1])
    ensures Enabled(cfg, run[b - 1], act) && run[b] == Next(cfg, run[b - 1], act)
  {
    assert RunState(cfg, run, b);
    act :| Enabled(cfg, run[b - 1], act) && run[b] == Next(cfg, run[b - 1], act);
    InvRun(cfg, run, b - 1);
  }

  lemma SizeAt(cfg: Config, run: seq<State>, b: nat)
    requires ValidConfig(cfg) && IsRun(cfg, run) && b < |run|
    ensures |run[b].members| == |cfg.names|
  {
    InvRun(cfg, run, b);
  }

  lemma NothingAtStart(cfg: Config, run: seq<State>, i: nat)
    requires IsRun(cfg, run) && i < |cfg.names|
    ensures i < |run[0].members|
    ensures !run[0].members[i].failed && !run[0].members[i].missed && !run[0].members[i].issued
  {
    assert RunState(cfg, run, 0);
    assert FreshMember(run[0].members[i], run[0].now);
  }

  lemma FailedAt(cfg: Config, run: seq<State>, k: nat, i: nat)
    requires ValidConfig(cfg) && IsRun(cfg, run) && k + 1 < |run| && i < |cfg.names|
    ensures i < |run[k].members| && i < |run[k + 1].members|
    ensures run[k + 1].members[i].failed <==>
              ErrorRelease(cfg, run[k], run[k + 1], i)
              || (run[k].members[i].failed && !DrainStep(cfg, run[k], run[k + 1], i))
  {
    var act := LastStep(cfg, run, k + 1, i);
    FailedStep(cfg, run[k], act, i);
  }

  lemma MissedAt(cfg: Config, run: seq<State>, k: nat, i: nat)
    requires ValidConfig(cfg) && IsRun(cfg, run) && k + 1 < |run| && i < |cfg.names|
    ensures i < |run[k].members| && i < |run[k + 1].members|
    ensures run[k + 1].members[i].missed <==>
              LostReport(cfg, run[k], run[k + 1], i)
              || (run[k].members[i].missed && !ReportStep(cfg, run[k], run[k + 1], i))
  {
    var act := LastStep(cfg, run, k + 1, i);
    MissedStep(cfg, run[k], act, i);
  }

  lemma IssuedAt(cfg: Config, run: seq<State>, k: nat, i: nat)
    requires ValidConfig(cfg) && IsRun(cfg, run) && k + 1 < |run| && i < |cfg.names|
    ensures i < |run[k].members| && i < |run[k + 1].members|
    ensures run[k + 1].members[i].issued <==>
              RequestStep(cfg, run[k], run[k + 1], i)
              || (run[k].members[i].issued && !BootStep(cfg, run[k], run[k + 1], i))
  {
    var act := LastStep(cfg, run, k + 1, i);
    assert MemberOk(cfg, run[k], i);
    IssuedStep(cfg, run[k], act, i);
  }

  /** At any point of any run `failed` says exactly that the node took an error release, and was not
      drained since. */
  lemma FailedIff(cfg: Config, run: seq<State>, b: nat, i: nat)
    requires ValidConfig(cfg) && IsRun(cfg, run) && b < |run| && i < |cfg.names|
    ensures |run[b].members| == |cfg.names|
    ensures run[b].members[i].failed <==>
              OnSince(Steps(run, (s, t) => ErrorRelease(cfg, s, t, i)),
                      Steps(run, (s, t) => DrainStep(cfg, s, t, i)), b)
  {
    var flag := (s: State) => i < |s.members| && s.members[i].failed;
    var on := (s: State, t: State) => ErrorRelease(cfg, s, t, i);
    var off := (s: State, t: State) => DrainStep(cfg, s, t, i);
    NothingAtStart(cfg, run, i);
    forall k | 0 <= k < |run| - 1 ensures FlagStep(flag, on, off, run[k], run[k + 1]) {
      FailedAt(cfg, run, k, i);
    }
    FlagOfRun(run, flag, on, off, b);
    SizeAt(cfg, run, b);
  }

  /** `missed` says exactly that the node's last report was lost. */
  lemma MissedIff(cfg: Config, run: seq<State>, b: nat, i: nat)
    requires ValidConfig(cfg) && IsRun(cfg, run) && b < |run| && i < |cfg.names|
    ensures |run[b].members| == |cfg.names|
    ensures run[b].members[i].missed <==>
              OnSince(Steps(run, (s, t) => LostReport(cfg, s, t, i)), Steps(run, (s, t) => ReportStep(cfg, s, t, i)), b)
  {
    var flag := (s: State) => i < |s.members| && s.members[i].missed;
    var on := (s: State, t: State) => LostReport(cfg, s, t, i);
    var off := (s: State, t: State) => ReportStep(cfg, s, t, i);
    NothingAtStart(cfg, run, i);
    forall k | 0 <= k < |run| - 1 ensures FlagStep(flag, on, off, run[k], run[k + 1]) {
      MissedAt(cfg, run, k, i);
    }
    FlagOfRun(run, flag, on, off, b);
    SizeAt(cfg, run, b);
  }

  /** `issued` says exactly that a reboot of the host was requested and it has not booted since. */
  lemma IssuedIff(cfg: Config, run: seq<State>, b: nat, i: nat)
    requires ValidConfig(cfg) && IsRun(cfg, run) && b < |run| && i < |cfg.names|
    ensures |run[b].members| == |cfg.names|
    ensures run[b].members[i].issued <==>
              OnSince(Steps(run, (s, t) => RequestStep(cfg, s, t, i)), Steps(run, (s, t) => BootStep(cfg, s, t, i)), b)
  {
    var flag := (s: State) => i < |s.members| && s.members[i].issued;
    var on := (s: State, t: State) => RequestStep(cfg, s, t, i);
    var off := (s: State, t: State) => BootStep(cfg, s, t, i);
    NothingAtStart(cfg, run, i);
    forall k | 0 <= k < |run| - 1 ensures FlagStep(flag, on, off, run[k], run[k + 1]) {
      IssuedAt(cfg, run, k, i);
    }
    FlagOfRun(run, flag, on, off, b);
    SizeAt(cfg, run, b);
  }

  /** In terms of runs alone: a node that is drained without holding the lock took an error release
      since it was last drained. */
  lemma DrainedUnlockedByError(cfg: Config, run: seq<State>, b: nat, i: nat)
    requires ValidConfig(cfg) && IsRun(cfg, run) && b < |run| && i < |cfg.names|
    requires i < |run[b].members| && Drained(run[b].members[i].node) && LockValue(run[b].ds) != cfg.names[i]
    ensures OnSince(Steps(run, (s, t) => ErrorRelease(cfg, s, t, i)), Steps(run, (s, t) => DrainStep(cfg, s, t, i)), b)
  {
    InvRun(cfg, run, b);
    assert MemberOk(cfg, run[b], i);
    FailedIff(cfg, run, b, i);
  }

  /** And a node whose conditions contradict each other lost the report of its last run. */
  lemma IncoherentByLostReport(cfg: Config, run: seq<State>, b: nat, i: nat)
    requires ValidConfig(cfg) && IsRun(cfg, run) && b < |run| && i < |cfg.names|
    requires i < |run[b].members| && !Coherent(run[b].members[i].node.conditions)
    ensures cfg.reboot && cfg.drain
    ensures OnSince(Steps(run, (s, t) => LostReport(cfg, s, t, i)), Steps(run, (s, t) => ReportStep(cfg, s, t, i)), b)
  {
    InvRun(cfg, run, b);
    assert MemberOk(cfg, run[b], i);
    MissedIff(cfg, run, b, i);
  }
}
