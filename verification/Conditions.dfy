/** Node conditions: the values the tool reports, and how a batch of them is merged into a list. */
module Conditions {
  import opened Wrappers

  datatype Status = True | False | Unknown

  /** The type of a condition: the two of the tool, and those of others. */
  datatype Kind = HostUpgrades | HostUpgradesReboot | OtherKind(name: string)

  datatype Reason = UpgradeFailed | RebootRequired | UpToDate | Rebooting | Rebooted | OtherReason(text: string)

  datatype Condition = Condition(
    kind: Kind, status: Status, heartbeat: int, transition: int, reason: Reason, message: string)

  /** Result of a host upgrade. */
  datatype HostStatus = HostStatus(rebootRequired: bool, since: int, message: string, log: string)

  // ---------------------------------------------------------------- the reported conditions

  function MakeUpgradeCondition(status: HostStatus, err: Option<string>, now: int): Condition {
    if err.Some? then Condition(HostUpgrades, Unknown, now, now, Reason.UpgradeFailed, err.value)
    else if status.rebootRequired then Condition(HostUpgrades, False, now, now, Reason.RebootRequired, status.log)
    else Condition(HostUpgrades, True, now, now, Reason.UpToDate, status.log)
  }

  function MakeRebootCondition(bootTime: int, status: HostStatus, err: Option<string>, now: int): Condition {
    if status.rebootRequired
    then Condition(HostUpgradesReboot, True, now, status.since, Reason.RebootRequired, status.message)
    else if err.Some? then Condition(HostUpgradesReboot, Unknown, now, now, Reason.UpgradeFailed, "")
    else Condition(HostUpgradesReboot, False, now, bootTime, Reason.UpToDate, status.message)
  }

  function MakeRebootConditionRebooting(rebootTime: int, now: int): Condition {
    Condition(HostUpgradesReboot, True, now, rebootTime, Reason.Rebooting, "")
  }

  function MakeRebootConditionRebooted(bootTime: int, now: int): Condition {
    Condition(HostUpgradesReboot, False, now, bootTime, Reason.Rebooted, "")
  }

  /** The batch one `UpdateHostStatus` call submits. */
  function Report(bootTime: int, status: HostStatus, err: Option<string>, now: int): seq<Condition> {
    [MakeUpgradeCondition(status, err, now), MakeRebootCondition(bootTime, status, err, now)]
  }

  // ---------------------------------------------------------------- lists of conditions

  /** Index of the first entry of the kind, or the length of the list. */
  function FirstIndex(cs: seq<Condition>, kind: Kind): (i: nat)
    ensures i <= |cs|
    ensures forall k :: 0 <= k < i ==> cs[k].kind != kind
    ensures i < |cs| ==> cs[i].kind == kind
  {
    if cs == [] || cs[0].kind == kind then 0 else 1 + FirstIndex(cs[1..], kind)
  }

  ghost predicate Has(cs: seq<Condition>, kind: Kind) {
    exists k :: 0 <= k < |cs| && cs[k].kind == kind
  }

  /** The condition of the kind, if there is one: the first match. */
  function Get(cs: seq<Condition>, kind: Kind): Option<Condition> {
    var i := FirstIndex(cs, kind);
    if i < |cs| then Some(cs[i]) else None
  }

  /** Overwrite the first entry of the same kind, or append. */
  function SetOne(cs: seq<Condition>, c: Condition): seq<Condition> {
    var i := FirstIndex(cs, c.kind);
    if i < |cs| then cs[i := c] else cs + [c]
  }

  function SetAll(cs: seq<Condition>, batch: seq<Condition>): (r: seq<Condition>)
    ensures |r| >= |cs|
  {
    if batch == [] then cs else SetOne(SetAll(cs, batch[..|batch| - 1]), batch[|batch| - 1])
  }

  /** The k-th entry of the batch is the last one of the kind. */
  ghost predicate IsLast(batch: seq<Condition>, kind: Kind, k: int) {
    && 0 <= k < |batch| && batch[k].kind == kind
    && forall j :: k < j < |batch| ==> batch[j].kind != kind
  }

  /** The last entry of the batch with the kind: the one a caller expects to see afterwards. */
  function LastOf(batch: seq<Condition>, kind: Kind): (r: Option<Condition>)
    ensures r.None? <==> !Has(batch, kind)
    ensures r.Some? ==> exists k :: IsLast(batch, kind, k) && batch[k] == r.value
  {
    if batch == [] then None
    else if batch[|batch| - 1].kind == kind then
      assert IsLast(batch, kind, |batch| - 1);
      Some(batch[|batch| - 1])
    else
      var init := batch[..|batch| - 1];
      assert Has(init, kind) <==> Has(batch, kind) by {
        assert batch == init + [batch[|batch| - 1]];
      }
      assert forall k :: IsLast(init, kind, k) ==> IsLast(batch, kind, k) && batch[k] == init[k];
      LastOf(init, kind)
  }

  ghost predicate DistinctKinds(cs: seq<Condition>) {
    forall j, k :: 0 <= j < k < |cs| ==> cs[j].kind != cs[k].kind
  }

  lemma FirstIndexIs(cs: seq<Condition>, kind: Kind, i: nat)
    requires i <= |cs|
    requires forall k :: 0 <= k < i ==> cs[k].kind != kind
    requires i < |cs| ==> cs[i].kind == kind
    ensures FirstIndex(cs, kind) == i
  {
  }

  lemma SetOneKinds(cs: seq<Condition>, c: Condition, kind: Kind)
    ensures var r := SetOne(cs, c);
            FirstIndex(r, kind) == if kind == c.kind || FirstIndex(cs, kind) < |cs| then FirstIndex(cs, kind) else |r|
  {
    var r := SetOne(cs, c);
    if kind == c.kind || FirstIndex(cs, kind) < |cs| {
      FirstIndexIs(r, kind, FirstIndex(cs, kind));
    } else {
      FirstIndexIs(r, kind, |r|);
    }
  }

  /** Looking a condition up after a batch: the last batch entry of its kind, else the old one. */
  lemma {:induction false} GetAfterSetAll(cs: seq<Condition>, batch: seq<Condition>, kind: Kind)
    ensures Get(SetAll(cs, batch), kind) == if LastOf(batch, kind).Some? then LastOf(batch, kind) else Get(cs, kind)
  {
    if batch != [] {
      var init, c := batch[..|batch| - 1], batch[|batch| - 1];
      GetAfterSetAll(cs, init, kind);
      SetOneKinds(SetAll(cs, init), c, kind);
    }
  }

  /** Entry by entry: an old entry stays at its index, and is replaced only when it is the first
      of its kind and the batch has that kind. */
  lemma {:induction false} SetAllAt(cs: seq<Condition>, batch: seq<Condition>, k: nat)
    requires k < |cs|
    ensures SetAll(cs, batch)[k] ==
      if FirstIndex(cs, cs[k].kind) == k && LastOf(batch, cs[k].kind).Some? then LastOf(batch, cs[k].kind).value
      else cs[k]
  {
    if batch != [] {
      var init, c := batch[..|batch| - 1], batch[|batch| - 1];
      SetAllAt(cs, init, k);
      SetAllKinds(cs, init, c.kind);
    }
  }

  /** A kind already present keeps its first index. */
  lemma {:induction false} SetAllKinds(cs: seq<Condition>, batch: seq<Condition>, kind: Kind)
    ensures FirstIndex(cs, kind) < |cs| ==> FirstIndex(SetAll(cs, batch), kind) == FirstIndex(cs, kind)
    ensures FirstIndex(SetAll(cs, batch), kind) >= FirstIndex(cs, kind)
  {
    if batch != [] {
      var init, c := batch[..|batch| - 1], batch[|batch| - 1];
      SetAllKinds(cs, init, kind);
      SetOneKinds(SetAll(cs, init), c, kind);
    }
  }

  lemma {:induction false} SetAllKeepsDistinct(cs: seq<Condition>, batch: seq<Condition>)
    requires DistinctKinds(cs)
    ensures DistinctKinds(SetAll(cs, batch))
  {
    if batch != [] {
      SetAllKeepsDistinct(cs, batch[..|batch| - 1]);
    }
  }

  /** Nothing is appended when every kind of the batch is present. */
  lemma {:induction false} SetAllLength(cs: seq<Condition>, batch: seq<Condition>)
    requires forall c :: c in batch ==> FirstIndex(cs, c.kind) < |cs|
    ensures |SetAll(cs, batch)| == |cs|
  {
    if batch != [] {
      var init, c := batch[..|batch| - 1], batch[|batch| - 1];
      assert forall d :: d in init ==> d in batch;
      SetAllLength(cs, init);
      SetAllKinds(cs, init, c.kind);
    }
  }

  /** Reporting the same batch again changes nothing. */
  lemma SetAllIdempotent(cs: seq<Condition>, batch: seq<Condition>)
    ensures SetAll(SetAll(cs, batch), batch) == SetAll(cs, batch)
  {
    var r := SetAll(cs, batch);
    forall c | c in batch ensures FirstIndex(r, c.kind) < |r| {
      GetAfterSetAll(cs, batch, c.kind);
      assert Has(batch, c.kind);
    }
    SetAllLength(r, batch);
    forall k | 0 <= k < |r| ensures SetAll(r, batch)[k] == r[k] {
      SetAllAt(r, batch, k);
      if FirstIndex(r, r[k].kind) == k && LastOf(batch, r[k].kind).Some? {
        GetAfterSetAll(cs, batch, r[k].kind);
      }
    }
  }

  // ---------------------------------------------------------------- coherence

  function StatusOf(cs: seq<Condition>, kind: Kind): Option<Status> {
    var c := Get(cs, kind);
    if c.Some? then Some(c.value.status) else None
  }

  /** A node never claims both to be up to date and to need a reboot. */
  predicate Coherent(cs: seq<Condition>) {
    !(StatusOf(cs, HostUpgrades) == Some(True) && StatusOf(cs, HostUpgradesReboot) == Some(True))
  }

  /** What a reader finds on a node that was upgraded by a host up since `bootTime`, with a report made
      at `now`. */
  ghost predicate ShowsReport(cs: seq<Condition>, bootTime: int, status: HostStatus, err: Option<string>, now: int) {
    var upgrades, reboot := Get(cs, HostUpgrades), Get(cs, HostUpgradesReboot);
    && (err.Some? ==>
          upgrades == Some(Condition(HostUpgrades, Unknown, now, now, Reason.UpgradeFailed, err.value)))
    && (err.None? && status.rebootRequired ==>
          upgrades == Some(Condition(HostUpgrades, False, now, now, Reason.RebootRequired, status.log)))
    && (err.None? && !status.rebootRequired ==>
          upgrades == Some(Condition(HostUpgrades, True, now, now, Reason.UpToDate, status.log)))
    && (status.rebootRequired ==>
          reboot == Some(Condition(HostUpgradesReboot, True, now, status.since, Reason.RebootRequired, status.message)))
    && (err.None? && !status.rebootRequired ==>
          reboot == Some(Condition(HostUpgradesReboot, False, now, bootTime, Reason.UpToDate, status.message)))
    && (err.Some? && !status.rebootRequired ==>
          reboot == Some(Condition(HostUpgradesReboot, Unknown, now, now, Reason.UpgradeFailed, "")))
  }

  /** What a reader finds in the reboot condition while the host reboots, or when it has: no message, and
      since when, reported between two instants. */
  ghost predicate ShowsReboot(cs: seq<Condition>, status: Status, reason: Reason, since: int, from: int, until: int) {
    var reboot := Get(cs, HostUpgradesReboot);
    && reboot.Some? && reboot.value.status == status && reboot.value.reason == reason && reboot.value.message == ""
    && reboot.value.transition == since && from <= reboot.value.heartbeat <= until
  }

  /** What a committed report leaves on the node, whatever was there before: every field of the two
      conditions that a reader finds. */
  lemma AfterReport(cs: seq<Condition>, bootTime: int, status: HostStatus, err: Option<string>, now: int)
    ensures ShowsReport(SetAll(cs, Report(bootTime, status, err, now)), bootTime, status, err, now)
    ensures Coherent(SetAll(cs, Report(bootTime, status, err, now)))
  {
    var batch := Report(bootTime, status, err, now);
    assert batch[..1] == [batch[0]];
    GetAfterSetAll(cs, batch, HostUpgrades);
    GetAfterSetAll(cs, batch, HostUpgradesReboot);
    assert LastOf(batch, HostUpgradesReboot) == Some(batch[1]);
    assert LastOf(batch[..1], HostUpgrades) == Some(batch[0]);
    assert LastOf(batch, HostUpgrades) == Some(batch[0]);
  }

  /** What the two reports around a reboot leave on the node. */
  lemma AfterReboot(cs: seq<Condition>, time: int, now: int)
    ensures ShowsReboot(SetAll(cs, [MakeRebootConditionRebooting(time, now)]), True, Reason.Rebooting, time, now, now)
    ensures ShowsReboot(SetAll(cs, [MakeRebootConditionRebooted(time, now)]), False, Rebooted, time, now, now)
  {
    AfterOne(cs, MakeRebootConditionRebooting(time, now), HostUpgradesReboot);
    AfterOne(cs, MakeRebootConditionRebooted(time, now), HostUpgradesReboot);
  }

  lemma AfterOne(cs: seq<Condition>, c: Condition, kind: Kind)
    ensures Get(SetAll(cs, [c]), kind) == if kind == c.kind then Some(c) else Get(cs, kind)
  {
    var batch := [c];
    assert batch[..0] == [];
    GetAfterSetAll(cs, batch, kind);
    assert LastOf(batch[..0], kind) == None;
  }

  /** Marking a reboot keeps the node coherent exactly when it does not still claim to be up to
      date, which a run that failed to write its report may have left behind. */
  lemma RebootingCoherentIff(cs: seq<Condition>, rebootTime: int, now: int)
    ensures Coherent(SetAll(cs, [MakeRebootConditionRebooting(rebootTime, now)]))
       <==> StatusOf(cs, HostUpgrades) != Some(True)
  {
    AfterOne(cs, MakeRebootConditionRebooting(rebootTime, now), HostUpgrades);
    AfterOne(cs, MakeRebootConditionRebooting(rebootTime, now), HostUpgradesReboot);
  }
}
