/** The annotation keys the tool uses: `pharos-host-upgrades.kontena.io/lock` on the DaemonSet, and
    `.../drain` and `.../reboot` on the Node. Any other key is just different from these. */
module Annotations {
  datatype Key = LockKey | DrainKey | RebootKey | OtherKey(name: string)
}

/** The DaemonSet object that carries the cluster lock: its content, the test, set and clear
    operations on the lock annotation, and the commits that change the stored object. */
module DaemonSets {
  import opened Annotations

  /** What the server stores: the annotation map, and everything else as one opaque value. */
  datatype DaemonSet = DaemonSet(annotations: map<Key, string>, rest: int)

  /** The lock annotation; a missing key reads as the empty string, as Go map reads do. */
  function LockValue(ds: DaemonSet): string {
    if LockKey in ds.annotations then ds.annotations[LockKey] else ""
  }

  /** `available` of the lock test: the lock is free, or held by `value` itself. */
  predicate Available(ds: DaemonSet, value: string) {
    LockValue(ds) == "" || LockValue(ds) == value
  }

  /** An annotation besides the lock exists, so removing the lock never empties the map. */
  predicate HasOther(ds: DaemonSet) {
    ds.annotations.Keys - {LockKey} != {}
  }

  /** A committed change. `Take` and `Drop` are the tool's; the rest are edits by others. */
  datatype LockMod =
    | Take(value: string)
    | Drop(value: string)
    | Annotate(key: Key, text: string)
    | Unannotate(key: Key)
    | Rewrite(rest: int)

  function ApplyLock(ds: DaemonSet, mod: LockMod): DaemonSet {
    match mod
    case Take(v) => ds.(annotations := ds.annotations[LockKey := v])
    case Drop(_) => ds.(annotations := ds.annotations - {LockKey})
    case Annotate(k, v) => ds.(annotations := ds.annotations[k := v])
    case Unannotate(k) => ds.(annotations := ds.annotations - {k})
    case Rewrite(r) => ds.(rest := r)
  }

  predicate ByTool(mod: LockMod) {
    mod.Take? || mod.Drop?
  }

  /** Others leave the lock annotation alone and never remove the last other annotation. */
  predicate AllowedForeign(ds: DaemonSet, mod: LockMod) {
    match mod
    case Take(_) => false
    case Drop(_) => false
    case Annotate(k, _) => k != LockKey
    case Unannotate(k) => k != LockKey && ds.annotations.Keys - {LockKey, k} != {}
    case Rewrite(_) => true
  }

  /** Another client cannot tell the lock is held, exactly when the holder's value is empty or
      the two values coincide: the mutual exclusion rests on distinct, non-empty node names. */
  lemma ExcludesOthersIff(ds: DaemonSet, holder: string, other: string)
    requires Available(ds, holder)
    ensures !Available(ApplyLock(ds, Take(holder)), other) <==> holder != "" && holder != other
  {
    assert LockValue(ApplyLock(ds, Take(holder))) == holder;
  }

  /** Clearing the lock leaves a nil annotation map behind, on which the next `set` would panic,
      exactly when the lock was the only annotation. */
  lemma DropEmptiesIff(ds: DaemonSet)
    ensures ApplyLock(ds, Drop(LockValue(ds))).annotations == map[] <==> !HasOther(ds)
  {
    var after := ApplyLock(ds, Drop(LockValue(ds))).annotations;
    assert after.Keys == ds.annotations.Keys - {LockKey};
    if !HasOther(ds) {
      assert after.Keys == {};
      assert after == map[];
    } else {
      var none: map<Key, string> := map[];
      assert after.Keys != none.Keys;
    }
  }

  lemma OthersSurvive(ds: DaemonSet, mod: LockMod)
    requires HasOther(ds)
    requires ByTool(mod) || AllowedForeign(ds, mod)
    ensures HasOther(ApplyLock(ds, mod))
  {
    var after := ApplyLock(ds, mod).annotations;
    match mod
    case Take(v) =>
      assert after.Keys - {LockKey} == ds.annotations.Keys - {LockKey};
    case Drop(_) =>
      assert after.Keys - {LockKey} == ds.annotations.Keys - {LockKey};
    case Annotate(k, v) =>
      assert k in after.Keys - {LockKey};
    case Unannotate(k) =>
      assert after.Keys - {LockKey} == ds.annotations.Keys - {LockKey, k};
    case Rewrite(_) =>
  }

  lemma LockAfter(ds: DaemonSet, mod: LockMod)
    requires ByTool(mod) || AllowedForeign(ds, mod)
    ensures LockValue(ApplyLock(ds, mod))
         == if mod.Take? then mod.value else if mod.Drop? then "" else LockValue(ds)
  {
  }

  // ---------------------------------------------------------------- histories and replay

  /** `hist[k + 1]` is `hist[k]` changed by the k-th commit, and by nothing else. */
  ghost predicate Serial(hist: seq<DaemonSet>, log: seq<LockMod>) {
    && |hist| == |log| + 1
    && forall k :: 0 <= k < |log| ==> hist[k + 1] == ApplyLock(hist[k], log[k])
  }

  /** The object after the commits of `log`, one after the other. */
  function Replay(ds: DaemonSet, log: seq<LockMod>): DaemonSet {
    if log == [] then ds else ApplyLock(Replay(ds, log[..|log| - 1]), log[|log| - 1])
  }

  lemma {:induction false} SerialReplay(hist: seq<DaemonSet>, log: seq<LockMod>, k: nat)
    requires Serial(hist, log) && k <= |log|
    ensures hist[k] == Replay(hist[0], log[..k])
  {
    if k > 0 {
      SerialReplay(hist, log, k - 1);
      assert log[..k][..k - 1] == log[..k - 1];
    }
  }

  lemma SerialExtend(hist: seq<DaemonSet>, log: seq<LockMod>, mod: LockMod)
    requires Serial(hist, log)
    ensures Serial(hist + [ApplyLock(hist[|hist| - 1], mod)], log + [mod])
  {
  }

  /** The commits of the tool, or of everybody else, in commit order. */
  function Select(log: seq<LockMod>, tool: bool): (r: seq<LockMod>)
    ensures forall k :: 0 <= k < |r| ==> ByTool(r[k]) == tool && r[k] in log
  {
    if log == [] then []
    else
      var rest := Select(log[..|log| - 1], tool);
      var m := log[|log| - 1];
      if ByTool(m) == tool then rest + [m] else rest
  }

  function Unlocked(ds: DaemonSet): DaemonSet {
    ds.(annotations := ds.annotations - {LockKey})
  }

  ghost predicate ForeignKeys(log: seq<LockMod>) {
    forall k :: 0 <= k < |log| ==>
      (log[k].Annotate? ==> log[k].key != LockKey) && (log[k].Unannotate? ==> log[k].key != LockKey)
  }

  /** No update is lost: apart from the lock annotation the object is what the other writers
      alone would have produced, and the lock annotation is what the tool alone would have
      produced, however the commits of the two interleave. */
  lemma {:induction false} ReplaySplits(ds: DaemonSet, log: seq<LockMod>)
    requires ForeignKeys(log)
    ensures Unlocked(Replay(ds, log)) == Unlocked(Replay(ds, Select(log, false)))
    ensures LockValue(Replay(ds, log)) == LockValue(Replay(ds, Select(log, true)))
  {
    if log != [] {
      var init := log[..|log| - 1];
      var m := log[|log| - 1];
      ReplaySplits(ds, init);
      var before := Replay(ds, init);
      var others := Replay(ds, Select(init, false));
      var tool := Replay(ds, Select(init, true));
      AppendReplay(ds, Select(init, ByTool(m)), m);
      if ByTool(m) {
        assert Unlocked(ApplyLock(before, m)) == Unlocked(before);
        assert LockValue(ApplyLock(before, m)) == LockValue(ApplyLock(tool, m));
      } else {
        CommutesWithUnlocking(before, m);
        CommutesWithUnlocking(others, m);
        assert LockValue(ApplyLock(before, m)) == LockValue(before);
      }
    }
  }

  lemma CommutesWithUnlocking(ds: DaemonSet, mod: LockMod)
    requires !ByTool(mod)
    requires mod.Annotate? || mod.Unannotate? ==> mod.key != LockKey
    ensures Unlocked(ApplyLock(ds, mod)) == ApplyLock(Unlocked(ds), mod)
  {
    var l, r := Unlocked(ApplyLock(ds, mod)), ApplyLock(Unlocked(ds), mod);
    assert l.annotations == r.annotations;
  }

  lemma AppendReplay(ds: DaemonSet, log: seq<LockMod>, mod: LockMod)
    ensures Replay(ds, log + [mod]) == ApplyLock(Replay(ds, log), mod)
  {
    assert (log + [mod])[..|log|] == log;
  }

  /** `set` takes only a lock that is available, and `clear` removes only its own value. */
  predicate Fits(base: DaemonSet, mod: LockMod) {
    && (mod.Take? ==> Available(base, mod.value))
    && (mod.Drop? ==> LockValue(base) == mod.value)
  }

  /** Every commit of the tool fits the version that it replaced. */
  ghost predicate LogFits(hist: seq<DaemonSet>, log: seq<LockMod>)
    requires |log| <= |hist|
  {
    forall k :: 0 <= k < |log| ==> Fits(hist[k], log[k])
  }

  /** A release of `value` was committed in the range. */
  ghost predicate Dropped(log: seq<LockMod>, from: nat, to: nat, value: string)
    requires to <= |log|
  {
    exists k :: from <= k < to && log[k] == Drop(value)
  }

  /** A held lock changes hands, or becomes free, only by a release of the holder's own value. */
  lemma {:induction false} LostByDrop(hist: seq<DaemonSet>, log: seq<LockMod>, from: nat, to: nat, value: string)
    requires Serial(hist, log) && LogFits(hist, log) && ForeignKeys(log)
    requires from <= to <= |log| && value != ""
    requires LockValue(hist[from]) == value && LockValue(hist[to]) != value
    ensures Dropped(log, from, to, value)
  {
    if LockValue(hist[to - 1]) != value {
      LostByDrop(hist, log, from, to - 1, value);
    } else {
      assert hist[to - 1 + 1] == ApplyLock(hist[to - 1], log[to - 1]);
      assert log[to - 1] == Drop(value);
    }
  }

  // ---------------------------------------------------------------- waiting for the lock

  /** No version in the range is available to `value`. */
  ghost predicate NoneAvailable(hist: seq<DaemonSet>, value: string, from: nat, to: nat)
    requires to <= |hist|
  {
    forall v :: from <= v < to ==> !Available(hist[v], value)
  }

  lemma NoneAvailableLater(before: seq<DaemonSet>, hist: seq<DaemonSet>, value: string, from: nat, to: nat)
    requires before <= hist && to <= |before| && NoneAvailable(before, value, from, to)
    ensures NoneAvailable(hist, value, from, to)
  {
    forall v | from <= v < to ensures !Available(hist[v], value) {
      assert hist[v] == before[v];
    }
  }

  lemma NoneAvailableNext(hist: seq<DaemonSet>, value: string, from: nat, to: nat)
    requires to < |hist| && NoneAvailable(hist, value, from, to) && !Available(hist[to], value)
    ensures NoneAvailable(hist, value, from, to + 1)
  {
  }
}
