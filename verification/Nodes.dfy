/** The Node object of one host: the annotations, the cordon and the conditions the tool uses,
    and the commits that change the stored object. */
module Nodes {
  import opened Annotations
  import opened Wrappers
  import opened Conditions

  /** An annotation value: the text "true", another text, or the JSON form of an instant. */
  datatype Value = Flag | Text(text: string) | Stamp(time: int)

  datatype Node = Node(
    annotations: map<Key, Value>, unschedulable: bool, conditions: seq<Condition>, rest: int)

  /** A committed change. The first five are the tool's, `Cordon` through kubectl. */
  datatype NodeMod =
    | SetAnnotation(key: Key, value: Value)
    | ClearAnnotation(key: Key)
    | Uncordon(key: Key)
    | SetConditions(batch: seq<Condition>)
    | Cordon
    | AdminSchedule(unschedulable: bool)
    | AdminAnnotate(key: Key, value: Value)
    | AdminUnannotate(key: Key)
    | AdminCondition(condition: Condition)
    | AdminRest(rest: int)

  function ApplyNode(n: Node, mod: NodeMod): Node {
    match mod
    case SetAnnotation(k, v) => n.(annotations := n.annotations[k := v])
    case ClearAnnotation(k) => n.(annotations := n.annotations - {k})
    case Uncordon(k) => n.(annotations := n.annotations - {k}, unschedulable := false)
    case SetConditions(batch) => n.(conditions := SetAll(n.conditions, batch))
    case Cordon => n.(unschedulable := true)
    case AdminSchedule(b) => n.(unschedulable := b)
    case AdminAnnotate(k, v) => n.(annotations := n.annotations[k := v])
    case AdminUnannotate(k) => n.(annotations := n.annotations - {k})
    case AdminCondition(c) => n.(conditions := SetAll(n.conditions, [c]))
    case AdminRest(r) => n.(rest := r)
  }

  predicate ToolMod(mod: NodeMod) {
    mod.SetAnnotation? || mod.ClearAnnotation? || mod.Uncordon? || mod.SetConditions? || mod.Cordon?
  }

  /** Others may do anything except touch the tool's two annotations and two conditions. */
  predicate AllowedAdmin(mod: NodeMod) {
    match mod
    case AdminSchedule(_) => true
    case AdminAnnotate(k, _) => k != DrainKey && k != RebootKey
    case AdminUnannotate(k) => k != DrainKey && k != RebootKey
    case AdminCondition(c) => c.kind != HostUpgrades && c.kind != HostUpgradesReboot
    case AdminRest(_) => true
    case _ => false
  }

  predicate Drained(n: Node) {
    DrainKey in n.annotations
  }

  /** The tool writes conditions of its two types, and others those of any other. */
  predicate IsToolKind(kind: Kind) {
    kind == HostUpgrades || kind == HostUpgradesReboot
  }

  function ToolValue(n: Node, key: Key): Option<Value> {
    if key in n.annotations then Some(n.annotations[key]) else None
  }

  ghost predicate SameAnnotations(a: Node, b: Node) {
    ToolValue(a, DrainKey) == ToolValue(b, DrainKey) && ToolValue(a, RebootKey) == ToolValue(b, RebootKey)
  }

  /** The part of a node that only the tool writes. */
  ghost predicate SameToolPart(a: Node, b: Node) {
    && SameAnnotations(a, b)
    && Get(a.conditions, HostUpgrades) == Get(b.conditions, HostUpgrades)
    && Get(a.conditions, HostUpgradesReboot) == Get(b.conditions, HostUpgradesReboot)
  }

  lemma AdminKeepsToolPart(n: Node, mod: NodeMod)
    requires AllowedAdmin(mod)
    ensures SameToolPart(n, ApplyNode(n, mod))
  {
    if mod.AdminCondition? {
      AfterOne(n.conditions, mod.condition, HostUpgrades);
      AfterOne(n.conditions, mod.condition, HostUpgradesReboot);
    }
  }

  // ---------------------------------------------------------------- histories

  ghost predicate NodeSerial(hist: seq<Node>, log: seq<NodeMod>) {
    && |hist| == |log| + 1
    && forall k :: 0 <= k < |log| ==> hist[k + 1] == ApplyNode(hist[k], log[k])
  }

  function NodeReplay(n: Node, log: seq<NodeMod>): Node {
    if log == [] then n else ApplyNode(NodeReplay(n, log[..|log| - 1]), log[|log| - 1])
  }

  lemma {:induction false} NodeSerialReplay(hist: seq<Node>, log: seq<NodeMod>, k: nat)
    requires NodeSerial(hist, log) && k <= |log|
    ensures hist[k] == NodeReplay(hist[0], log[..k])
  {
    if k > 0 {
      NodeSerialReplay(hist, log, k - 1);
      assert log[..k][..k - 1] == log[..k - 1];
    }
  }

  function NodeSelect(log: seq<NodeMod>, tool: bool): (r: seq<NodeMod>)
    ensures forall k :: 0 <= k < |r| ==> ToolMod(r[k]) == tool && r[k] in log
  {
    if log == [] then []
    else
      var rest := NodeSelect(log[..|log| - 1], tool);
      var m := log[|log| - 1];
      if ToolMod(m) == tool then rest + [m] else rest
  }

  /** The part of a node that only others write. */
  function OthersPart(n: Node): (map<Key, Value>, int) {
    (n.annotations - {DrainKey, RebootKey}, n.rest)
  }

  ghost predicate OwnKeys(log: seq<NodeMod>) {
    forall k :: 0 <= k < |log| ==> OwnKey(log[k])
  }

  ghost predicate OwnKey(m: NodeMod) {
    && (m.SetAnnotation? ==> m.key == DrainKey || m.key == RebootKey)
    && (m.ClearAnnotation? ==> m.key == RebootKey)
    && (m.Uncordon? ==> m.key == DrainKey)
    && (m.SetConditions? ==> forall c :: c in m.batch ==> c.kind == HostUpgrades || c.kind == HostUpgradesReboot)
    && (!ToolMod(m) ==> AllowedAdmin(m))
  }

  /** No update of a node is lost either way: what others write is what they alone would have
      produced, the tool's annotations are what the tool alone would have produced, and each
      condition kind follows the commits of its own writer. */
  lemma {:induction false} NodeReplaySplits(n: Node, log: seq<NodeMod>)
    requires OwnKeys(log)
    ensures OthersPart(NodeReplay(n, log)) == OthersPart(NodeReplay(n, NodeSelect(log, false)))
    ensures forall k | k == DrainKey || k == RebootKey ::
              ToolValue(NodeReplay(n, log), k) == ToolValue(NodeReplay(n, NodeSelect(log, true)), k)
    ensures forall kind | IsToolKind(kind) ::
              Get(NodeReplay(n, log).conditions, kind) == Get(NodeReplay(n, NodeSelect(log, true)).conditions, kind)
    ensures forall kind | !IsToolKind(kind) ::
              Get(NodeReplay(n, log).conditions, kind) == Get(NodeReplay(n, NodeSelect(log, false)).conditions, kind)
  {
    if log != [] {
      var init, m := log[..|log| - 1], log[|log| - 1];
      NodeReplaySplits(n, init);
      var before := NodeReplay(n, init);
      var same := NodeReplay(n, NodeSelect(init, ToolMod(m)));
      NodeAppendReplay(n, NodeSelect(init, ToolMod(m)), m);
      AnnotationsSplit(before, same, NodeReplay(n, NodeSelect(init, !ToolMod(m))), m);
      forall kind | IsToolKind(kind) == ToolMod(m)
        ensures Get(ApplyNode(before, m).conditions, kind) == Get(ApplyNode(same, m).conditions, kind)
      {
        ConditionsFollow(before, same, m, kind);
      }
      forall kind | IsToolKind(kind) != ToolMod(m)
        ensures Get(ApplyNode(before, m).conditions, kind) == Get(before.conditions, kind)
      {
        ConditionsIgnore(before, m, kind);
      }
    }
  }

  lemma NodeAppendReplay(n: Node, log: seq<NodeMod>, mod: NodeMod)
    ensures NodeReplay(n, log + [mod]) == ApplyNode(NodeReplay(n, log), mod)
  {
    assert (log + [mod])[..|log|] == log;
  }

  lemma AnnotationsSplit(before: Node, same: Node, other: Node, m: NodeMod)
    requires OwnKey(m)
    requires !ToolMod(m) ==> OthersPart(before) == OthersPart(same)
    requires ToolMod(m) ==> OthersPart(before) == OthersPart(other)
    requires forall k | k == DrainKey || k == RebootKey ::
               ToolValue(before, k) == ToolValue(if ToolMod(m) then same else other, k)
    ensures OthersPart(ApplyNode(before, m)) == if ToolMod(m) then OthersPart(other) else OthersPart(ApplyNode(same, m))
    ensures forall k | k == DrainKey || k == RebootKey ::
               ToolValue(ApplyNode(before, m), k) == ToolValue(if ToolMod(m) then ApplyNode(same, m) else other, k)
  {
    var after := ApplyNode(before, m);
    if ToolMod(m) {
      assert after.annotations - {DrainKey, RebootKey} == before.annotations - {DrainKey, RebootKey};
      forall k | k == DrainKey || k == RebootKey
        ensures ToolValue(after, k) == ToolValue(ApplyNode(same, m), k)
      {
        assert ToolValue(before, k) == ToolValue(same, k);
      }
    } else {
      var twin := ApplyNode(same, m);
      var x, y := before.annotations - {DrainKey, RebootKey}, same.annotations - {DrainKey, RebootKey};
      assert x == y;
      assert forall k :: k in x <==> k in y;
      assert forall k :: k !in {DrainKey, RebootKey} ==>
          (k in x <==> k in before.annotations) && (k in y <==> k in same.annotations);
      forall k | k in after.annotations - {DrainKey, RebootKey}
        ensures k in twin.annotations - {DrainKey, RebootKey} && twin.annotations[k] == after.annotations[k]
      {
        if k in before.annotations {
          assert x[k] == y[k];
        }
      }
      forall k | k in twin.annotations - {DrainKey, RebootKey}
        ensures k in after.annotations - {DrainKey, RebootKey}
      {
      }
      assert after.annotations - {DrainKey, RebootKey} == twin.annotations - {DrainKey, RebootKey};
      forall k | k == DrainKey || k == RebootKey
        ensures ToolValue(after, k) == ToolValue(other, k)
      {
        assert ToolValue(before, k) == ToolValue(other, k);
        assert k in after.annotations <==> k in before.annotations;
      }
    }
  }

  lemma ConditionsFollow(a: Node, b: Node, m: NodeMod, kind: Kind)
    requires Get(a.conditions, kind) == Get(b.conditions, kind)
    ensures Get(ApplyNode(a, m).conditions, kind) == Get(ApplyNode(b, m).conditions, kind)
  {
    match m
    case SetConditions(batch) =>
      GetAfterSetAll(a.conditions, batch, kind);
      GetAfterSetAll(b.conditions, batch, kind);
    case AdminCondition(c) =>
      GetAfterSetAll(a.conditions, [c], kind);
      GetAfterSetAll(b.conditions, [c], kind);
    case _ =>
  }

  lemma ConditionsIgnore(a: Node, m: NodeMod, kind: Kind)
    requires OwnKey(m) && IsToolKind(kind) != ToolMod(m)
    ensures Get(ApplyNode(a, m).conditions, kind) == Get(a.conditions, kind)
  {
    match m
    case SetConditions(batch) => GetAfterSetAll(a.conditions, batch, kind);
    case AdminCondition(c) => GetAfterSetAll(a.conditions, [c], kind);
    case _ =>
  }

  // ---------------------------------------------------------------- drains and uncordons

  /** `DrainNode` commits of the log not yet matched by an uncordon. */
  function Owed(log: seq<NodeMod>): int {
    if log == [] then 0
    else
      var m := log[|log| - 1];
      Owed(log[..|log| - 1])
      + (if m.SetAnnotation? && m.key == DrainKey then 1 else if m.Uncordon? then -1 else 0)
  }

  lemma OwedAppend(log: seq<NodeMod>, m: NodeMod)
    ensures Owed(log + [m])
         == Owed(log) + (if m.SetAnnotation? && m.key == DrainKey then 1 else if m.Uncordon? then -1 else 0)
  {
    assert (log + [m])[..|log|] == log;
  }

  /** None of the commits in the range is the tool's. */
  ghost predicate NoTool(log: seq<NodeMod>, from: nat, to: nat)
    requires to <= |log|
  {
    forall k :: from <= k < to ==> !ToolMod(log[k])
  }

  /** Every uncordon and every cordon by the tool happens while exactly one of its drains is
      outstanding: commit by commit, the outstanding drains number 0 or 1. */
  ghost predicate Balanced(log: seq<NodeMod>) {
    && (forall k :: 0 <= k <= |log| ==> 0 <= Owed(log[..k]) <= 1)
    && (forall k :: 0 <= k < |log| && (log[k].Cordon? || log[k].Uncordon?) ==> Owed(log[..k]) == 1)
  }

  lemma BalancedAppend(log: seq<NodeMod>, m: NodeMod)
    requires Balanced(log)
    requires 0 <= Owed(log + [m]) <= 1
    requires m.Cordon? || m.Uncordon? ==> Owed(log) == 1
    ensures Balanced(log + [m])
  {
    var all := log + [m];
    assert all[..|all|] == all && all[..|log|] == log && log[..|log|] == log;
    forall k | 0 <= k <= |all| ensures 0 <= Owed(all[..k]) <= 1 {
      if k <= |log| { assert all[..k] == log[..k]; }
    }
    forall k | 0 <= k < |all| && (all[k].Cordon? || all[k].Uncordon?) ensures Owed(all[..k]) == 1 {
      assert all[..k] == log[..k];
    }
  }
}
