/** The Node object as the process reads and writes it: conditions and annotations changed in a local
    copy, and retried updates. */
module NodeClient {
  import opened Annotations
  import opened Wrappers
  import opened Conditions
  import opened Nodes
  import opened Protocol
  import opened World
  import opened LockClient

  /** The client's copy of the Node. */
  class NodeObject {
    var version: nat
    var annotations: map<Key, Value>
    var unschedulable: bool
    var conditions: seq<Condition>
    var rest: int

    constructor (version: nat, n: Nodes.Node)
      ensures this.version == version && Content() == n
    {
      this.version, this.annotations, this.unschedulable := version, n.annotations, n.unschedulable;
      this.conditions, this.rest := n.conditions, n.rest;
    }

    function Content(): Nodes.Node
      reads this
    {
      Nodes.Node(annotations, unschedulable, conditions, rest)
    }

    /** Overwrites the first condition of the type, or appends. */
    method Put(c: Condition)
      modifies this`conditions
      ensures conditions == SetOne(old(conditions), c)
    {
      var i := 0;
      while i < |conditions|
        invariant 0 <= i <= |conditions| && conditions == old(conditions)
        invariant forall k :: 0 <= k < i ==> conditions[k].kind != c.kind
      {
        if conditions[i].kind == c.kind {
          FirstIndexIs(conditions, c.kind, i);
          conditions := conditions[i := c];
          return;
        }
        i := i + 1;
      }
      FirstIndexIs(conditions, c.kind, i);
      conditions := conditions + [c];
    }

    method PutAll(batch: seq<Condition>)
      modifies this`conditions
      ensures conditions == SetAll(old(conditions), batch)
    {
      for i := 0 to |batch|
        invariant conditions == SetAll(old(conditions), batch[..i])
      {
        Put(batch[i]);
        assert batch[..i + 1][..i] == batch[..i];
      }
      assert batch[..|batch|] == batch;
    }

    /** The first condition of the type, if any. */
    method Find(kind: Kind) returns (c: Option<Condition>)
      ensures c == Get(conditions, kind)
    {
      for i := 0 to |conditions|
        invariant forall k :: 0 <= k < i ==> conditions[k].kind != kind
      {
        if conditions[i].kind == kind {
          FirstIndexIs(conditions, kind, i);
          return Some(conditions[i]);
        }
      }
      FirstIndexIs(conditions, kind, |conditions|);
      return None;
    }

    method Annotate(key: Key, value: Value)
      modifies this`annotations
      ensures annotations == old(annotations)[key := value]
    {
      annotations := annotations[key := value];
    }

    method Unannotate(key: Key)
      modifies this`annotations
      ensures annotations == old(annotations) - {key}
    {
      annotations := annotations - {key};
    }
  }

  /** The latest version of the Node is the one before changed by `mod`, and by nothing else. */
  ghost predicate JustWritten(m: Member, mod: NodeMod) {
    && |m.hist| >= 2 && m.log != [] && m.log[|m.log| - 1] == mod
    && m.node == m.hist[|m.hist| - 1]
    && m.node == ApplyNode(m.hist[|m.hist| - 2], mod)
  }

  /** A retried update made exactly one commit of its own, which is the latest. In the version that it
      replaced the part of the Node that only the tool writes was as at the start. */
  ghost predicate NodeCommitted(me: nat, a: State, b: State, mod: NodeMod) {
    && Keep(me, a, b) && b.members[me].wrote
    && |a.members[me].log| < |b.members[me].log| && JustWritten(b.members[me], mod)
    && NoTool(b.members[me].log, |a.members[me].log|, |b.members[me].log| - 1)
    && SameToolPart(a.members[me].node, b.members[me].hist[|b.members[me].hist| - 2])
  }

  /** How a retried update ends: with one commit, or with an error and none, or one whose reply was
      lost. */
  ghost predicate NodeFinished(cfg: Config, me: nat, a: State, b: State, mod: NodeMod, ok: bool)
    requires me < |cfg.names|
  {
    if ok then NodeCommitted(me, a, b, mod) else Rely(cfg, me, a, b) || NodeCommitted(me, a, b, mod)
  }

  /** The errors of the API calls. */
  predicate ClientError(e: Error) {
    e.GetFailed? || e.UpdateFailed? || e.ConflictFailed?
  }

  /** Why a retried update fails: the server refused the update of every attempt, as others had committed to
      the Node meanwhile, or a call failed. */
  ghost predicate Hindered(e: Error, steps: nat, a: Meter, b: Meter) {
    && ClientError(e)
    && if e.ConflictFailed? then b.edits >= a.edits + steps && b.conflicts >= a.conflicts + steps
       else b.faults > a.faults
  }

  lemma NodeFinishedLater(cfg: Config, me: nat, a: State, b: State, c: State, mod: NodeMod, ok: bool)
    requires me < |cfg.names| && Rely(cfg, me, a, b) && NodeFinished(cfg, me, b, c, mod, ok)
    ensures NodeFinished(cfg, me, a, c, mod, ok)
  {
    if Rely(cfg, me, b, c) {
      RelyTransitive(cfg, me, a, b, c);
    }
  }

  lemma WrittenCommitsNode(cfg: Config, me: nat, s: State, mod: NodeMod)
    requires Shape(cfg, s, me) && ToolMod(mod)
    ensures NodeCommitted(me, s, NodeWritten(s, me, mod), mod)
  {
  }

  lemma SubmitFinished(cfg: Config, me: nat, before: State, mid: State, after: State, mod: NodeMod, accepted: bool)
    requires me < |cfg.names| && Rely(cfg, me, before, mid) && Shape(cfg, mid, me) && ToolMod(mod)
    requires after == NodeWritten(mid, me, mod) || (after == mid && !accepted)
    ensures NodeFinished(cfg, me, before, after, mod, accepted)
  {
    if after == NodeWritten(mid, me, mod) {
      WrittenCommitsNode(cfg, me, mid, mod);
      NodeFinishedLater(cfg, me, before, mid, after, mod, true);
    }
  }

  lemma UncordonDone(m: Member)
    ensures JustWritten(m, Uncordon(DrainKey)) ==> !Drained(m.node) && !m.node.unschedulable
  {
  }

  lemma WrittenReboot(m: Member, time: int, now: int)
    ensures JustWritten(m, SetConditions([MakeRebootConditionRebooting(time, now)])) ==>
              ShowsReboot(m.node.conditions, True, Reason.Rebooting, time, now, now)
    ensures JustWritten(m, SetConditions([MakeRebootConditionRebooted(time, now)])) ==>
              ShowsReboot(m.node.conditions, False, Rebooted, time, now, now)
  {
    if |m.hist| >= 2 {
      AfterReboot(m.hist[|m.hist| - 2].conditions, time, now);
    }
  }

  /** What a report committed between two instants leaves on the node. */
  ghost predicate Reported(m: Member, status: HostStatus, err: Option<string>, from: int, until: int) {
    var upgrades := Get(m.node.conditions, HostUpgrades);
    && Coherent(m.node.conditions) && upgrades.Some? && from <= upgrades.value.heartbeat <= until
    && ShowsReport(m.node.conditions, m.bootSeen, status, err, upgrades.value.heartbeat)
  }

  lemma WrittenReport(m: Member, status: HostStatus, err: Option<string>, now: int)
    requires JustWritten(m, SetConditions(Report(m.bootSeen, status, err, now)))
    ensures Reported(m, status, err, now, now)
  {
    AfterReport(m.hist[|m.hist| - 2].conditions, m.bootSeen, status, err, now);
  }

  /** The mark, and what is reported of the reboot. */
  ghost predicate SameReboot(m: Member, n: Member) {
    && ToolValue(n.node, RebootKey) == ToolValue(m.node, RebootKey)
    && Get(n.node.conditions, HostUpgradesReboot) == Get(m.node.conditions, HostUpgradesReboot)
  }

  /** A commit to the conditions leaves the mark alone, a commit to the mark the conditions, and an uncordon
      both. */
  lemma CommitKeeps(me: nat, a: State, b: State, mod: NodeMod)
    requires NodeCommitted(me, a, b, mod)
    ensures mod.SetConditions? ==> ToolValue(b.members[me].node, RebootKey) == ToolValue(a.members[me].node, RebootKey)
    ensures mod.ClearAnnotation? ==>
              Get(b.members[me].node.conditions, HostUpgradesReboot) ==
              Get(a.members[me].node.conditions, HostUpgradesReboot)
    ensures mod == Uncordon(DrainKey) ==> SameReboot(a.members[me], b.members[me])
  {
  }

  class Node {
    const world: Cluster
    const steps: nat       // how often a conflict is retried

    constructor (world: Cluster, steps: nat)
      requires world.Valid() && steps > 0
      ensures this.world == world && this.steps == steps && Valid()
    {
      this.world, this.steps := world, steps;
    }

    ghost predicate Valid()
      reads this, world
    {
      world.Valid() && steps > 0
    }

    method Get() returns (r: Result<NodeObject, Error>)
      requires Valid()
      modifies world
      ensures Valid() && Rely(world.cfg, world.me, old(world.s), world.s)
      ensures Onward(Got(old(world.meter), old(world.s.now)), world.meter) && world.meter.naps == old(world.meter.naps)
      ensures world.meter.gets == old(world.meter.gets) + 1 && world.meter.conflicts == old(world.meter.conflicts)
      ensures |world.Me().hist| == |old(world.Me()).hist| + world.meter.edits - old(world.meter.edits)
      ensures r.Err? ==> r.error == GetFailed && world.meter.faults > old(world.meter.faults)
      ensures r.Ok? ==> fresh(r.value) && world.Name() != "" && world.IsCurrentNode(r.value.version, r.value.Content())
    {
      var reply := world.GetNode();
      if reply.None? {
        return Err(GetFailed);
      }
      var o := new NodeObject(reply.value.version, reply.value.node);
      ShapeHolds(world.cfg, world.s, world.me);
      return Ok(o);
    }

    method GetAnnotation(key: Key) returns (r: Result<Option<Value>, Error>)
      requires Valid()
      modifies world
      ensures Valid() && Rely(world.cfg, world.me, old(world.s), world.s)
      ensures Onward(old(world.meter), world.meter) && world.meter.naps == old(world.meter.naps)
      ensures r.Err? ==> r.error == GetFailed && world.meter.faults > old(world.meter.faults)
      ensures r.Ok? ==> world.Name() != "" && r.value == ToolValue(world.Me().node, key)
    {
      var o := Get();
      if o.Err? {
        return Err(o.error);
      }
      var annotations := o.value.annotations;
      return Ok(if key in annotations then Some(annotations[key]) else None);
    }

    /** Changes the local copy, as the closure of the retried update does. */
    method Change(o: NodeObject, mod: NodeMod)
      requires mod.SetConditions? || mod.SetAnnotation? || mod.ClearAnnotation? || mod.Uncordon?
      modifies o
      ensures o.Content() == ApplyNode(old(o.Content()), mod) && o.version == old(o.version)
    {
      match mod
      case SetConditions(batch) => o.PutAll(batch);
      case SetAnnotation(k, v) => o.Annotate(k, v);
      case ClearAnnotation(k) => o.Unannotate(k);
      case Uncordon(k) =>
        o.Unannotate(k);
        o.unschedulable := false;
    }

    /** Submits a changed copy. */
    method Submit(o: NodeObject, mod: NodeMod, ghost before: State) returns (conflict: bool, err: Option<Error>)
      requires Valid() && Rely(world.cfg, world.me, before, world.s)
      requires mod.SetConditions? || mod.SetAnnotation? || mod.ClearAnnotation? || mod.Uncordon?
      requires o.version + 1 == |world.Me().hist| && o.Content() == ApplyNode(world.Me().hist[o.version], mod)
      requires MayWriteNode(world.Me().(node := world.Me().hist[o.version]), mod)
      modifies world
      ensures Valid() && Spent(if conflict then Refused(old(world.meter)) else old(world.meter), world.meter)
      ensures conflict ==> Rely(world.cfg, world.me, before, world.s) && world.meter.edits > old(world.meter.edits)
      ensures !conflict ==> NodeFinished(world.cfg, world.me, before, world.s, mod, err.None?)
      ensures !conflict && err.Some? ==> err == Some(UpdateFailed) && world.meter.faults > old(world.meter.faults)
    {
      ghost var start := world.s;
      var reply, mid := world.UpdateNode(o.version, o.Content(), mod.SetConditions?, mod);
      RelyTransitive(world.cfg, world.me, before, start, mid);
      if reply.Conflict? {
        return true, Some(ConflictFailed);
      }
      SubmitFinished(world.cfg, world.me, before, mid, world.s, mod, reply.Accepted?);
      return false, if reply.Accepted? then None else Some(UpdateFailed);
    }

    /** One attempt of a retried update. */
    method Attempt(mod: NodeMod) returns (conflict: bool, err: Option<Error>)
      requires Valid() && MayWriteNode(world.Me(), mod)
      requires mod.SetConditions? || mod.SetAnnotation? || mod.ClearAnnotation?
      modifies world
      ensures Valid() && Onward(old(world.meter), world.meter) && world.meter.naps == old(world.meter.naps)
      ensures world.meter.gets == old(world.meter.gets) + 1
      ensures conflict ==> Rely(world.cfg, world.me, old(world.s), world.s)
      ensures conflict ==>
                world.meter.edits > old(world.meter.edits) && world.meter.conflicts == old(world.meter.conflicts) + 1
      ensures !conflict ==> NodeFinished(world.cfg, world.me, old(world.s), world.s, mod, err.None?)
      ensures !conflict && err.Some? ==>
                (err.value.GetFailed? || err.value.UpdateFailed?) && world.meter.faults > old(world.meter.faults)
    {
      var o := Get();
      if o.Err? {
        return false, Some(o.error);
      }
      Change(o.value, mod);
      conflict, err := Submit(o.value, mod, old(world.s));
    }

    /** The retried update: gets, changes and updates the Node until the update does not conflict, at
        most `steps` times. Every conflict is paid for by a commit of somebody else. It fails only if a
        call fails, or with a conflict in every attempt, and then it has committed nothing. */
    method Update(mod: NodeMod) returns (err: Option<Error>)
      requires Valid() && MayWriteNode(world.Me(), mod)
      requires mod.SetConditions? || mod.SetAnnotation? || mod.ClearAnnotation?
      modifies world
      ensures Valid() && Onward(old(world.meter), world.meter) && world.meter.naps == old(world.meter.naps)
      ensures NodeFinished(world.cfg, world.me, old(world.s), world.s, mod, err.None?)
      ensures err.Some? ==> Hindered(err.value, steps, old(world.meter), world.meter)
      ensures err == Some(ConflictFailed) ==> Rely(world.cfg, world.me, old(world.s), world.s)
      ensures world.meter.gets - old(world.meter.gets) <= steps
      ensures world.meter.gets - old(world.meter.gets) <= 1 + world.meter.edits - old(world.meter.edits)
    {
      for attempt := 0 to steps
        invariant Valid() && Rely(world.cfg, world.me, old(world.s), world.s)
        invariant Onward(old(world.meter), world.meter) && world.meter.naps == old(world.meter.naps)
        invariant world.meter.gets == old(world.meter.gets) + attempt
        invariant world.meter.edits >= old(world.meter.edits) + attempt
        invariant world.meter.conflicts == old(world.meter.conflicts) + attempt
      {
        ghost var head := world.s;
        var conflict, failure := Attempt(mod);
        if !conflict {
          NodeFinishedLater(world.cfg, world.me, old(world.s), head, world.s, mod, failure.None?);
          return failure;
        }
        RelyTransitive(world.cfg, world.me, old(world.s), head, world.s);
      }
      return Some(ConflictFailed);
    }

    method SetCondition(batch: seq<Condition>) returns (err: Option<Error>)
      requires Valid() && MayWriteNode(world.Me(), SetConditions(batch))
      modifies world
      ensures Valid() && Onward(old(world.meter), world.meter) && world.meter.naps == old(world.meter.naps)
      ensures NodeFinished(world.cfg, world.me, old(world.s), world.s, SetConditions(batch), err.None?)
      ensures err.Some? ==> Hindered(err.value, steps, old(world.meter), world.meter)
    {
      err := Update(SetConditions(batch));
    }

    method SetAnnotation(key: Key, value: Value) returns (err: Option<Error>)
      requires Valid() && MayWriteNode(world.Me(), NodeMod.SetAnnotation(key, value))
      modifies world
      ensures Valid() && Onward(old(world.meter), world.meter) && world.meter.naps == old(world.meter.naps)
      ensures NodeFinished(world.cfg, world.me, old(world.s), world.s, NodeMod.SetAnnotation(key, value), err.None?)
      ensures err.Some? ==> Hindered(err.value, steps, old(world.meter), world.meter)
    {
      err := Update(NodeMod.SetAnnotation(key, value));
    }

    method ClearAnnotation(key: Key) returns (err: Option<Error>)
      requires Valid() && MayWriteNode(world.Me(), NodeMod.ClearAnnotation(key))
      modifies world
      ensures Valid() && Onward(old(world.meter), world.meter) && world.meter.naps == old(world.meter.naps)
      ensures NodeFinished(world.cfg, world.me, old(world.s), world.s, NodeMod.ClearAnnotation(key), err.None?)
      ensures err.Some? ==> Hindered(err.value, steps, old(world.meter), world.meter)
    {
      err := Update(NodeMod.ClearAnnotation(key));
    }

    /** Uncordons the node if it carries the drain annotation, in the one commit that removes it.
        (true, nil): that commit is the only one, and the node is schedulable. (false, nil): the
        annotation was absent at the last read, and nothing was committed, whatever earlier
        conflicting attempts saw. */
    method SetSchedulableIfAnnotated() returns (changed: bool, err: Option<Error>)
      requires Valid() && world.Me().pc.ClearDrain? && !world.Me().wrote
      modifies world
      ensures Valid() && Onward(old(world.meter), world.meter) && world.meter.naps == old(world.meter.naps)
      ensures Keep(world.me, old(world.s), world.s)
      ensures err.None? && changed ==>
                && NodeCommitted(world.me, old(world.s), world.s, Uncordon(DrainKey))
                && !Drained(world.Me().node) && !world.Me().node.unschedulable
      ensures err.None? && !changed ==> Rely(world.cfg, world.me, old(world.s), world.s) && !Drained(world.Me().node)
      ensures err.Some? ==> Hindered(err.value, steps, old(world.meter), world.meter)
      ensures err.Some? ==> NodeFinished(world.cfg, world.me, old(world.s), world.s, Uncordon(DrainKey), false)
    {
      changed := false;
      for attempt := 0 to steps
        invariant Valid() && Rely(world.cfg, world.me, old(world.s), world.s)
        invariant Onward(old(world.meter), world.meter) && world.meter.naps == old(world.meter.naps)
        invariant world.meter.edits >= old(world.meter.edits) + attempt
        invariant world.meter.conflicts == old(world.meter.conflicts) + attempt
      {
        ghost var head := world.s;
        var conflict;
        conflict, changed, err := AttemptUncordon();
        if !conflict {
          if changed {
            UncordonDone(world.Me());
            NodeFinishedLater(world.cfg, world.me, old(world.s), head, world.s, Uncordon(DrainKey), err.None?);
          } else {
            RelyTransitive(world.cfg, world.me, old(world.s), head, world.s);
          }
          return;
        }
        RelyTransitive(world.cfg, world.me, old(world.s), head, world.s);
      }
      err := Some(ConflictFailed);
    }

    /** One attempt; `changed` starts out false in each of them. */
    method AttemptUncordon() returns (conflict: bool, changed: bool, err: Option<Error>)
      requires Valid() && world.Me().pc.ClearDrain? && !world.Me().wrote
      modifies world
      ensures Valid() && Onward(old(world.meter), world.meter) && world.meter.naps == old(world.meter.naps)
      ensures conflict || !changed ==> Rely(world.cfg, world.me, old(world.s), world.s)
      ensures conflict ==>
                world.meter.edits > old(world.meter.edits) && world.meter.conflicts == old(world.meter.conflicts) + 1
      ensures !conflict && changed ==>
                NodeFinished(world.cfg, world.me, old(world.s), world.s, Uncordon(DrainKey), err.None?)
      ensures !conflict && !changed && err.None? ==> !Drained(world.Me().node)
      ensures !conflict && err.Some? ==>
                (err.value.GetFailed? || err.value.UpdateFailed?) && world.meter.faults > old(world.meter.faults)
    {
      conflict, changed := false, false;
      var o := Get();
      if o.Err? {
        err := Some(o.error);
        return;
      }
      if DrainKey !in o.value.annotations {
        err := None;
        return;
      }
      changed := true;
      Change(o.value, Uncordon(DrainKey));
      conflict, err := Submit(o.value, Uncordon(DrainKey), old(world.s));
    }
  }
}
