/**
  * The reconciler as it is written: it fetches the resource, syncs the DaemonSet, lists nodes and
  * pods, and updates status fields, plan and pods in place. Each method computes what module Engine
  * says. `reply` is what monitoring answers if this pass asks; conditions and logging are not modelled.
  */
module Controller {
  import opened Prelude
  import opened Api
  import opened Templates
  import opened Waves
  import opened Gates
  import opened Engine
  import opened PassProperties

  // ---- The API server ----

  class Cluster {
    var spec: Spec
    var generation: int
    var status: Status
    var ds: Option<Template>
    var nodes: map<Name, Node>
    var pods: map<Name, Pod>
    var clock: int

    constructor (spec: Spec, generation: int, status: Status, nodes: map<Name, Node>, pods: map<Name, Pod>, clock: int)
      ensures this.spec == spec && this.generation == generation && this.status == status && this.ds == None
      ensures this.nodes == nodes && this.pods == pods && this.clock == clock
    {
      this.spec, this.generation, this.status, this.ds := spec, generation, status, None;
      this.nodes, this.pods, this.clock := nodes, pods, clock;
    }

    /** Names in some order, each once. */
    static method Enumerate(s: set<Name>) returns (r: seq<Name>)
      ensures ToSet(r) == s && |r| == |s|
    {
      r := [];
      var rest := s;
      while rest != {}
        invariant rest <= s && ToSet(r) == s - rest && |r| + |rest| == |s|
        decreases |rest|
      {
        var n :| n in rest;
        assert ToSet(r + [n]) == ToSet(r) + {n};
        r := r + [n];
        rest := rest - {n};
      }
    }

    /** The names of the nodes that match the selector. */
    method ListTargets() returns (r: seq<Name>)
      ensures ToSet(r) == (set n | n in nodes && nodes[n].target) && |r| == |ToSet(r)|
    {
      r := Enumerate(set n | n in nodes && nodes[n].target);
    }

    /** The owned pods, in some order. */
    method ListPods() returns (items: seq<Pod>)
      requires PodsWf(pods)
      ensures forall p :: p in items ==> PodTargetNode(p) in pods && pods[PodTargetNode(p)] == p
      ensures forall n :: n in pods ==> pods[n] in items
    {
      items := [];
      var keys := Enumerate(pods.Keys);
      for k := 0 to |keys|
        invariant forall p :: p in items ==> PodTargetNode(p) in pods && pods[PodTargetNode(p)] == p
        invariant forall j :: 0 <= j < k ==> keys[j] in pods && pods[keys[j]] in items
      {
        assert keys[k] in ToSet(keys);
        items := items + [pods[keys[k]]];
      }
      forall n | n in pods ensures pods[n] in items {
        assert n in ToSet(keys);
      }
    }

    /** Marks the pod for deletion; a pod that is gone is ignored. */
    method Delete(p: Pod)
      modifies this`pods
      ensures pods == if Present(old(pods), p) then old(pods)[PodTargetNode(p) := Deleted(old(pods)[PodTargetNode(p)])]
                      else old(pods)
    {
      var n := PodTargetNode(p);
      if n in pods && pods[n].uid == p.uid {
        pods := pods[n := pods[n].(terminating := true)];
      }
    }

    /** Optimistic update: ignored if the pod is gone, refused if it is not what the caller last saw. */
    method Update(seen: Pod, p: Pod) returns (conflict: bool)
      modifies this`pods
      ensures conflict <==> Present(old(pods), seen) && old(pods)[PodTargetNode(seen)] != seen
      ensures pods == if Present(old(pods), seen) && old(pods)[PodTargetNode(seen)] == seen
                      then old(pods)[PodTargetNode(seen) := p] else old(pods)
    {
      var n := PodTargetNode(seen);
      conflict := false;
      if n in pods && pods[n].uid == seen.uid {
        if pods[n] == seen {
          pods := pods[n := p];
        } else {
          conflict := true;
        }
      }
    }
  }

  /** The pod still exists, possibly changed. */
  predicate Present(pods: map<Name, Pod>, p: Pod) {
    PodTargetNode(p) in pods && pods[PodTargetNode(p)].uid == p.uid
  }

  // ---- The resource in the reconciler's hands ----

  class RolloutPlan {
    const hash: string
    const image: string
    const gen: int
    const waveSize: int
    const nodes: seq<Name>
    var gatedWaves: int
    var evaluatingWave: Option<int>
    var gateStartedAt: Option<int>

    constructor (p: Plan)
      ensures View() == p
    {
      hash, image, gen, waveSize, nodes := p.hash, p.image, p.gen, p.waveSize, p.nodes;
      gatedWaves, evaluatingWave, gateStartedAt := p.gatedWaves, p.evaluatingWave, p.gateStartedAt;
    }

    function View(): Plan
      reads this
    {
      Plan(hash, image, gen, waveSize, nodes, gatedWaves, evaluatingWave, gateStartedAt)
    }
  }

  class FleetRollout {
    const spec: Spec
    const generation: int
    var phase: Phase
    var observedGeneration: int
    var currentWave: int
    var totalWaves: int
    var updatedNodes: int
    var skippedNodes: seq<Name>
    var lastGood: Option<LastGood>
    var rollback: Option<Rollback>
    var plan: RolloutPlan?

    constructor (spec: Spec, generation: int, st: Status)
      ensures this.spec == spec && this.generation == generation && View() == st
      ensures plan != null ==> fresh(plan)
    {
      this.spec, this.generation := spec, generation;
      phase, observedGeneration, currentWave, totalWaves := st.phase, st.observedGeneration, st.currentWave,
          st.totalWaves;
      updatedNodes, skippedNodes := st.updatedNodes, st.skippedNodes;
      lastGood, rollback, plan := st.lastGood, st.rollback, null;
      new;
      if st.plan.Some? {
        plan := new RolloutPlan(st.plan.value);
      }
    }

    function View(): Status
      reads this, plan
    {
      Status(phase, observedGeneration, currentWave, totalWaves, updatedNodes, skippedNodes, lastGood, rollback,
             if plan == null then None else Some(plan.View()))
    }
  }

  datatype GateDecision = GateDecision(promote: bool, paused: bool, rollback: bool)

  // ---- Pure helpers that loop ----

  function AdoptableAmong(v: View, nodes: seq<Name>): set<Name> {
    set n | n in nodes && n in v.pods && n in v.ready && PodGatedOn(v.pods[n], v.hash)
  }

  lemma {:induction false} OfAppend(v: View, nodes: seq<Name>, n: Name, c: Class)
    ensures Of(v, nodes + [n], c) == Of(v, nodes, c) + (if Classify(v, n) == c then [n] else [])
  {
    if nodes != [] {
      OfAppend(v, nodes[1..], n, c);
      assert (nodes + [n])[1..] == nodes[1..] + [n];
    }
  }

  /** Ungating a held pod: what is held stays what is stored, also for one that was ungated before. */
  lemma UngateStep(pods: map<Name, Pod>, done: set<Name>, n: Name)
    requires PodsWf(pods) && n in pods
    ensures var held := Apply(pods, {}, done)[n];
            && PodTargetNode(held) == n
            && Apply(pods, {}, done + {n}) == Apply(pods, {}, done)[n := Ungated(held)]
            && (!PodGated(held) ==> Ungated(held) == held)
  {
    UngateKeepsOtherGates(WithoutWaveGate(pods[n].gates), 0);
    UngateKeepsOtherGates(pods[n].gates, 0);
  }

  /** One turn of the capped delete loop: what was taken and what is still to take make up the whole. */
  lemma TakenGrows(v: View, nodes: seq<Name>, k: nat, taken: seq<Name>, size: int)
    requires k < |nodes| && |taken| < size
    requires taken + TakeStale(v, nodes[k..], size - |taken|) == TakeStale(v, nodes, size)
    ensures var taken' := if Replaceable(v, nodes[k]) then taken + [nodes[k]] else taken;
            taken' + TakeStale(v, nodes[k + 1..], size - |taken'|) == TakeStale(v, nodes, size)
  {
    assert nodes[k..][1..] == nodes[k + 1..];
  }

  lemma DeleteOneMore(pods: map<Name, Pod>, dels: seq<Name>, ungs: set<Name>, n: Name)
    requires PodsWf(pods) && n in pods && n !in ungs
    ensures var held := Apply(pods, ToSet(dels), ungs)[n];
            && Present(Apply(pods, ToSet(dels), ungs), pods[n]) && PodTargetNode(pods[n]) == n
            && Apply(pods, ToSet(dels + [n]), ungs) == Apply(pods, ToSet(dels), ungs)[n := Deleted(held)]
  {
    assert ToSet(dels + [n]) == ToSet(dels) + {n};
  }

  method InsertSorted(s: seq<Name>, n: Name) returns (r: seq<Name>)
    requires Sorted(s) && n !in s
    ensures Sorted(r) && ToSet(r) == ToSet(s) + {n}
  {
    var k := 0;
    while k < |s| && Less(s[k], n)
      invariant 0 <= k <= |s|
      invariant forall j :: 0 <= j < k ==> Less(s[j], n)
    {
      k := k + 1;
    }
    r := s[..k] + [n] + s[k..];
    forall j | k <= j < |s| ensures Less(n, s[j]) {
      LessTotal(s[k], n);
      if j > k {
        LessTransitive(n, s[k], s[j]);
      }
    }
    assert forall x :: x in r <==> x in s || x == n;
  }

  /** slices.Sort on distinct names: the result is the one increasing enumeration. */
  method SortNames(names: seq<Name>) returns (r: seq<Name>)
    requires |names| == |ToSet(names)|
    ensures r == Order(ToSet(names))
  {
    r := [];
    for k := 0 to |names|
      invariant Sorted(r) && ToSet(r) == ToSet(names[..k])
    {
      DistinctPrefix(names, k);
      assert names[k] !in ToSet(r);
      r := InsertSorted(r, names[k]);
      assert ToSet(names[..k + 1]) == ToSet(names[..k]) + {names[k]};
    }
    assert names[..|names|] == names;
    SortedUnique(r, Order(ToSet(names)));
  }

  lemma DistinctPrefix(names: seq<Name>, k: nat)
    requires |names| == |ToSet(names)| && k < |names|
    ensures names[k] !in names[..k]
  {
    if names[k] in names[..k] {
      var rest := names[..k] + names[k + 1..];
      assert ToSet(names) <= ToSet(rest);
      SetNoLarger(rest, ToSet(names));
      assert false;
    }
  }

  predicate GatedOther(p: Pod, hash: string) {
    !p.terminating && PodHash(p) != hash && PodGated(p)
  }

  // ---- The reconciler ----

  class Reconciler {
    const hash: Hasher
    const api: Cluster

    constructor (hash: Hasher, api: Cluster)
      ensures this.hash == hash && this.api == api
    {
      this.hash, this.api := hash, api;
    }

    /** Removes the wave gate and keeps every other gate in order; no gate, no write. */
    method Ungate(p: Pod) returns (conflict: bool)
      modifies api`pods
      ensures conflict <==> PodGated(p) && Present(old(api.pods), p) && old(api.pods)[PodTargetNode(p)] != p
      ensures api.pods == if PodGated(p) && Present(old(api.pods), p) && old(api.pods)[PodTargetNode(p)] == p
                          then old(api.pods)[PodTargetNode(p) := Ungated(p)] else old(api.pods)
    {
      var gates: seq<string> := [];
      var changed := false;
      for k := 0 to |p.gates|
        invariant gates == WithoutWaveGate(p.gates[..k])
        invariant changed <==> WAVE_GATE in p.gates[..k]
        invariant api.pods == old(api.pods)
      {
        UngateKeepsOtherGates(p.gates[..k + 1], k);
        assert p.gates[..k + 1][..k] == p.gates[..k] && p.gates[..k + 1][k..] == [p.gates[k]];
        if p.gates[k] == WAVE_GATE {
          changed := true;
        } else {
          gates := gates + [p.gates[k]];
        }
      }
      assert p.gates[..|p.gates|] == p.gates;
      if !changed {
        return false;
      }
      conflict := api.Update(p, p.(gates := gates));
    }

    /** Deletes the listed pods one by one. */
    method DeleteEach(names: seq<Name>, podByNode: map<Name, Pod>)
      requires podByNode == api.pods && PodsWf(podByNode) && forall n :: n in names ==> n in podByNode
      modifies api`pods
      ensures api.pods == Apply(podByNode, ToSet(names), {})
    {
      for k := 0 to |names|
        invariant api.pods == Apply(podByNode, ToSet(names[..k]), {})
      {
        assert ToSet(names[..k + 1]) == ToSet(names[..k]) + {names[k]};
        api.Delete(podByNode[names[k]]);
      }
      assert names[..|names|] == names;
    }

    /** Ungates the listed pods one by one; `seen` is what the reconciler holds, edited as it goes. */
    method UngateEach(names: seq<Name>, podByNode: map<Name, Pod>)
      requires podByNode == api.pods && PodsWf(podByNode) && forall n :: n in names ==> n in podByNode
      modifies api`pods
      ensures api.pods == Apply(podByNode, {}, ToSet(names))
    {
      var seen := podByNode;
      for k := 0 to |names|
        invariant seen == api.pods == Apply(podByNode, {}, ToSet(names[..k]))
      {
        var n := names[k];
        assert ToSet(names[..k + 1]) == ToSet(names[..k]) + {n};
        UngateStep(podByNode, ToSet(names[..k]), n);
        var conflict := Ungate(seen[n]);
        assert !conflict;
        seen := seen[n := Ungated(seen[n])];
      }
      assert names[..|names|] == names;
    }

    /** Releases the gated current pods of unplanned Ready nodes, in the index's own order. */
    method AdoptNodes(podByNode: map<Name, Pod>, v: View)
      requires podByNode == api.pods == v.pods && PodsWf(podByNode)
      modifies api`pods
      ensures api.pods == Apply(podByNode, {}, Adoptable(v))
    {
      var keys := Cluster.Enumerate(podByNode.Keys);
      for k := 0 to |keys|
        invariant api.pods == Apply(podByNode, {}, AdoptableAmong(v, keys[..k]))
      {
        var n := keys[k];
        assert n in ToSet(keys);
        DistinctPrefix(keys, k);
        assert keys[..k + 1] == keys[..k] + [n];
        if n in v.ready && PodGatedOn(podByNode[n], v.hash) {
          assert api.pods[n] == podByNode[n];
          var conflict := Ungate(podByNode[n]);
          assert !conflict;
          assert AdoptableAmong(v, keys[..k + 1]) == AdoptableAmong(v, keys[..k]) + {n};
        } else {
          assert AdoptableAmong(v, keys[..k + 1]) == AdoptableAmong(v, keys[..k]);
        }
      }
      assert forall n :: n in v.pods <==> n in ToSet(keys);
      assert AdoptableAmong(v, keys[..|keys|]) == Adoptable(v);
    }

    /** Persists the status. */
    method Finish(fr: FleetRollout)
      modifies api`status
      ensures api.status == fr.View()
    {
      api.status := fr.View();
    }

    /** Evaluates and latches one wave's gate on the plan, in place. */
    method Gate(fr: FleetRollout, wave: int, reply: Reply) returns (d: GateDecision)
      requires fr.plan != null && PlanWf(fr.plan.View()) && fr.spec.gate.Some? && ReplyWf(fr.spec.gate, reply)
      modifies fr`phase, fr.plan
      ensures var r := EvalGate(old(fr.plan.View()), fr.spec.gate.value, wave, api.clock, reply, fr.spec.policy,
          fr.lastGood);
              && fr.plan.View() == r.plan
              && d == GateDecision(Promotes(r.verdict), r.verdict == Decided(GatePauseTimeout),
                  r.verdict == Decided(GateRollback))
              && fr.phase == (if d.paused then Paused else old(fr.phase))
    {
      var plan := fr.plan;
      if plan.gatedWaves >= wave + 1 {
        return GateDecision(true, false, false);
      }
      var gate := fr.spec.gate.value;
      if plan.evaluatingWave.None? || plan.evaluatingWave.value != wave {
        plan.evaluatingWave := Some(wave);
        plan.gateStartedAt := Some(api.clock);
      }
      if reply.ConfigError? {
        return GateDecision(false, false, false);
      }
      var queries := NormalizeQueries(gate);
      var healthy, reachable := EvalPromQL(queries, reply.replies);
      var timeout := gate.timeoutSeconds;
      if timeout == 0 {
        timeout := DEFAULT_TIMEOUT;
      }
      var timedOut := api.clock - plan.gateStartedAt.value >= timeout;
      var hasLastGood := fr.lastGood.Some? && fr.lastGood.value.hash != plan.hash;
      var onFailure := fr.spec.policy == OnFailure;
      match DecideGate(reachable, healthy, timedOut, onFailure, hasLastGood) {
        case GatePass =>
          plan.gatedWaves := wave + 1;
          plan.evaluatingWave, plan.gateStartedAt := None, None;
          return GateDecision(true, false, false);
        case GateRollback =>
          return GateDecision(false, false, true);
        case GatePauseTimeout =>
          fr.phase := Paused;
          return GateDecision(false, true, false);
        case GateWait =>
          return GateDecision(false, false, false);
      }
    }

    /** A gate that does not promote: start the rollback, or persist and wait. */
    method OnGateHold(fr: FleetRollout, d: GateDecision)
      requires fr.plan != null
      modifies fr`rollback, fr`phase, api`status
      ensures var st := old(fr.View());
              api.status == if d.rollback
                then st.(rollback := Some(Rollback(fr.plan.hash, fr.plan.image, api.clock)), phase := RollingBack)
                else st
    {
      if d.rollback {
        fr.rollback := Some(Rollback(fr.plan.hash, fr.plan.image, api.clock));
        fr.phase := RollingBack;
      }
      Finish(fr);
    }

    /** Drives the plan wave by wave: ensure it, derive progress, ask the gate, act on the current wave. */
    method ReconcileForward(fr: FleetRollout, nodeNames: seq<Name>, podByNode: map<Name, Pod>, v: View,
                            base: Template, reply: Reply, ghost i: Input)
      requires nodeNames != [] && podByNode == api.pods && PodsWf(podByNode) && InputWf(i)
      requires i == Input(fr.spec, fr.generation, i.status, nodeNames, podByNode, api.clock, reply)
      requires v == View(ToSet(nodeNames), podByNode, v.hash)
      requires fr.View().plan == i.status.plan && fr.rollback.None?
      modifies fr, fr.plan, api`status, api`pods
      ensures var o := ForwardPass(i, old(fr.View()), base, v);
              api.status == o.status && api.pods == Apply(podByNode, o.dels, o.ungs)
    {
      ghost var st := fr.View();
      if fr.plan == null || fr.plan.hash != v.hash || fr.plan.gen != fr.generation {
        fr.plan := new RolloutPlan(FreshPlan(fr.spec, fr.generation, base, v.hash, nodeNames));
      }
      var plan := fr.plan;
      ghost var p := plan.View();
      assert p == EnsurePlan(st.plan, i.spec, i.gen, base, v.hash, nodeNames);
      var total := WaveCount(|plan.nodes|, plan.waveSize);
      fr.totalWaves := total;
      var updatedCount, pendingCount := CountProgress(fr, v);
      ghost var st1 := fr.View();
      assert st1 == Progress(st, p, v);

      if pendingCount == 0 {
        CompleteRollout(fr, podByNode, v, base, reply, updatedCount, i);
        return;
      }
      AdvanceRollout(fr, podByNode, v, reply, i);
    }

    /** Counts updated and pending planned nodes and records the skipped ones. */
    method CountProgress(fr: FleetRollout, v: View) returns (updatedCount: int, pendingCount: int)
      requires fr.plan != null
      modifies fr`updatedNodes, fr`skippedNodes
      ensures updatedCount == |Of(v, fr.plan.nodes, UpToDate)| == fr.updatedNodes
      ensures pendingCount == |Of(v, fr.plan.nodes, Pending)|
      ensures fr.skippedNodes == Of(v, fr.plan.nodes, Skipped)
    {
      var nodes := fr.plan.nodes;
      updatedCount, pendingCount := 0, 0;
      var skipped: seq<Name> := [];
      for k := 0 to |nodes|
        invariant updatedCount == |Of(v, nodes[..k], UpToDate)| && pendingCount == |Of(v, nodes[..k], Pending)|
        invariant skipped == Of(v, nodes[..k], Skipped)
      {
        assert nodes[..k + 1] == nodes[..k] + [nodes[k]];
        OfAppend(v, nodes[..k], nodes[k], UpToDate);
        OfAppend(v, nodes[..k], nodes[k], Pending);
        OfAppend(v, nodes[..k], nodes[k], Skipped);
        if Updated(v, nodes[k]) {
          updatedCount := updatedCount + 1;
        } else if nodes[k] in v.ready {
          pendingCount := pendingCount + 1;
        } else {
          skipped := skipped + [nodes[k]];
        }
      }
      assert nodes[..|nodes|] == nodes;
      fr.updatedNodes := updatedCount;
      fr.skippedNodes := skipped;
    }

    /** Nothing pending: the final gate, then adoption of unplanned nodes, then Done. */
    method CompleteRollout(fr: FleetRollout, podByNode: map<Name, Pod>, v: View, base: Template, reply: Reply,
                           updatedCount: int, ghost i: Input)
      requires fr.plan != null && PlanWf(fr.plan.View()) && podByNode == api.pods && PodsWf(podByNode) && InputWf(i)
      requires i == Input(fr.spec, fr.generation, i.status, i.ready, podByNode, api.clock, reply)
      requires v.pods == podByNode
      modifies fr, fr.plan, api`status, api`pods
      ensures var o := Complete(i, old(fr.View()), old(fr.plan.View()), base, v);
              api.status == o.status && api.pods == Apply(podByNode, o.dels, o.ungs)
    {
      var total := WaveCount(|fr.plan.nodes|, fr.plan.waveSize);
      if fr.spec.gate.Some? {
        var d := Gate(fr, total - 1, reply);
        if !d.promote {
          OnGateHold(fr, d);
          assert api.pods == Apply(podByNode, {}, {});
          return;
        }
      }
      AdoptNodes(podByNode, v);
      fr.phase := Done;
      fr.currentWave := total;
      fr.lastGood := Some(LastGood(v.hash, TemplateImage(fr.spec, base), base));
      Finish(fr);
    }

    /** Whether every Ready node of one wave is updated. */
    method CheckWave(plan: RolloutPlan, w: int, v: View) returns (full: bool)
      requires plan.waveSize >= 1 && 0 <= w < Total(plan.View())
      ensures full <==> WaveFullyUpdated(v, plan.View(), w)
    {
      WaveInRange(|plan.nodes|, plan.waveSize, w);
      var nodes := plan.nodes[w * plan.waveSize..Min((w + 1) * plan.waveSize, |plan.nodes|)];
      for k := 0 to |nodes|
        invariant forall n :: n in nodes[..k] && n in v.ready ==> Updated(v, n)
      {
        if nodes[k] in v.ready && !Updated(v, nodes[k]) {
          return false;
        }
        assert nodes[..k + 1] == nodes[..k] + [nodes[k]];
      }
      assert nodes[..|nodes|] == nodes;
      return true;
    }

    /** The first wave with a Ready node that is not updated. */
    method FindCurrentWave(plan: RolloutPlan, v: View) returns (cur: int)
      requires PlanWf(plan.View())
      ensures 0 <= cur < Total(plan.View()) && cur == FirstOpenWave(v, plan.View(), 0)
    {
      FirstOpenInRange(v, plan.View(), 0);
      var total := WaveCount(|plan.nodes|, plan.waveSize);
      var w := 0;
      while w < total
        invariant 0 <= w <= total && FirstOpenWave(v, plan.View(), w) == FirstOpenWave(v, plan.View(), 0)
      {
        var full := CheckWave(plan, w, v);
        if !full {
          return w;
        }
        w := w + 1;
      }
      return 0;
    }

    /** Something pending: the gate before the current wave, then deletes, else releases, in that wave. */
    method AdvanceRollout(fr: FleetRollout, podByNode: map<Name, Pod>, v: View, reply: Reply, ghost i: Input)
      requires fr.plan != null && PlanWf(fr.plan.View()) && podByNode == api.pods && PodsWf(podByNode) && InputWf(i)
      requires i == Input(fr.spec, fr.generation, i.status, i.ready, podByNode, api.clock, reply)
      requires v.pods == podByNode
      modifies fr, fr.plan, api`status, api`pods
      ensures var o := Advance(i, old(fr.View()), old(fr.plan.View()), v);
              api.status == o.status && api.pods == Apply(podByNode, o.dels, o.ungs)
    {
      ghost var p := fr.plan.View();
      var curWave := FindCurrentWave(fr.plan, v);
      fr.currentWave := curWave;
      fr.phase := Progressing;
      if curWave > 0 && fr.spec.gate.Some? {
        var d := Gate(fr, curWave - 1, reply);
        if !d.promote {
          OnGateHold(fr, d);
          assert api.pods == Apply(podByNode, {}, {});
          return;
        }
      }
      assert Key(fr.plan.View()) == Key(p);
      ActOnWave(fr, curWave, podByNode, v, p);
    }

    /** The replaceable and the releasable pods of a wave's nodes, in wave order. */
    method SortWave(nodes: seq<Name>, podByNode: map<Name, Pod>, v: View)
        returns (stalePods: seq<Name>, toUngate: seq<Name>)
      requires v.pods == podByNode
      ensures ToSet(stalePods) == WaveStale(v, nodes) && (|stalePods| == 0 <==> WaveStale(v, nodes) == {})
      ensures ToSet(toUngate) == WaveGated(v, nodes) && (|toUngate| == 0 <==> WaveGated(v, nodes) == {})
      ensures forall n :: n in stalePods || n in toUngate ==> n in podByNode
    {
      stalePods, toUngate := [], [];
      for k := 0 to |nodes|
        invariant ToSet(stalePods) == WaveStale(v, nodes[..k])
        invariant ToSet(toUngate) == WaveGated(v, nodes[..k])
      {
        var n := nodes[k];
        assert nodes[..k + 1] == nodes[..k] + [n];
        assert ToSet(stalePods + [n]) == ToSet(stalePods) + {n};
        assert ToSet(toUngate + [n]) == ToSet(toUngate) + {n};
        if n in v.ready && n in podByNode && !podByNode[n].terminating {
          if Stale(v, podByNode[n]) && Scheduled(podByNode[n]) {
            stalePods := stalePods + [n];
          } else if PodGatedOn(podByNode[n], v.hash) {
            toUngate := toUngate + [n];
          }
        }
      }
      assert nodes[..|nodes|] == nodes;
      assert forall n :: n in stalePods ==> n in ToSet(stalePods);
      assert forall n :: n in toUngate ==> n in ToSet(toUngate);
      assert stalePods != [] ==> stalePods[0] in WaveStale(v, nodes);
      assert toUngate != [] ==> toUngate[0] in WaveGated(v, nodes);
    }

    /** Deletes the wave's scheduled stale pods or, if there are none, ungates its gated current ones. */
    method ActOnWave(fr: FleetRollout, curWave: int, podByNode: map<Name, Pod>, v: View, ghost p: Plan)
      requires fr.plan != null && PlanWf(p) && Key(fr.plan.View()) == Key(p) && 0 <= curWave < Total(p)
      requires podByNode == api.pods && PodsWf(podByNode) && v.pods == podByNode
      modifies api`status, api`pods
      ensures api.status == fr.View()
      ensures var o := Act(fr.View(), p, curWave, v, Unasked); api.pods == Apply(podByNode, o.dels, o.ungs)
    {
      WaveInRange(|p.nodes|, p.waveSize, curWave);
      var size := fr.plan.waveSize;
      var nodes := fr.plan.nodes[curWave * size..Min((curWave + 1) * size, |fr.plan.nodes|)];
      assert nodes == Wave(p, curWave);
      var stalePods, toUngate := SortWave(nodes, podByNode, v);
      if |stalePods| > 0 {
        DeleteEach(stalePods, podByNode);
      } else if |toUngate| > 0 {
        UngateEach(toUngate, podByNode);
      } else {
        assert api.pods == Apply(podByNode, {}, {});
      }
      Finish(fr);
    }

    /** Releases every gated pod of the last-good template on a live node. */
    method ReleaseLastGood(nodeNames: seq<Name>, podByNode: map<Name, Pod>, v: View) returns (ungated: nat)
      requires podByNode == api.pods == v.pods && PodsWf(podByNode)
      modifies api`pods
      ensures api.pods == Apply(podByNode, {}, Releasable(v, nodeNames))
      ensures ungated == 0 <==> Releasable(v, nodeNames) == {}
    {
      ungated := 0;
      var seen := podByNode;
      for k := 0 to |nodeNames|
        invariant seen == api.pods == Apply(podByNode, {}, Releasable(v, nodeNames[..k]))
        invariant ungated == 0 <==> Releasable(v, nodeNames[..k]) == {}
      {
        var node := nodeNames[k];
        assert nodeNames[..k + 1] == nodeNames[..k] + [node];
        if node in podByNode && PodGatedOn(podByNode[node], v.hash) {
          UngateStep(podByNode, Releasable(v, nodeNames[..k]), node);
          var conflict := Ungate(seen[node]);
          assert !conflict;
          seen := seen[node := Ungated(seen[node])];
          assert Releasable(v, nodeNames[..k + 1]) == Releasable(v, nodeNames[..k]) + {node};
          ungated := ungated + 1;
        } else {
          assert Releasable(v, nodeNames[..k + 1]) == Releasable(v, nodeNames[..k]);
        }
      }
      assert nodeNames[..|nodeNames|] == nodeNames;
    }

    /** Deletes scheduled stale pods in node order, at most `size` of them. */
    method DeleteStale(nodeNames: seq<Name>, podByNode: map<Name, Pod>, v: View, size: int, ghost ungs: set<Name>)
      returns (deleted: nat)
      requires v.pods == podByNode && PodsWf(podByNode) && size >= 1
      requires api.pods == Apply(podByNode, {}, ungs)
      requires forall n :: n in ungs && n in podByNode ==> !Stale(v, podByNode[n])
      modifies api`pods
      ensures api.pods == Apply(podByNode, ToSet(TakeStale(v, nodeNames, size)), ungs)
      ensures deleted == |TakeStale(v, nodeNames, size)|
    {
      deleted := 0;
      ghost var taken: seq<Name> := [];
      var k := 0;
      while k < |nodeNames| && deleted < size
        invariant 0 <= k <= |nodeNames| && deleted == |taken| <= size
        invariant taken + TakeStale(v, nodeNames[k..], size - deleted) == TakeStale(v, nodeNames, size)
        invariant api.pods == Apply(podByNode, ToSet(taken), ungs)
      {
        var node := nodeNames[k];
        TakenGrows(v, nodeNames, k, taken, size);
        if Replaceable(v, node) {
          DeleteOneMore(podByNode, taken, ungs, node);
          api.Delete(podByNode[node]);
          taken := taken + [node];
          deleted := deleted + 1;
        }
        k := k + 1;
      }
      assert taken == taken + TakeStale(v, nodeNames[k..], size - deleted);
    }

    method CountUpdated(nodeNames: seq<Name>, v: View) returns (updatedCount: int)
      ensures updatedCount == |Of(v, nodeNames, UpToDate)|
    {
      updatedCount := 0;
      for m := 0 to |nodeNames|
        invariant updatedCount == |Of(v, nodeNames[..m], UpToDate)|
      {
        assert nodeNames[..m + 1] == nodeNames[..m] + [nodeNames[m]];
        OfAppend(v, nodeNames[..m], nodeNames[m], UpToDate);
        if Updated(v, nodeNames[m]) {
          updatedCount := updatedCount + 1;
        }
      }
      assert nodeNames[..|nodeNames|] == nodeNames;
    }

    /** Back to the last-good template on the live nodes: release all of it, delete at most one wave's worth. */
    method ReconcileRollback(fr: FleetRollout, nodeNames: seq<Name>, podByNode: map<Name, Pod>, v: View)
      requires nodeNames != [] && podByNode == api.pods == v.pods && PodsWf(podByNode)
      modifies fr, api`status, api`pods
      ensures var o := RollbackPass(fr.spec, old(fr.View()), nodeNames, v);
              api.status == o.status && api.pods == Apply(podByNode, o.dels, o.ungs)
    {
      var n := |nodeNames|;
      var size := ResolveWaveSize(fr.spec.waveSize, n);
      fr.totalWaves := WaveCount(n, size);
      fr.phase := RollingBack;
      var ungated := ReleaseLastGood(nodeNames, podByNode, v);
      var deleted := DeleteStale(nodeNames, podByNode, v, size, Releasable(v, nodeNames));
      var updatedCount := CountUpdated(nodeNames, v);
      fr.updatedNodes := updatedCount;
      if ungated == 0 && deleted == 0 && updatedCount == n {
        fr.phase := RolledBack;
      }
      assert deleted == 0 <==> ToSet(TakeStale(v, nodeNames, size)) == {} by {
        EmptyToSet(TakeStale(v, nodeNames, size));
      }
      Finish(fr);
    }

    /** Abandons a rollback of another template, or one with nothing to go back to. */
    method ResolveRollback(fr: FleetRollout, currentHash: string)
      modifies fr
      ensures fr.View() == Begin(old(fr.View()), fr.generation, currentHash) && fr.plan == old(fr.plan)
    {
      fr.observedGeneration := fr.generation;
      if fr.rollback.Some? && currentHash != fr.rollback.value.fromHash {
        fr.rollback := None;
      }
      if fr.rollback.Some? && fr.lastGood.None? {
        fr.rollback := None;
      }
    }

    /** Lists nodes and pods and takes the pass's decision. */
    method ReconcilePods(fr: FleetRollout, base: Template, desiredHash: string, reply: Reply, ghost i: Input)
      requires PodsWf(api.pods) && InputWf(i) && base == RenderBaseTemplate(fr.spec)
      requires i == Input(fr.spec, fr.generation, i.status, Order(ReadyTargets(api.nodes)), api.pods, api.clock, reply)
      requires fr.View() == BeginInput(hash, i) && desiredHash == DesiredHash(hash, i.spec, BeginInput(hash, i))
      modifies fr, fr.plan, api`status, api`pods
      ensures api.status == Pass(hash, i).status
      ensures api.pods == Apply(old(api.pods), Pass(hash, i).dels, Pass(hash, i).ungs)
    {
      var nodeNames := ReadyNodeNames();
      if |nodeNames| == 0 {
        fr.phase := Progressing;
        Finish(fr);
        assert api.pods == Apply(api.pods, {}, {});
        return;
      }
      var podByNode, gatedStale := IndexPods(desiredHash);
      var v := View(ToSet(nodeNames), podByNode, desiredHash);
      assert v == ViewOf(hash, i);
      EmptyToSet(gatedStale);
      if |gatedStale| > 0 {
        DeleteEach(gatedStale, podByNode);
        fr.phase := Progressing;
        Finish(fr);
        return;
      }
      if fr.rollback.Some? {
        ReconcileRollback(fr, nodeNames, podByNode, v);
      } else {
        ReconcileForward(fr, nodeNames, podByNode, v, base, reply, i);
      }
    }

    /** Writes the DaemonSet's template for the desired artifact. */
    method SyncDaemonSet(fr: FleetRollout, base: Template, currentHash: string) returns (desiredHash: string)
      requires base == RenderBaseTemplate(fr.spec) && currentHash == hash(base)
      requires fr.rollback.Some? ==> fr.lastGood.Some?
      modifies api`ds
      ensures desiredHash == DesiredHash(hash, fr.spec, fr.View())
      ensures api.ds == Some(RenderedTemplate(DesiredBase(fr.spec, fr.View()), desiredHash, fr.spec))
      ensures fr.rollback.None? ==> forall t :: AsksFor(fr.spec, t) ==> Deploys(api.ds.value, t, hash(t), fr.spec)
      ensures fr.rollback.Some? ==>
                Deploys(api.ds.value, fr.lastGood.value.template, fr.lastGood.value.hash, fr.spec)
    {
      var desiredBase := base;
      desiredHash := currentHash;
      if fr.rollback.Some? {
        desiredBase, desiredHash := fr.lastGood.value.template, fr.lastGood.value.hash;
      }
      TheSpecsTemplate(hash, fr.spec);
      var template := RenderDSTemplate(desiredBase, desiredHash, fr.spec);
      api.ds := Some(template);
    }

    /** What a reconcile that starts now observes. */
    ghost function Observed(reply: Reply): Input
      reads api
    {
      Input(api.spec, api.generation, api.status, Order(ReadyTargets(api.nodes)), api.pods, api.clock, reply)
    }

    /** One reconcile of the resource, start to end, with nobody else writing meanwhile. */
    method Reconcile(reply: Reply)
      requires PodsWf(api.pods) && StatusWf(api.status) && ReplyWf(api.spec.gate, reply)
      modifies api`ds, api`status, api`pods
      ensures var i := old(Observed(reply));
              && InputWf(i) && api.status == Pass(hash, i).status
              && api.pods == Apply(i.pods, Pass(hash, i).dels, Pass(hash, i).ungs)
      ensures var st := BeginInput(hash, old(Observed(reply)));
              api.ds == Some(RenderedTemplate(DesiredBase(api.spec, st), DesiredHash(hash, api.spec, st), api.spec))
      ensures FollowsSpec(hash, api.spec, old(api.status), api.ds.value)
    {
      DesiredFollowsSpec(hash, api.spec, api.status, api.generation);
      ghost var i := Observed(reply);
      var fr := new FleetRollout(api.spec, api.generation, api.status);
      var base := RenderBaseTemplate(fr.spec);
      ResolveRollback(fr, hash(base));
      assert fr.View() == BeginInput(hash, i);
      var desiredHash := SyncDaemonSet(fr, base, hash(base));
      ReconcilePods(fr, base, desiredHash, reply, i);
    }

    /** Ready target nodes by name. */
    method ReadyNodeNames() returns (nodeNames: seq<Name>)
      ensures nodeNames == Order(ReadyTargets(api.nodes)) && Sorted(nodeNames)
      ensures forall n :: n in nodeNames <==> n in api.nodes && api.nodes[n].ready && api.nodes[n].target
    {
      var targets := api.ListTargets();
      nodeNames := [];
      for k := 0 to |targets|
        invariant ToSet(nodeNames) == set n | n in targets[..k] && n in api.nodes && api.nodes[n].ready
        invariant |nodeNames| == |ToSet(nodeNames)|
      {
        var n := targets[k];
        assert n in ToSet(targets);
        DistinctPrefix(targets, k);
        assert targets[..k + 1] == targets[..k] + [n];
        if api.nodes[n].ready {
          assert n !in ToSet(nodeNames);
          assert ToSet(nodeNames + [n]) == ToSet(nodeNames) + {n};
          nodeNames := nodeNames + [n];
        }
      }
      assert targets[..|targets|] == targets;
      assert forall n :: n in targets <==> n in ToSet(targets);
      assert ToSet(nodeNames) == ReadyTargets(api.nodes);
      nodeNames := SortNames(nodeNames);
      assert forall n :: n in nodeNames <==> n in ToSet(nodeNames);
    }

    /** Indexes the owned pods by target node and finds the live gated ones of another template. */
    method IndexPods(desiredHash: string) returns (podByNode: map<Name, Pod>, gatedStale: seq<Name>)
      requires PodsWf(api.pods)
      ensures podByNode == api.pods
      ensures forall ready :: ToSet(gatedStale) == GatedStale(View(ready, podByNode, desiredHash))
      ensures forall n :: n in gatedStale ==> n in podByNode
    {
      var podList := api.ListPods();
      podByNode, gatedStale := map[], [];
      for k := 0 to |podList|
        invariant forall n :: n in podByNode ==> n in api.pods && podByNode[n] == api.pods[n]
        invariant forall j :: 0 <= j < k ==> PodTargetNode(podList[j]) in podByNode
      {
        assert podList[k] in podList;
        var node := PodTargetNode(podList[k]);
        if node != "" {
          podByNode := podByNode[node := podList[k]];
        }
      }
      forall n | n in api.pods ensures n in podByNode {
        var j :| 0 <= j < |podList| && podList[j] == api.pods[n];
        assert PodTargetNode(podList[j]) == n;
      }
      for k := 0 to |podList|
        invariant forall n :: n in gatedStale ==>
                    n in podByNode && GatedOther(podByNode[n], desiredHash)
        invariant forall j :: 0 <= j < k && GatedOther(podList[j], desiredHash) ==>
                    PodTargetNode(podList[j]) in gatedStale
      {
        var p := podList[k];
        assert p in podList;
        if !p.terminating && PodHash(p) != desiredHash && PodGated(p) {
          gatedStale := gatedStale + [PodTargetNode(p)];
        }
      }
      forall n | n in podByNode && GatedOther(podByNode[n], desiredHash)
        ensures n in gatedStale
      {
        var j :| 0 <= j < |podList| && podList[j] == podByNode[n];
        assert PodTargetNode(podList[j]) == n;
      }
    }
  }
}
