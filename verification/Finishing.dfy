/**
  * From every reachable world the protocol itself can finish: the cooperative environment that module
  * Convergence assumes is made of steps of the DaemonSet controller, the scheduler and the kubelet.
  */
module Finishing {
  import opened Prelude
  import opened Api
  import opened Templates
  import opened Waves
  import opened Gates
  import opened Engine
  import opened PassProperties
  import opened GateProperties
  import opened Protocol
  import opened Invariant
  import opened Convergence
  import opened Atomic

  // ---- One node settles ----

  predicate AgreeAt(a: map<Name, Pod>, b: map<Name, Pod>, n: Name) {
    (n in a <==> n in b) && (n in a ==> a[n] == b[n])
  }

  /** What the DaemonSet controller needs: a template that gates its pods and carries the hash. */
  predicate DaemonSetIs(w: World, h: string) {
    && w.ds.Some? && w.ds.value.gates == [WAVE_GATE]
    && HASH_LABEL in w.ds.value.labels && w.ds.value.labels[HASH_LABEL] == h
  }

  /** Only pods and the uid counter differ, and of the pods only that of node n. */
  ghost predicate OnlyAt(w: World, w': World, n: Name) {
    w' == w.(pods := w'.pods, nextUid := w'.nextUid) && forall m :: m != n ==> AgreeAt(w.pods, w'.pods, m)
  }

  lemma OneMore(hash: Hasher, w: World, ws: seq<World>, ls: seq<Label>, mid: World, l: Label)
      returns (vs: seq<World>, ms: seq<Label>, w': World)
    requires RunFrom(hash, w, ws, ls, mid) && Enabled(mid, l)
    ensures w' == Next(hash, mid, l) && RunFrom(hash, w, vs, ms, w')
  {
    AppendStep(hash, w, ws, ls, mid, l);
    vs, ms, w' := ws + [Next(hash, mid, l)], ls + [l], Next(hash, mid, l);
  }

  /** The pod is gone or goes, and the DaemonSet controller brings it back at the gate. */
  lemma Recreate(hash: Hasher, w: World, n: Name) returns (ws: seq<World>, ls: seq<Label>, w': World)
    requires n in w.nodes && w.ds.Some? && (n in w.pods ==> w.pods[n].terminating)
    ensures RunFrom(hash, w, ws, ls, w') && OnlyAt(w, w', n)
    ensures n in w'.pods && exists uid :: w'.pods[n] == NewPod(w.ds.value, n, uid, [], [])
  {
    ws, ls, w' := [w], [], w;
    if n in w.pods {
      ws, ls, w' := OneMore(hash, w, ws, ls, w', Vanish(n));
    }
    ws, ls, w' := OneMore(hash, w, ws, ls, w', Create(n, [], []));
  }

  /** A released pod loses what other gates it has, is scheduled and becomes Ready. */
  lemma Start(hash: Hasher, w: World, n: Name) returns (ws: seq<World>, ls: seq<Label>, w': World)
    requires n in w.pods && !PodGated(w.pods[n]) && (w.pods[n].gates != [] ==> !Scheduled(w.pods[n])) && n != ""
    ensures RunFrom(hash, w, ws, ls, w') && OnlyAt(w, w', n)
    ensures n in w'.pods && Scheduled(w'.pods[n]) && w'.pods[n].ready && w'.pods[n].gates == []
    ensures w'.pods[n].template == w.pods[n].template && w'.pods[n].terminating == w.pods[n].terminating
  {
    ws, ls, w' := [w], [], w;
    if !Scheduled(w.pods[n]) {
      ws, ls, w' := OneMore(hash, w, ws, ls, w', Regate(n, []));
      ws, ls, w' := OneMore(hash, w, ws, ls, w', Schedule(n));
    }
    ws, ls, w' := OneMore(hash, w, ws, ls, w', SetReady(n, true));
  }

  lemma SettleOne(hash: Hasher, w: World, h: string, n: Name) returns (ws: seq<World>, ls: seq<Label>, w': World)
    requires PodsWf(w.pods) && n in w.nodes && n != "" && DaemonSetIs(w, h)
    ensures RunFrom(hash, w, ws, ls, w') && OnlyAt(w, w', n) && CooperatesAt(h, w.pods, w'.pods, n)
  {
    if n !in w.pods || w.pods[n].terminating {
      ws, ls, w' := Recreate(hash, w, n);
      assert w'.pods[n].gates == [WAVE_GATE];
    } else if PodGated(w.pods[n]) {
      ws, ls, w' := [w], [], w;
    } else {
      ws, ls, w' := Start(hash, w, n);
    }
  }

  // ---- Every listed node settles ----

  ghost predicate OnlyIn(w: World, w': World, nodes: seq<Name>) {
    w' == w.(pods := w'.pods, nextUid := w'.nextUid) && forall m :: m !in nodes ==> AgreeAt(w.pods, w'.pods, m)
  }

  lemma {:induction false} SettleNodes(hash: Hasher, w: World, h: string, nodes: seq<Name>)
      returns (ws: seq<World>, ls: seq<Label>, w': World)
    requires Inv(hash, w) && DaemonSetIs(w, h) && Sorted(nodes) && forall n :: n in nodes ==> n in w.nodes
    ensures RunFrom(hash, w, ws, ls, w') && OnlyIn(w, w', nodes)
    ensures forall n :: n in nodes ==> CooperatesAt(h, w.pods, w'.pods, n)
    decreases |nodes|
  {
    if nodes == [] {
      ws, ls, w' := [w], [], w;
    } else {
      var mid;
      ws, ls, mid := SettleOne(hash, w, h, nodes[0]);
      RunFromKeepsInv(hash, w, ws, ls, mid);
      var vs, ms;
      vs, ms, w' := SettleNodes(hash, mid, h, nodes[1..]);
      Chain(hash, w, ws, ls, mid, vs, ms, w');
      ws, ls := ws + vs[1..], ls + ms;
      SettleJoin(w, mid, w', h, nodes);
    }
  }

  /** The first node settled and then the others: all have. */
  lemma SettleJoin(w: World, mid: World, w': World, h: string, nodes: seq<Name>)
    requires Sorted(nodes) && nodes != [] && OnlyAt(w, mid, nodes[0]) && CooperatesAt(h, w.pods, mid.pods, nodes[0])
    requires OnlyIn(mid, w', nodes[1..]) && forall n :: n in nodes[1..] ==> CooperatesAt(h, mid.pods, w'.pods, n)
    ensures OnlyIn(w, w', nodes) && forall n :: n in nodes ==> CooperatesAt(h, w.pods, w'.pods, n)
  {
    forall n ensures n in nodes[1..] <==> n in nodes && n != nodes[0] {
      TailMembers(nodes, n);
    }
    assert AgreeAt(mid.pods, w'.pods, nodes[0]);
    forall n | n in nodes[1..] ensures CooperatesAt(h, w.pods, w'.pods, n) {
      assert AgreeAt(w.pods, mid.pods, n);
    }
    forall m | m !in nodes ensures AgreeAt(w.pods, w'.pods, m) {
      assert AgreeAt(w.pods, mid.pods, m) && AgreeAt(mid.pods, w'.pods, m);
    }
  }

  lemma SettlingCooperates(w: World, w': World, h: string, nodes: seq<Name>)
    requires OnlyIn(w, w', nodes) && forall n :: n in nodes ==> CooperatesAt(h, w.pods, w'.pods, n)
    ensures Cooperates(h, w.pods, w'.pods, nodes)
  {
    forall n | n in GatedStale(View({}, w'.pods, h)) ensures n in GatedStale(View({}, w.pods, h)) {
      assert n in nodes ==> CooperatesAt(h, w.pods, w'.pods, n);
      assert n !in nodes ==> AgreeAt(w.pods, w'.pods, n);
    }
  }

  // ---- A round is a run ----

  /** Idle and reachable, with a well-formed answer to whatever gate is asked. */
  ghost predicate Quiescent(hash: Hasher, w: World, reply: Reply) {
    Inv(hash, w) && w.job == Idle && ReplyWf(w.spec.gate, reply)
  }

  /** The nodes settle on what the pass from w left. */
  ghost predicate RoundTo(hash: Hasher, w: World, reply: Reply, nodes: seq<Name>, w': World) {
    && Quiescent(hash, w', reply) && InputWf(PassInput(w, reply))
    && SameSurroundings(w, w')
    && var i := PassInput(w, reply);
    && w'.status == Pass(hash, i).status
    && Cooperates(ViewOf(hash, i).hash, Apply(i.pods, Pass(hash, i).dels, Pass(hash, i).ungs), w'.pods, nodes)
  }

  /** A whole pass, and then steps of the DaemonSet controller, the scheduler and the kubelet only. */
  lemma RoundIsARun(hash: Hasher, w: World, reply: Reply, nodes: seq<Name>)
      returns (ws: seq<World>, ls: seq<Label>, w': World)
    requires Quiescent(hash, w, reply) && Sorted(nodes) && forall n :: n in nodes ==> n in w.nodes
    ensures RunFrom(hash, w, ws, ls, w') && RoundTo(hash, w, reply, nodes, w')
  {
    var i := PassInput(w, reply);
    var mid;
    ws, ls, mid := PassIsARun(hash, w, reply);
    RunFromKeepsInv(hash, w, ws, ls, mid);
    var vs, ms;
    vs, ms, w' := SettleNodes(hash, mid, ViewOf(hash, i).hash, nodes);
    SettlingCooperates(mid, w', ViewOf(hash, i).hash, nodes);
    RunFromKeepsInv(hash, mid, vs, ms, w');
    Chain(hash, w, ws, ls, mid, vs, ms, w');
    ws, ls := ws + vs[1..], ls + ms;
  }

  lemma ReadyNodesExist(nodes: map<Name, Node>, n: Name)
    requires n in Order(ReadyTargets(nodes))
    ensures n in nodes
  {
    assert n in ToSet(Order(ReadyTargets(nodes)));
  }

  lemma PlannedNodesExist(hash: Hasher, w: World, reply: Reply)
    requires Quiescent(hash, w, reply) && InputWf(PassInput(w, reply)) && PassInput(w, reply).ready != []
    requires forall n :: n in PassPlan(hash, PassInput(w, reply)).nodes ==> n in PassInput(w, reply).ready
    ensures Sorted(PassPlan(hash, PassInput(w, reply)).nodes)
    ensures forall n :: n in PassPlan(hash, PassInput(w, reply)).nodes ==> n in w.nodes
  {
    var i := PassInput(w, reply);
    PassPlanGood(hash, i, w.log);
    forall n | n in PassPlan(hash, i).nodes ensures n in w.nodes {
      ReadyNodesExist(w.nodes, n);
    }
  }

  // ---- Forward ----

  /** Going forward, with the planned nodes Ready and an answer that passes any gate. */
  ghost predicate CanAdvance(hash: Hasher, w: World, reply: Reply) {
    && Quiescent(hash, w, reply)
    && var i := PassInput(w, reply);
    && InputWf(i) && i.ready != [] && BeginInput(hash, i).rollback.None?
    && (forall n :: n in PassPlan(hash, i).nodes ==> n in i.ready)
    && (i.spec.gate.Some? ==> AllPass(i.spec.gate.value, reply))
  }

  /** One round later the same holds, and now the planned nodes have settled. */
  lemma AdvanceGoesOn(hash: Hasher, w: World, reply: Reply, w': World)
    requires CanAdvance(hash, w, reply) && RoundTo(hash, w, reply, PassPlan(hash, PassInput(w, reply)).nodes, w')
    ensures CanAdvance(hash, w', reply) && GoodRound(hash, PassInput(w', reply))
    ensures PassPlan(hash, PassInput(w', reply)).nodes == PassPlan(hash, PassInput(w, reply)).nodes
  {
    var i, j := PassInput(w, reply), PassInput(w', reply);
    NextPlanNodes(hash, i, j);
    NoRollbackWhenPassing(hash, i);
    assert forall n :: n in PassPlan(hash, j).nodes ==> CooperatesAt(ViewOf(hash, i).hash,
      Apply(i.pods, Pass(hash, i).dels, Pass(hash, i).ungs), w'.pods, n);
  }

  lemma NoRollbackWhenPassing(hash: Hasher, i: Input)
    requires InputWf(i) && BeginInput(hash, i).rollback.None?
        && (i.spec.gate.Some? ==> AllPass(i.spec.gate.value, i.reply))
    ensures Pass(hash, i).status.rollback.None?
  {
    if i.spec.gate.Some? {
      ReplyTrichotomy(i.spec.gate.value, i.reply);
    }
    RollbackStartsIff(hash, i);
  }

  /** What a node shows in this world when its desired hash is h. */
  function NowView(w: World, h: string): View {
    View(ReadyTargets(w.nodes), w.pods, h)
  }

  /** Done is persisted for these planned nodes, and in this world each of them runs the spec's template. */
  ghost predicate DoneIn(hash: Hasher, w: World, nodes: seq<Name>) {
    && w.job == Idle && w.status.phase == Done && w.status.plan.Some? && w.status.plan.value.nodes == nodes
    && forall n :: n in nodes ==> Updated(NowView(w, CurrentHash(hash, w.spec)), n)
  }

  /** Spec, generation, nodes and clock are those of w. */
  predicate SameSurroundings(w: World, w': World) {
    w'.spec == w.spec && w'.gen == w.gen && w'.nodes == w.nodes && w'.clock == w.clock
  }

  lemma ReadyView(hash: Hasher, w: World, reply: Reply)
    ensures ToSet(PassInput(w, reply).ready) == ReadyTargets(w.nodes)
    ensures ViewOf(hash, PassInput(w, reply)).ready == ReadyTargets(w.nodes)
  {
  }

  /** A completing pass touches no planned pod, so the nodes it saw updated still are. */
  lemma CompletionIsDone(hash: Hasher, w: World, reply: Reply) returns (ws: seq<World>, ls: seq<Label>, w': World)
    requires CanAdvance(hash, w, reply) && Pass(hash, PassInput(w, reply)).why.Adoption?
    ensures RunFrom(hash, w, ws, ls, w') && SameSurroundings(w, w')
    ensures DoneIn(hash, w', PassPlan(hash, PassInput(w, reply)).nodes)
  {
    var i := PassInput(w, reply);
    ReadyView(hash, w, reply);
    CompletedPlan(hash, i);
    ws, ls, w' := PassIsARun(hash, w, reply);
  }

  lemma CompletedPlan(hash: Hasher, i: Input)
    requires InputWf(i) && PodsWf(i.pods) && Pass(hash, i).why.Adoption?
    requires i.ready != [] ==> forall n :: n in PassPlan(hash, i).nodes ==> n in i.ready
    ensures i.ready != [] && Pass(hash, i).status.phase == Done && Pass(hash, i).dels == {}
    ensures var st := Pass(hash, i).status; st.plan.Some? && st.plan.value.nodes == PassPlan(hash, i).nodes
    ensures ViewOf(hash, i).hash == CurrentHash(hash, i.spec)
    ensures forall n :: n in PassPlan(hash, i).nodes ==> Updated(ViewOf(hash, i), n) && n !in Pass(hash, i).ungs
  {
    DoneMeaning(hash, i);
    ForwardCases(hash, i);
  }

  lemma {:induction false} FinishForward(hash: Hasher, w: World, reply: Reply)
      returns (ws: seq<World>, ls: seq<Label>, w': World)
    requires CanAdvance(hash, w, reply) && GoodRound(hash, PassInput(w, reply))
    ensures RunFrom(hash, w, ws, ls, w') && SameSurroundings(w, w')
    ensures DoneIn(hash, w', PassPlan(hash, PassInput(w, reply)).nodes)
    decreases if GoesForward(hash, PassInput(w, reply)) then 0 else 1,
              RankSum(ViewOf(hash, PassInput(w, reply)), PassPlan(hash, PassInput(w, reply)).nodes)
  {
    var i := PassInput(w, reply);
    if Pass(hash, i).why.Adoption? {
      ws, ls, w' := CompletionIsDone(hash, w, reply);
    } else {
      var vs, ms, mid;
      ws, ls, mid := AdvanceRoundIsARun(hash, w, reply);
      var j := PassInput(mid, reply);
      ForwardFromSecondRound(hash, i, j);
      if GoesForward(hash, i) {
        ForwardRound(hash, i, j);
      }
      vs, ms, w' := FinishForward(hash, mid, reply);
      Chain(hash, w, ws, ls, mid, vs, ms, w');
      ws, ls := ws + vs[1..], ls + ms;
    }
  }

  /** One round going forward is a run, and the next one can follow on the same planned nodes. */
  lemma AdvanceRoundIsARun(hash: Hasher, w: World, reply: Reply) returns (ws: seq<World>, ls: seq<Label>, w': World)
    requires CanAdvance(hash, w, reply)
    ensures RunFrom(hash, w, ws, ls, w') && SameSurroundings(w, w')
    ensures RoundTo(hash, w, reply, PassPlan(hash, PassInput(w, reply)).nodes, w')
    ensures CanAdvance(hash, w', reply) && GoodRound(hash, PassInput(w', reply))
    ensures PassPlan(hash, PassInput(w', reply)).nodes == PassPlan(hash, PassInput(w, reply)).nodes
  {
    PlannedNodesExist(hash, w, reply);
    ws, ls, w' := RoundIsARun(hash, w, reply, PassPlan(hash, PassInput(w, reply)).nodes);
    AdvanceGoesOn(hash, w, reply, w');
  }

  /**
    * From every idle reachable world that is not rolling back, with the planned nodes Ready and a gate
    * that would pass, the protocol has a run that changes neither spec nor nodes and ends with Done
    * persisted and every planned node running the spec's template.
    */
  lemma DoneIsReachable(hash: Hasher, w: World, reply: Reply) returns (ws: seq<World>, ls: seq<Label>, w': World)
    requires CanAdvance(hash, w, reply)
    ensures RunFrom(hash, w, ws, ls, w') && SameSurroundings(w, w')
    ensures DoneIn(hash, w', PassPlan(hash, PassInput(w, reply)).nodes)
  {
    if Pass(hash, PassInput(w, reply)).why.Adoption? {
      ws, ls, w' := CompletionIsDone(hash, w, reply);
    } else {
      var vs, ms, mid;
      ws, ls, mid := AdvanceRoundIsARun(hash, w, reply);
      vs, ms, w' := FinishForward(hash, mid, reply);
      Chain(hash, w, ws, ls, mid, vs, ms, w');
      ws, ls := ws + vs[1..], ls + ms;
    }
  }

  // ---- Back ----

  ghost predicate CanGoBack(hash: Hasher, w: World, reply: Reply) {
    && Quiescent(hash, w, reply)
    && var i := PassInput(w, reply);
    InputWf(i) && i.ready != [] && BeginInput(hash, i).rollback.Some?
  }

  lemma RollbackGoesOnHere(hash: Hasher, w: World, reply: Reply, w': World)
    requires CanGoBack(hash, w, reply) && RoundTo(hash, w, reply, PassInput(w, reply).ready, w')
    ensures CanGoBack(hash, w', reply) && GoodRollbackRound(hash, PassInput(w', reply))
    ensures PassInput(w', reply).ready == PassInput(w, reply).ready
    ensures w'.status.lastGood == w.status.lastGood
  {
    var i := PassInput(w, reply);
    assert forall n :: n in i.ready ==> CooperatesAt(ViewOf(hash, i).hash,
      Apply(i.pods, Pass(hash, i).dels, Pass(hash, i).ungs), w'.pods, n);
  }

  /** RolledBack is persisted, and in this world every live target node runs the last-good template. */
  ghost predicate RolledBackIn(w: World, good: Option<LastGood>) {
    && w.job == Idle && w.status.phase == RolledBack && good.Some? && w.status.lastGood == good
    && forall n :: n in ReadyTargets(w.nodes) ==> Updated(NowView(w, good.value.hash), n)
  }

  /** A pass that writes RolledBack writes no pod. */
  lemma RolledBackPass(hash: Hasher, i: Input)
    requires InputWf(i) && PodsWf(i.pods) && GoesBack(hash, i) && RankSum(ViewOf(hash, i), i.ready) == 0
    ensures var o := Pass(hash, i);
            && o.status.phase == RolledBack && o.dels == {} && o.ungs == {} && o.status.lastGood == i.status.lastGood
            && i.status.lastGood.Some? && ViewOf(hash, i).hash == i.status.lastGood.value.hash
    ensures forall n :: n in i.ready ==> Updated(ViewOf(hash, i), n)
  {
    var v := ViewOf(hash, i);
    ZeroRank(v, i.ready);
    RolledBackIff(hash, i);
    RollbackScope(hash, i);
    NothingToRelease(v, i.ready);
    NothingToTake(v, i.ready, ResolveWaveSize(i.spec.waveSize, |i.ready|));
  }

  lemma ZeroRankIsRolledBack(hash: Hasher, w: World, reply: Reply) returns (ws: seq<World>, ls: seq<Label>, w': World)
    requires CanGoBack(hash, w, reply) && GoesBack(hash, PassInput(w, reply))
    requires RankSum(ViewOf(hash, PassInput(w, reply)), PassInput(w, reply).ready) == 0
    ensures RunFrom(hash, w, ws, ls, w') && SameSurroundings(w, w') && RolledBackIn(w', w.status.lastGood)
  {
    ReadyView(hash, w, reply);
    RolledBackPass(hash, PassInput(w, reply));
    ws, ls, w' := PassIsARun(hash, w, reply);
    forall n | n in ReadyTargets(w'.nodes) ensures Updated(NowView(w', w.status.lastGood.value.hash), n) {
      assert n in ToSet(PassInput(w, reply).ready);
    }
  }

  lemma {:induction false} FinishBack(hash: Hasher, w: World, reply: Reply)
      returns (ws: seq<World>, ls: seq<Label>, w': World)
    requires CanGoBack(hash, w, reply) && GoodRollbackRound(hash, PassInput(w, reply))
    ensures RunFrom(hash, w, ws, ls, w') && SameSurroundings(w, w') && RolledBackIn(w', w.status.lastGood)
    decreases if GoesBack(hash, PassInput(w, reply)) then 0 else 1,
              RankSum(ViewOf(hash, PassInput(w, reply)), PassInput(w, reply).ready)
  {
    var i := PassInput(w, reply);
    if GoesBack(hash, i) && RankSum(ViewOf(hash, i), i.ready) == 0 {
      ws, ls, w' := ZeroRankIsRolledBack(hash, w, reply);
    } else {
      var vs, ms, mid;
      ws, ls, mid := RollbackRoundIsARun(hash, w, reply);
      var j := PassInput(mid, reply);
      RollbackStaysOn(hash, i, j);
      if GoesBack(hash, i) {
        RollbackRound(hash, i, j);
      }
      vs, ms, w' := FinishBack(hash, mid, reply);
      Chain(hash, w, ws, ls, mid, vs, ms, w');
      ws, ls := ws + vs[1..], ls + ms;
    }
  }

  lemma RollbackRoundIsARun(hash: Hasher, w: World, reply: Reply) returns (ws: seq<World>, ls: seq<Label>, w': World)
    requires CanGoBack(hash, w, reply)
    ensures RunFrom(hash, w, ws, ls, w') && RoundTo(hash, w, reply, PassInput(w, reply).ready, w')
    ensures CanGoBack(hash, w', reply) && GoodRollbackRound(hash, PassInput(w', reply))
    ensures PassInput(w', reply).ready == PassInput(w, reply).ready && w'.status.lastGood == w.status.lastGood
  {
    forall n | n in PassInput(w, reply).ready ensures n in w.nodes {
      ReadyNodesExist(w.nodes, n);
    }
    ws, ls, w' := RoundIsARun(hash, w, reply, PassInput(w, reply).ready);
    RollbackGoesOnHere(hash, w, reply, w');
  }

  /**
    * From every idle reachable world that is rolling back and has a Ready target, the protocol has a run
    * that changes neither spec nor nodes and ends with RolledBack persisted and every live target node
    * running the last-good template.
    */
  lemma RolledBackIsReachable(hash: Hasher, w: World, reply: Reply) returns (ws: seq<World>, ls: seq<Label>, w': World)
    requires CanGoBack(hash, w, reply)
    ensures RunFrom(hash, w, ws, ls, w') && SameSurroundings(w, w') && RolledBackIn(w', w.status.lastGood)
  {
    var vs, ms, mid;
    ws, ls, mid := RollbackRoundIsARun(hash, w, reply);
    vs, ms, w' := FinishBack(hash, mid, reply);
    Chain(hash, w, ws, ls, mid, vs, ms, w');
    ws, ls := ws + vs[1..], ls + ms;
  }
}
