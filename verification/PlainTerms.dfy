/**
  * What a pass does, said in the fields of the objects it reads and writes, without the words the other
  * modules give to them: which template it rolls out, which pods it touches, when it completes, and
  * what it reports.
  */
module PlainTerms {
  import opened Prelude
  import opened Api
  import opened Templates
  import opened Waves
  import opened Gates
  import opened Engine
  import opened PassProperties
  import opened GateProperties
  import opened Protocol
  import opened Convergence

  /** The pod's hash label is h; without the label it counts as the empty string. */
  predicate Labelled(p: Pod, h: string) {
    && (HASH_LABEL in p.template.labels ==> p.template.labels[HASH_LABEL] == h)
    && (HASH_LABEL !in p.template.labels ==> h == "")
  }

  /** The node has a pod labelled h that is bound, Ready and not being deleted. */
  predicate RunsReady(pods: map<Name, Pod>, n: Name, h: string) {
    n in pods && !pods[n].terminating && Labelled(pods[n], h) && pods[n].nodeName != "" && pods[n].ready
  }

  /** The node has a bound pod of another label that is not being deleted. */
  predicate RunsOther(pods: map<Name, Pod>, n: Name, h: string) {
    n in pods && !pods[n].terminating && !Labelled(pods[n], h) && pods[n].nodeName != ""
  }

  /** The node has a pod of another label behind the wave gate that is not being deleted. */
  predicate WaitsAsOther(pods: map<Name, Pod>, n: Name, h: string) {
    n in pods && !pods[n].terminating && WAVE_GATE in pods[n].gates && !Labelled(pods[n], h)
  }

  /** Node n is planned at some index of wave w. */
  predicate PlannedIn(p: Plan, w: int, n: Name) {
    exists k :: w * p.waveSize <= k < (w + 1) * p.waveSize && 0 <= k < |p.nodes| && p.nodes[k] == n
  }

  // ---- What is rolled out ----

  /** The hash a pass wants: the spec's template's, or last-good's while rolling back from that. */
  lemma DesiredHashIs(hash: Hasher, i: Input, t: Template)
    requires AsksFor(i.spec, t)
    ensures BeginInput(hash, i).rollback.Some? <==> RollingBackFrom(i.status, hash(t))
    ensures !RollingBackFrom(i.status, hash(t)) ==> ViewOf(hash, i).hash == hash(t)
    ensures RollingBackFrom(i.status, hash(t)) ==> ViewOf(hash, i).hash == i.status.lastGood.value.hash
  {
    TheSpecsTemplate(hash, i.spec);
  }

  /** In a run, the DaemonSet is written with what the fetched spec and the persisted status call for. */
  lemma SyncFollowsSpec(hash: Hasher, w: World)
    requires Enabled(w, SyncDaemonSet)
    ensures var ds := Next(hash, w, SyncDaemonSet).ds; ds.Some? && FollowsSpec(hash, w.job.spec, w.status, ds.value)
  {
    DesiredFollowsSpec(hash, w.job.spec, w.status, w.job.gen);
  }

  /**
    * Going forward, the plan is for the spec's template and generation; a new one holds the Ready nodes in
    * waves of the size the spec resolves to; and a completing pass records that template as last-good.
    */
  lemma RollsOutTheSpec(hash: Hasher, i: Input, t: Template)
    requires InputWf(i) && PodsWf(i.pods) && GoesForward(hash, i) && AsksFor(i.spec, t)
    ensures var o := Pass(hash, i);
            && o.status.plan.Some? && o.status.plan.value.hash == hash(t) && o.status.plan.value.gen == i.gen
            && (i.status.plan.None? || i.status.plan.value.hash != hash(t) || i.status.plan.value.gen != i.gen ==>
                  && o.status.plan.value.nodes == i.ready
                  && o.status.plan.value.waveSize == ResolveWaveSize(i.spec.waveSize, |i.ready|)
                  && o.status.plan.value.image == TemplateImage(i.spec, t))
            && (o.why.Adoption? ==> o.status.lastGood == Some(LastGood(hash(t), TemplateImage(i.spec, t), t)))
            && (!o.why.Adoption? ==> o.status.lastGood == i.status.lastGood)
  {
    TheSpecsTemplate(hash, i.spec);
    ForwardCases(hash, i);
    GateKeepsPlan(hash, i);
    if Pass(hash, i).why.Adoption? {
      DoneMeaning(hash, i);
    }
  }

  lemma GateKeepsPlan(hash: Hasher, i: Input)
    requires InputWf(i) && i.ready != []
    ensures var p, q := PassPlan(hash, i), PlanAfter(hash, i);
            p.hash == q.hash && p.gen == q.gen && p.nodes == q.nodes && p.waveSize == q.waveSize && p.image == q.image
  {
  }

  // ---- Which pods are touched ----

  /** With no Ready node nothing is touched. */
  lemma NoNodesNoWrites(hash: Hasher, i: Input)
    requires InputWf(i) && i.ready == []
    ensures Pass(hash, i).dels == {} && Pass(hash, i).ungs == {}
  {
  }

  /** Live pods with the wave gate and another label go first, all of them, and nothing else happens meanwhile. */
  lemma RuleAExactly(hash: Hasher, i: Input, h: string)
    requires InputWf(i) && i.ready != [] && h == ViewOf(hash, i).hash
    ensures var o := Pass(hash, i);
            && (o.why == RuleA <==> exists n :: WaitsAsOther(i.pods, n, h))
            && (o.why == RuleA ==> o.ungs == {} && forall n :: n in o.dels <==> WaitsAsOther(i.pods, n, h))
  {
    var v := ViewOf(hash, i);
    assert forall n :: n in GatedStale(v) <==> WaitsAsOther(i.pods, n, h);
    if GoesForward(hash, i) {
      ForwardCases(hash, i);
    }
  }

  lemma InWaveIsPlannedIn(p: Plan, w: int, n: Name)
    requires PlanWf(p) && 0 <= w < Total(p)
    ensures n in Wave(p, w) <==> PlannedIn(p, w, n)
  {
    WaveInRange(|p.nodes|, p.waveSize, w);
    assert (w + 1) * p.waveSize == w * p.waveSize + p.waveSize;
    if n in Wave(p, w) {
      var k := IndexInSlice(p.nodes, p.waveSize, w, n);
    }
    if PlannedIn(p, w, n) {
      var k :| w * p.waveSize <= k < (w + 1) * p.waveSize && 0 <= k < |p.nodes| && p.nodes[k] == n;
      assert Wave(p, w)[k - w * p.waveSize] == n;
    }
  }

  /**
    * A pass in wave w deletes exactly the live, bound pods of another label on the wave's Ready nodes; if
    * there are none, it ungates exactly the live gated pods of the right label there.
    */
  lemma WaveWritesExactly(hash: Hasher, i: Input, h: string)
    requires InputWf(i) && Pass(hash, i).why.InWave? && h == ViewOf(hash, i).hash
    ensures var o, p, w := Pass(hash, i), PassPlan(hash, i), Pass(hash, i).why.wave;
            && (forall n :: n in o.dels <==> PlannedIn(p, w, n) && n in i.ready && RunsOther(i.pods, n, h))
            && (o.dels != {} ==> o.ungs == {})
            && (o.dels == {} ==> forall n :: n in o.ungs <==>
                  && PlannedIn(p, w, n) && n in i.ready && n in i.pods && !i.pods[n].terminating
                  && Labelled(i.pods[n], h) && WAVE_GATE in i.pods[n].gates)
  {
    assert GoesForward(hash, i);
    WaveActs(hash, i);
    var p, v, w := PassPlan(hash, i), ViewOf(hash, i), Pass(hash, i).why.wave;
    forall n ensures n in Wave(p, w) <==> PlannedIn(p, w, n) {
      InWaveIsPlannedIn(p, w, n);
    }
  }

  lemma WaveActs(hash: Hasher, i: Input)
    requires InputWf(i) && GoesForward(hash, i) && Pass(hash, i).why.InWave?
    ensures ActsOn(Pass(hash, i), PassPlan(hash, i), Pass(hash, i).why.wave, ViewOf(hash, i))
  {
    if HasPending(hash, i) {
      AdvanceCases(hash, i);
    } else {
      CompleteCases(hash, i);
    }
  }

  /** The wave acted on is the first one with a Ready node that does not run the right pod. */
  lemma WaveIsTheFirstOpen(hash: Hasher, i: Input, h: string)
    requires InputWf(i) && Pass(hash, i).why.InWave? && h == ViewOf(hash, i).hash
    ensures var p, w := PassPlan(hash, i), Pass(hash, i).why.wave;
            && (forall u, n :: 0 <= u < w && PlannedIn(p, u, n) && n in i.ready ==> RunsReady(i.pods, n, h))
            && exists n :: PlannedIn(p, w, n) && n in i.ready && !RunsReady(i.pods, n, h)
  {
    var p, v, w := PassPlan(hash, i), ViewOf(hash, i), Pass(hash, i).why.wave;
    WaveOrder(hash, i);
    forall u, n | 0 <= u < w && PlannedIn(p, u, n) && n in i.ready ensures RunsReady(i.pods, n, h) {
      InWaveIsPlannedIn(p, u, n);
      assert WaveFullyUpdated(v, p, u) && Updated(v, n);
    }
    var n :| n in Wave(p, w) && n in v.ready && !Updated(v, n);
    InWaveIsPlannedIn(p, w, n);
    assert !RunsReady(i.pods, n, h);
  }

  /** A completing pass deletes nothing and ungates exactly the gated pods of the right label on Ready nodes. */
  lemma AdoptionExactly(hash: Hasher, i: Input, h: string)
    requires InputWf(i) && Pass(hash, i).why.Adoption? && h == ViewOf(hash, i).hash
    ensures var o := Pass(hash, i);
            && o.dels == {}
            && forall n :: n in o.ungs <==>
                 n in i.ready && n in i.pods && WAVE_GATE in i.pods[n].gates && Labelled(i.pods[n], h)
  {
    assert GoesForward(hash, i);
    ForwardCases(hash, i);
    AdoptionScope(hash, i);
  }

  /**
    * A rollback pass ungates exactly the gated last-good pods on Ready nodes. It deletes only live, bound
    * pods of another label there, at most one wave's worth, and spares one only at that cap.
    */
  lemma RollbackWritesExactly(hash: Hasher, i: Input, h: string)
    requires InputWf(i) && GoesBack(hash, i) && Sorted(i.ready) && h == ViewOf(hash, i).hash
    ensures var o, size := Pass(hash, i), ResolveWaveSize(i.spec.waveSize, |i.ready|);
            && i.status.lastGood.Some? && h == i.status.lastGood.value.hash
            && (forall n :: n in o.ungs <==>
                  n in i.ready && n in i.pods && WAVE_GATE in i.pods[n].gates && Labelled(i.pods[n], h))
            && (forall n :: n in o.dels ==> n in i.ready && RunsOther(i.pods, n, h)) && |o.dels| <= size
            && (forall n :: n in i.ready && RunsOther(i.pods, n, h) && n !in o.dels ==> |o.dels| == size)
  {
    RollbackInOrder(hash, i);
  }

  // ---- When a rollout completes ----

  /**
    * Going forward, a pass completes exactly when every planned Ready node runs the right pod and the final
    * gate is absent, latched, or passes now.
    */
  lemma CompletesIff(hash: Hasher, i: Input, h: string)
    requires InputWf(i) && GoesForward(hash, i) && h == ViewOf(hash, i).hash
    ensures var p := PassPlan(hash, i);
            Pass(hash, i).why.Adoption? <==>
              && (forall n :: n in p.nodes && n in i.ready ==> RunsReady(i.pods, n, h))
              && (i.spec.gate.None? || p.gatedWaves >= Total(p) || AllPass(i.spec.gate.value, i.reply))
  {
    var p, v := PassPlan(hash, i), ViewOf(hash, i);
    NoneOf(v, p.nodes, Pending);
    assert forall n :: Updated(v, n) <==> RunsReady(i.pods, n, h);
    assert !HasPending(hash, i) <==> forall n :: n in p.nodes && n in i.ready ==> Updated(v, n);
    ForwardCases(hash, i);
    if !HasPending(hash, i) {
      FinalGate(hash, i);
      if i.spec.gate.Some? {
        FinalGateWave(hash, i);
        GateVerdict(hash, i);
      }
    }
  }

  lemma FinalGateWave(hash: Hasher, i: Input)
    requires InputWf(i) && GoesForward(hash, i) && !HasPending(hash, i) && i.spec.gate.Some?
    ensures GateWave(hash, i) == Some(Total(PassPlan(hash, i)) - 1)
  {
  }

  // ---- What a pass reports ----

  /** Whatever a pass does, it reports the generation it worked on. */
  lemma ReportsGeneration(hash: Hasher, i: Input)
    requires InputWf(i)
    ensures Pass(hash, i).status.observedGeneration == i.gen
  {
    if GoesForward(hash, i) {
      if HasPending(hash, i) {
        PassIsAdvance(hash, i);
      } else {
        PassIsComplete(hash, i);
      }
    }
  }

  /** A pass that finds no Ready node, or a gated pod of another label, reports Progressing in either mode. */
  lemma EarlyPassReports(hash: Hasher, i: Input)
    requires InputWf(i) && (i.ready == [] || Pass(hash, i).why == RuleA)
    ensures Pass(hash, i).status == BeginInput(hash, i).(phase := Progressing, observedGeneration := i.gen)
    ensures Pass(hash, i).status.plan == i.status.plan && Pass(hash, i).status.lastGood == i.status.lastGood
  {
    if GoesForward(hash, i) {
      ForwardCases(hash, i);
    }
  }

  /**
    * A rollback pass reports how many live nodes run last-good; it says RolledBack if all of them do and
    * else RollingBack; it leaves plan, last-good and rollback alone.
    */
  lemma RollbackReports(hash: Hasher, i: Input, h: string)
    requires InputWf(i) && GoesBack(hash, i) && Sorted(i.ready) && PodsWf(i.pods) && h == ViewOf(hash, i).hash
    ensures var st := Pass(hash, i).status;
            && st.updatedNodes == |set n | n in i.ready && RunsReady(i.pods, n, h)|
            && st.phase == (if forall n :: n in i.ready ==> RunsReady(i.pods, n, h) then RolledBack else RollingBack)
            && st.plan == i.status.plan && st.lastGood == i.status.lastGood && st.rollback == i.status.rollback
            && st.currentWave == i.status.currentWave && st.skippedNodes == i.status.skippedNodes
  {
    var v := ViewOf(hash, i);
    RollbackFields(hash, i);
    RunningCount(v, i.ready);
    RollbackPhase(hash, i, h);
  }

  /** And it reports the number of waves of the live fleet. */
  lemma RollbackWaveTotal(hash: Hasher, i: Input)
    requires InputWf(i) && GoesBack(hash, i)
    ensures var total, size := Pass(hash, i).status.totalWaves, ResolveWaveSize(i.spec.waveSize, |i.ready|);
            (total - 1) * size < |i.ready| <= total * size
  {
    RollbackFields(hash, i);
    CeilDivBounds(|i.ready|, ResolveWaveSize(i.spec.waveSize, |i.ready|));
  }

  lemma RunningCount(v: View, nodes: seq<Name>)
    requires Sorted(nodes)
    ensures |Of(v, nodes, UpToDate)| == |set n | n in nodes && RunsReady(v.pods, n, v.hash)|
  {
    OfCount(v, nodes, UpToDate);
    assert ClassOf(v, nodes, UpToDate) == set n | n in nodes && RunsReady(v.pods, n, v.hash);
  }

  lemma RollbackFields(hash: Hasher, i: Input)
    requires InputWf(i) && GoesBack(hash, i)
    ensures var st, v := Pass(hash, i).status, ViewOf(hash, i);
            && st.updatedNodes == |Of(v, i.ready, UpToDate)|
            && st.totalWaves == WaveCount(|i.ready|, ResolveWaveSize(i.spec.waveSize, |i.ready|))
            && (st.phase == RolledBack || st.phase == RollingBack)
            && st.plan == i.status.plan && st.lastGood == i.status.lastGood && st.rollback == i.status.rollback
            && st.currentWave == i.status.currentWave && st.skippedNodes == i.status.skippedNodes
  {
  }

  lemma RollbackPhase(hash: Hasher, i: Input, h: string)
    requires InputWf(i) && GoesBack(hash, i) && PodsWf(i.pods) && h == ViewOf(hash, i).hash
    ensures Pass(hash, i).status.phase
            == (if forall n :: n in i.ready ==> RunsReady(i.pods, n, h) then RolledBack else RollingBack)
  {
    RolledBackIff(hash, i);
    RollbackFields(hash, i);
    assert forall n :: Updated(ViewOf(hash, i), n) <==> RunsReady(i.pods, n, h);
  }

  /**
    * Who writes which phase. Done is written by completing passes only and RolledBack by rollback passes
    * only; otherwise they stay at most where a final gate holds, which leaves the phase as it was.
    */
  lemma PhaseIs(hash: Hasher, i: Input)
    requires InputWf(i)
    ensures var o := Pass(hash, i);
            && (o.why.Adoption? ==> o.status.phase == Done)
            && (o.status.phase == Done ==> o.why.Adoption? || (FinalHold(hash, i) && i.status.phase == Done))
            && (o.status.phase == RolledBack ==>
                  GoesBack(hash, i) || (FinalHold(hash, i) && i.status.phase == RolledBack))
            && (o.why.InWave? ==> o.status.phase == Progressing)
            && (GoesForward(hash, i) ==>
                  (RollbackDue(hash, i) <==> o.status.rollback.Some?)
                  && (RollbackDue(hash, i) ==> o.status.phase == RollingBack))
  {
    RollbackStartsIff(hash, i);
    if GoesForward(hash, i) {
      ForwardCases(hash, i);
      if GateWave(hash, i).Some? {
        GateVerdict(hash, i);
      }
      if HasPending(hash, i) {
        AdvanceStatus(hash, i);
      } else {
        CompleteStatus(hash, i);
      }
    }
  }

  /** The final gate is asked, does not promote, and neither rolls back nor pauses. */
  ghost predicate FinalHold(hash: Hasher, i: Input)
    requires InputWf(i)
  {
    GoesForward(hash, i) && !HasPending(hash, i) && Holds(hash, i) && !GateTimedOut(hash, i)
  }

  // ---- What a pass observes ----

  /** The nodes a pass works with are the Ready ones that match the selector, each once, by name. */
  lemma ObservesReadyTargets(w: World, reply: Reply)
    requires w.job.Synced?
    ensures var i := Observation(w, reply);
            && Sorted(i.ready) && i.pods == w.pods && i.status == w.status && i.now == w.clock
            && forall n :: n in i.ready <==> n in w.nodes && w.nodes[n].ready && w.nodes[n].target
  {
    var i := Observation(w, reply);
    assert forall n :: n in i.ready <==> n in ToSet(i.ready);
  }
}
