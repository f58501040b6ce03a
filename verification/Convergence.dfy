/**
  * Why a rollout finishes. A round is one whole pass followed by a cooperative environment: terminating
  * pods go, missing pods come back gated on the DaemonSet's template, released pods get scheduled and
  * Ready. The rank of a node is 2 on another template, 1 gated on the desired one, 0 updated.
  */
module Convergence {
  import opened Prelude
  import opened Api
  import opened Templates
  import opened Waves
  import opened Gates
  import opened Engine
  import opened PassProperties
  import opened GateProperties

  // ---- The cooperative environment ----

  /** The node has a live pod that is either waiting at the wave gate or running and Ready. */
  predicate SettledAt(pods: map<Name, Pod>, n: Name) {
    && n in pods && !pods[n].terminating
    && (if PodGated(pods[n]) then !Scheduled(pods[n]) else Scheduled(pods[n]) && pods[n].ready)
  }

  ghost predicate Settled(pods: map<Name, Pod>, nodes: seq<Name>) {
    forall n :: n in nodes ==> SettledAt(pods, n)
  }

  /** What becomes of one node's pod between two passes; `h` is the DaemonSet's hash. */
  predicate CooperatesAt(h: string, before: map<Name, Pod>, after: map<Name, Pod>, n: Name) {
    && SettledAt(after, n)
    && (if n !in before || before[n].terminating
        then PodGatedOn(after[n], h)
        else PodHash(after[n]) == PodHash(before[n]) && PodGated(after[n]) == PodGated(before[n]))
  }

  /** Elsewhere in the fleet anything may happen, but no pod of another template is born gated. */
  ghost predicate Cooperates(h: string, before: map<Name, Pod>, after: map<Name, Pod>, nodes: seq<Name>) {
    && (forall n :: n in nodes ==> CooperatesAt(h, before, after, n))
    && GatedStale(View({}, after, h)) <= GatedStale(View({}, before, h))
  }

  // ---- The measure ----

  function Rank(v: View, n: Name): nat {
    if Updated(v, n) then 0
    else if n in v.pods && !v.pods[n].terminating && PodHash(v.pods[n]) == v.hash then 1
    else 2
  }

  function RankSum(v: View, nodes: seq<Name>): nat {
    if nodes == [] then 0 else Rank(v, nodes[0]) + RankSum(v, nodes[1..])
  }

  lemma {:induction false} RankBound(v: View, nodes: seq<Name>)
    ensures RankSum(v, nodes) <= 2 * |nodes|
  {
    if nodes != [] {
      RankBound(v, nodes[1..]);
    }
  }

  lemma {:induction false} RankFalls(v: View, v': View, nodes: seq<Name>)
    requires forall n :: n in nodes ==> Rank(v', n) <= Rank(v, n)
    ensures RankSum(v', nodes) <= RankSum(v, nodes)
    ensures (exists n :: n in nodes && Rank(v', n) < Rank(v, n)) ==> RankSum(v', nodes) < RankSum(v, nodes)
  {
    if nodes != [] {
      assert nodes == [nodes[0]] + nodes[1..];
      RankFalls(v, v', nodes[1..]);
    }
  }

  // ---- One round at one node ----

  /** Untouched, deleted or released: the rank never rises, and falls for a deleted or a released pod. */
  lemma RoundAtNode(v: View, d: set<Name>, u: set<Name>, after: map<Name, Pod>, ready: set<Name>, n: Name)
    requires SettledAt(v.pods, n) && CooperatesAt(v.hash, Apply(v.pods, d, u), after, n)
    requires n in d ==> Stale(v, v.pods[n])
    requires n in u ==> PodGatedOn(v.pods[n], v.hash)
    ensures var v' := View(ready, after, v.hash);
            Rank(v', n) <= Rank(v, n) && (n in d + u ==> Rank(v', n) < Rank(v, n))
  {
  }

  lemma RoundMeasure(v: View, d: set<Name>, u: set<Name>, after: map<Name, Pod>, ready: set<Name>, nodes: seq<Name>)
    requires Settled(v.pods, nodes) && Cooperates(v.hash, Apply(v.pods, d, u), after, nodes)
    requires forall n :: n in d && n in v.pods ==> Stale(v, v.pods[n])
    requires forall n :: n in u && n in v.pods ==> PodGatedOn(v.pods[n], v.hash)
    ensures var v' := View(ready, after, v.hash);
            && RankSum(v', nodes) <= RankSum(v, nodes)
            && ((exists n :: n in nodes && n in d + u) ==> RankSum(v', nodes) < RankSum(v, nodes))
  {
    var v' := View(ready, after, v.hash);
    forall n | n in nodes
      ensures Rank(v', n) <= Rank(v, n) && (n in d + u ==> Rank(v', n) < Rank(v, n))
    {
      RoundAtNode(v, d, u, after, ready, n);
    }
    RankFalls(v, v', nodes);
  }

  /** Gated pods of another template die out in one pass and are not born again. */
  lemma GatedStaleDiesOut(v: View, d: set<Name>, u: set<Name>, after: map<Name, Pod>, ready: set<Name>,
      nodes: seq<Name>)
    requires Cooperates(v.hash, Apply(v.pods, d, u), after, nodes)
    requires GatedStale(v) <= d
    ensures GatedStale(View(ready, after, v.hash)) == {}
  {
    var a := Apply(v.pods, d, u);
    forall n ensures n !in GatedStale(View({}, a, v.hash)) {
      if n in a && !a[n].terminating {
        assert n !in d && n !in GatedStale(v);
      }
    }
    forall n ensures n !in GatedStale(View(ready, after, v.hash)) {
      assert n !in GatedStale(View({}, after, v.hash));
    }
  }

  // ---- Forward ----

  /** The plan's nodes are Ready and settled, and a consulted gate would pass. */
  ghost predicate FairInput(hash: Hasher, i: Input) {
    && InputWf(i) && i.ready != []
    && (forall n :: n in PassPlan(hash, i).nodes ==> n in i.ready)
    && Settled(i.pods, PassPlan(hash, i).nodes)
    && (i.spec.gate.Some? ==> AllPass(i.spec.gate.value, i.reply))
  }

  ghost predicate GoodRound(hash: Hasher, i: Input) {
    FairInput(hash, i) && BeginInput(hash, i).rollback.None?
  }

  /** Round j starts from the status round i persisted and from the pods the environment made of its writes. */
  ghost predicate NextRound(hash: Hasher, i: Input, j: Input)
    requires FairInput(hash, i)
  {
    var o := Pass(hash, i);
    && j.spec == i.spec && j.gen == i.gen && j.status == o.status
    && Cooperates(ViewOf(hash, i).hash, Apply(i.pods, o.dels, o.ungs), j.pods, PassPlan(hash, i).nodes)
  }

  lemma GoodRoundsGoOn(hash: Hasher, i: Input, j: Input)
    requires GoodRound(hash, i) && FairInput(hash, j) && NextRound(hash, i, j)
    ensures GoodRound(hash, j)
  {
    if i.spec.gate.Some? {
      ReplyTrichotomy(i.spec.gate.value, i.reply);
    }
    RollbackStartsIff(hash, i);
  }

  lemma GoodGatePromotes(hash: Hasher, i: Input)
    requires GoodRound(hash, i)
    ensures !Holds(hash, i)
  {
    if GateWave(hash, i).Some? {
      GateVerdict(hash, i);
    }
  }

  /** A settled open wave offers something to delete or to release. */
  lemma OpenWaveHasWork(v: View, p: Plan, w: int)
    requires PlanWf(p) && 0 <= w < Total(p) && !WaveFullyUpdated(v, p, w)
    requires GatedStale(v) == {} && Settled(v.pods, p.nodes)
    ensures WaveStale(v, Wave(p, w)) + WaveGated(v, Wave(p, w)) != {}
  {
    var n :| n in Wave(p, w) && n in v.ready && !Updated(v, n);
    WaveInRange(|p.nodes|, p.waveSize, w);
    var k := IndexInSlice(p.nodes, p.waveSize, w, n);
    assert SettledAt(v.pods, n);
    assert n !in GatedStale(v);
    assert n in WaveStale(v, Wave(p, w)) || n in WaveGated(v, Wave(p, w));
  }

  lemma WaveNodesArePlanned(p: Plan, w: int, n: Name)
    requires PlanWf(p) && 0 <= w < Total(p) && n in Wave(p, w)
    ensures n in p.nodes
  {
    WaveInRange(|p.nodes|, p.waveSize, w);
    var k := IndexInSlice(p.nodes, p.waveSize, w, n);
  }

  /** A forward pass with pending nodes touches at least one planned node. */
  lemma ForwardPassWorks(hash: Hasher, i: Input)
    requires GoodRound(hash, i) && GoesForward(hash, i) && HasPending(hash, i)
    ensures exists n :: n in PassPlan(hash, i).nodes && n in Pass(hash, i).dels + Pass(hash, i).ungs
  {
    var v, p, o := ViewOf(hash, i), PassPlan(hash, i), Pass(hash, i);
    GoodGatePromotes(hash, i);
    AdvanceCases(hash, i);
    CurrentWaveExists(v, p);
    var w := OpenWave(hash, i);
    OpenWaveHasWork(v, p, w);
    assert o.dels + o.ungs != {};
    var n :| n in o.dels + o.ungs;
    WaveNodesArePlanned(p, w, n);
  }

  /** From one forward round to the next: Done is written, or the plan stays and the rank sum falls. */
  lemma ForwardRound(hash: Hasher, i: Input, j: Input)
    requires GoodRound(hash, i) && FairInput(hash, j) && NextRound(hash, i, j) && GoesForward(hash, i)
    ensures GoodRound(hash, j) && GoesForward(hash, j)
    ensures PassPlan(hash, j).nodes == PassPlan(hash, i).nodes
    ensures Pass(hash, i).why.Adoption?
            || RankSum(ViewOf(hash, j), PassPlan(hash, j).nodes) < RankSum(ViewOf(hash, i), PassPlan(hash, i).nodes)
  {
    var v, p, o := ViewOf(hash, i), PassPlan(hash, i), Pass(hash, i);
    GoodRoundsGoOn(hash, i, j);
    GoodGatePromotes(hash, i);
    ForwardCases(hash, i);
    PassTouchesTheRightPods(hash, i);
    assert ViewOf(hash, j) == View(ToSet(j.ready), j.pods, v.hash);
    GatedStaleDiesOut(v, o.dels, o.ungs, j.pods, ToSet(j.ready), p.nodes);
    assert Key(PassPlan(hash, j)) == Key(p);
    if HasPending(hash, i) {
      ForwardPassWorks(hash, i);
      RoundMeasure(v, o.dels, o.ungs, j.pods, ToSet(j.ready), p.nodes);
    }
  }

  /** The first round may only clear gated pods of another template; from the second on, all go forward. */
  lemma ForwardFromSecondRound(hash: Hasher, i: Input, j: Input)
    requires GoodRound(hash, i) && FairInput(hash, j) && NextRound(hash, i, j)
    ensures GoodRound(hash, j) && GoesForward(hash, j)
  {
    GoodRoundsGoOn(hash, i, j);
    if GoesForward(hash, i) {
      ForwardRound(hash, i, j);
    } else {
      var v, o := ViewOf(hash, i), Pass(hash, i);
      assert ViewOf(hash, j) == View(ToSet(j.ready), j.pods, v.hash);
      GatedStaleDiesOut(v, o.dels, o.ungs, j.pods, ToSet(j.ready), PassPlan(hash, i).nodes);
    }
  }

  /** Only the first round's mode is given; that no later one rolls back is proved. */
  ghost predicate Rounds(hash: Hasher, inputs: seq<Input>) {
    && (forall k :: 0 <= k < |inputs| ==> FairInput(hash, inputs[k]))
    && (forall k, l :: 0 <= k && l == k + 1 && l < |inputs| ==> NextRound(hash, inputs[k], inputs[l]))
    && (inputs != [] ==> BeginInput(hash, inputs[0]).rollback.None?)
  }

  /** Until Done is written, the rank sum has fallen at least once per round. */
  lemma {:induction false} RanksRunDown(hash: Hasher, inputs: seq<Input>, k: nat)
    requires Rounds(hash, inputs) && 1 <= k < |inputs|
    requires forall m :: 1 <= m < k ==> !Pass(hash, inputs[m]).why.Adoption?
    ensures GoodRound(hash, inputs[k]) && GoesForward(hash, inputs[k])
    ensures PassPlan(hash, inputs[k]).nodes == PassPlan(hash, inputs[1]).nodes
    ensures RankSum(ViewOf(hash, inputs[k]), PassPlan(hash, inputs[k]).nodes) + (k - 1)
            <= RankSum(ViewOf(hash, inputs[1]), PassPlan(hash, inputs[1]).nodes)
  {
    assert NextRound(hash, inputs[k - 1], inputs[k]);
    if k == 1 {
      ForwardFromSecondRound(hash, inputs[0], inputs[1]);
    } else {
      RanksRunDown(hash, inputs, k - 1);
      ForwardRound(hash, inputs[k - 1], inputs[k]);
    }
  }

  /** Done is reached within two rounds per planned node, after at most one clearing round. */
  lemma ForwardConverges(hash: Hasher, inputs: seq<Input>)
    requires Rounds(hash, inputs) && |inputs| >= 2
    requires |inputs| >= 2 * |PassPlan(hash, inputs[1]).nodes| + 2
    ensures exists k :: 1 <= k < |inputs|
                        && Pass(hash, inputs[k]).why.Adoption? && Pass(hash, inputs[k]).status.phase == Done
                        && forall n :: n in PassPlan(hash, inputs[k]).nodes ==> Updated(ViewOf(hash, inputs[k]), n)
  {
    var last := |inputs| - 1;
    if k :| 1 <= k < last && Pass(hash, inputs[k]).why.Adoption? {
      AdoptionIsDone(hash, inputs[k]);
    } else {
      RanksRunDown(hash, inputs, last);
      RankBound(ViewOf(hash, inputs[1]), PassPlan(hash, inputs[1]).nodes);
      ZeroRankCompletes(hash, inputs[last]);
      AdoptionIsDone(hash, inputs[last]);
    }
  }

  lemma {:induction false} ZeroRank(v: View, nodes: seq<Name>)
    requires RankSum(v, nodes) == 0
    ensures forall n :: n in nodes ==> Updated(v, n)
  {
    if nodes != [] {
      ZeroRank(v, nodes[1..]);
      assert nodes == [nodes[0]] + nodes[1..];
    }
  }

  lemma ZeroRankCompletes(hash: Hasher, i: Input)
    requires GoodRound(hash, i) && GoesForward(hash, i)
    requires RankSum(ViewOf(hash, i), PassPlan(hash, i).nodes) == 0
    ensures Pass(hash, i).why.Adoption?
  {
    ZeroRank(ViewOf(hash, i), PassPlan(hash, i).nodes);
    NoneOf(ViewOf(hash, i), PassPlan(hash, i).nodes, Pending);
    GoodGatePromotes(hash, i);
    CompleteCases(hash, i);
  }

  lemma AdoptionIsDone(hash: Hasher, i: Input)
    requires FairInput(hash, i) && Pass(hash, i).why.Adoption?
    ensures Pass(hash, i).status.phase == Done
    ensures forall n :: n in PassPlan(hash, i).nodes ==> Updated(ViewOf(hash, i), n)
  {
    assert GoesForward(hash, i);
    ForwardCases(hash, i);
    CompleteStatus(hash, i);
    NoneOf(ViewOf(hash, i), PassPlan(hash, i).nodes, Pending);
  }

  /** On the same nodes and spec, the next pass works on the same planned nodes. */
  lemma NextPlanNodes(hash: Hasher, i: Input, j: Input)
    requires InputWf(i) && i.ready != [] && j.status == Pass(hash, i).status
        && j == i.(status := j.status, pods := j.pods)
    ensures InputWf(j) && PassPlan(hash, j).nodes == PassPlan(hash, i).nodes
  {
    if GoesForward(hash, i) {
      ForwardCases(hash, i);
    }
  }

  // ---- Rollback ----

  ghost predicate FairRollbackInput(i: Input) {
    InputWf(i) && i.ready != [] && Settled(i.pods, i.ready)
  }

  ghost predicate GoodRollbackRound(hash: Hasher, i: Input) {
    FairRollbackInput(i) && BeginInput(hash, i).rollback.Some?
  }

  /** The live node list stays the same; the spec may change as long as the template's hash does not. */
  ghost predicate NextRollbackRound(hash: Hasher, i: Input, j: Input)
    requires FairRollbackInput(i)
  {
    var o := Pass(hash, i);
    && CurrentHash(hash, j.spec) == CurrentHash(hash, i.spec) && j.status == o.status && j.ready == i.ready
    && Cooperates(ViewOf(hash, i).hash, Apply(i.pods, o.dels, o.ungs), j.pods, i.ready)
  }

  lemma RollbackStaysOn(hash: Hasher, i: Input, j: Input)
    requires GoodRollbackRound(hash, i) && FairRollbackInput(j) && NextRollbackRound(hash, i, j)
    ensures ViewOf(hash, j) == View(ToSet(i.ready), j.pods, ViewOf(hash, i).hash)
    ensures j.status.lastGood == i.status.lastGood
    ensures GoodRollbackRound(hash, j) && GoesBack(hash, j)
  {
    var v, o := ViewOf(hash, i), Pass(hash, i);
    assert ViewOf(hash, j) == View(ToSet(i.ready), j.pods, v.hash);
    GatedStaleDiesOut(v, o.dels, o.ungs, j.pods, ToSet(i.ready), i.ready);
  }

  /** A settled node that is not updated is replaceable or releasable. */
  lemma RollbackPassWorks(hash: Hasher, i: Input, n: Name)
    requires GoodRollbackRound(hash, i) && GoesBack(hash, i) && n in i.ready && !Updated(ViewOf(hash, i), n)
    ensures exists m :: m in i.ready && m in Pass(hash, i).dels + Pass(hash, i).ungs
  {
    var v := ViewOf(hash, i);
    var size := ResolveWaveSize(i.spec.waveSize, |i.ready|);
    RollbackScope(hash, i);
    TakeStaleProps(v, i.ready, size);
    assert SettledAt(v.pods, n) && n !in GatedStale(v);
    if n in Releasable(v, i.ready) {
      assert n in Pass(hash, i).ungs;
    } else {
      assert Replaceable(v, n);
      var m := TakeStale(v, i.ready, size)[0];
      assert m in Pass(hash, i).dels && m in i.ready;
    }
  }

  lemma RollbackRound(hash: Hasher, i: Input, j: Input)
    requires GoodRollbackRound(hash, i) && FairRollbackInput(j) && NextRollbackRound(hash, i, j) && GoesBack(hash, i)
    ensures RankSum(ViewOf(hash, i), i.ready) > 0 ==>
        RankSum(ViewOf(hash, j), i.ready) < RankSum(ViewOf(hash, i), i.ready)
    ensures RankSum(ViewOf(hash, j), i.ready) <= RankSum(ViewOf(hash, i), i.ready)
  {
    var v, o := ViewOf(hash, i), Pass(hash, i);
    RollbackStaysOn(hash, i, j);
    PassTouchesTheRightPods(hash, i);
    RoundMeasure(v, o.dels, o.ungs, j.pods, ToSet(i.ready), i.ready);
    if n :| n in i.ready && !Updated(v, n) {
      RollbackPassWorks(hash, i, n);
    } else {
      AllUpdatedHasRankZero(v, i.ready);
    }
  }

  lemma {:induction false} AllUpdatedHasRankZero(v: View, nodes: seq<Name>)
    requires forall n :: n in nodes ==> Updated(v, n)
    ensures RankSum(v, nodes) == 0
  {
    if nodes != [] {
      AllUpdatedHasRankZero(v, nodes[1..]);
      assert nodes == [nodes[0]] + nodes[1..];
    }
  }

  lemma {:induction false} NothingToTake(v: View, nodes: seq<Name>, budget: int)
    requires forall n :: n in nodes ==> !Replaceable(v, n)
    ensures TakeStale(v, nodes, budget) == []
  {
    if nodes != [] {
      assert nodes == [nodes[0]] + nodes[1..];
      NothingToTake(v, nodes[1..], budget);
    }
  }

  lemma NothingToRelease(v: View, nodes: seq<Name>)
    requires PodsWf(v.pods) && forall n :: n in nodes ==> Updated(v, n)
    ensures Releasable(v, nodes) == {}
  {
    forall n | n in nodes ensures !PodGated(v.pods[n]) {
      assert v.pods[n].gates == [];
    }
  }

  /** RolledBack is written exactly when every live target node runs the last-good template. */
  lemma RolledBackIff(hash: Hasher, i: Input)
    requires InputWf(i) && GoesBack(hash, i) && PodsWf(i.pods)
    ensures Pass(hash, i).status.phase == RolledBack <==> forall n :: n in i.ready ==> Updated(ViewOf(hash, i), n)
    ensures ViewOf(hash, i).hash == i.status.lastGood.value.hash
  {
    var v := ViewOf(hash, i);
    Conservation(v, i.ready);
    NoneOf(v, i.ready, Pending);
    NoneOf(v, i.ready, Skipped);
    if forall n :: n in i.ready ==> Updated(v, n) {
      NothingToRelease(v, i.ready);
      NothingToTake(v, i.ready, ResolveWaveSize(i.spec.waveSize, |i.ready|));
    }
  }

  /** Only the first round's mode is given; that the rollback goes on is proved. */
  ghost predicate RollbackRounds(hash: Hasher, inputs: seq<Input>) {
    && (forall k :: 0 <= k < |inputs| ==> FairRollbackInput(inputs[k]))
    && (forall k, l :: 0 <= k && l == k + 1 && l < |inputs| ==> NextRollbackRound(hash, inputs[k], inputs[l]))
    && (inputs != [] ==> BeginInput(hash, inputs[0]).rollback.Some?)
  }

  lemma {:induction false} RollbackGoesOn(hash: Hasher, inputs: seq<Input>, k: nat)
    requires RollbackRounds(hash, inputs) && k < |inputs|
    ensures GoodRollbackRound(hash, inputs[k]) && inputs[k].ready == inputs[0].ready
    ensures inputs[k].status.lastGood == inputs[0].status.lastGood
    ensures k >= 1 ==> GoesBack(hash, inputs[k])
  {
    if k >= 1 {
      RollbackGoesOn(hash, inputs, k - 1);
      assert NextRollbackRound(hash, inputs[k - 1], inputs[k]);
      RollbackStaysOn(hash, inputs[k - 1], inputs[k]);
    }
  }

  lemma {:induction false} RollbackRanksRunDown(hash: Hasher, inputs: seq<Input>, k: nat)
    requires RollbackRounds(hash, inputs) && 1 <= k < |inputs|
    ensures RankSum(ViewOf(hash, inputs[k]), inputs[0].ready)
            <= if 2 * |inputs[0].ready| >= k - 1 then 2 * |inputs[0].ready| - (k - 1) else 0
  {
    RankBound(ViewOf(hash, inputs[k]), inputs[0].ready);
    if k > 1 {
      RollbackRanksRunDown(hash, inputs, k - 1);
      RollbackGoesOn(hash, inputs, k - 1);
      assert NextRollbackRound(hash, inputs[k - 1], inputs[k]);
      RollbackRound(hash, inputs[k - 1], inputs[k]);
    }
  }

  /**
    * After two rounds per live target node and one clearing round, every pass writes RolledBack, with
    * every live Ready target node updated on the last-good template.
    */
  lemma RollbackConverges(hash: Hasher, inputs: seq<Input>, k: nat)
    requires RollbackRounds(hash, inputs) && k < |inputs| && k >= 2 * |inputs[0].ready| + 1 && PodsWf(inputs[k].pods)
    ensures Pass(hash, inputs[k]).status.phase == RolledBack
    ensures inputs[0].status.lastGood.Some?
    ensures forall n :: n in inputs[0].ready ==>
              Updated(View(ToSet(inputs[0].ready), inputs[k].pods, inputs[0].status.lastGood.value.hash), n)
  {
    RollbackGoesOn(hash, inputs, 0);
    RollbackGoesOn(hash, inputs, k);
    RollbackRanksRunDown(hash, inputs, k);
    ZeroRank(ViewOf(hash, inputs[k]), inputs[k].ready);
    RolledBackIff(hash, inputs[k]);
  }
}
