/**
  * Crash tolerance. A forward pass may be cut after any of its pod writes, in any order, and lose its
  * status; on the same cluster, clock and gate answers, later passes end where they would have ended.
  */
module Recovery {
  import opened Prelude
  import opened Api
  import opened Gates
  import opened Engine
  import opened PassProperties
  import opened GateProperties

  // ---- What the frozen cluster ends in ----

  ghost predicate Forward(hash: Hasher, i: Input) {
    InputWf(i) && i.ready != [] && PodsWf(i.pods) && BeginInput(hash, i).rollback.None?
  }

  ghost function AskedGate(hash: Hasher, i: Input): GateResult
    requires Forward(hash, i) && AskedWave(hash, i).Some?
  {
    EvalGate(PassPlan(hash, i), i.spec.gate.value, AskedWave(hash, i).value, i.now, i.reply,
             i.spec.policy, i.status.lastGood)
  }

  /** The gate's answer, if it is asked, calls for a rollback. */
  ghost predicate RollsBack(hash: Hasher, i: Input)
    requires Forward(hash, i)
  {
    AskedWave(hash, i).Some? && AskedGate(hash, i).verdict == Decided(GateRollback)
  }

  lemma NoRollbackNow(hash: Hasher, i: Input)
    requires Forward(hash, i) && !RollsBack(hash, i)
    ensures Pass(hash, i).status.rollback.None?
  {
    RollbackStartsIff(hash, i);
    if GateWave(hash, i).Some? {
      GateVerdict(hash, i);
    }
  }

  /** Where the pass may act once its gate promotes: nowhere, on unplanned nodes, or in one wave. */
  datatype Scope = Nowhere | Anywhere | Within(nodes: set<Name>)

  ghost function ScopeOf(hash: Hasher, i: Input): Scope
    requires Forward(hash, i)
  {
    if AskedWave(hash, i).Some? && !Promotes(AskedGate(hash, i).verdict) then Nowhere
    else if !HasPending(hash, i) then Anywhere
    else
      CurrentWaveInRange(hash, i);
      Within(ToSet(Wave(PassPlan(hash, i), OpenWave(hash, i))))
  }

  /** The plan that ends up persisted, with its mark and anchor. */
  ghost function EndPlan(hash: Hasher, i: Input): Plan
    requires Forward(hash, i)
  {
    if AskedWave(hash, i).Some? then AskedGate(hash, i).plan else PassPlan(hash, i)
  }

  function EndPod(v: View, s: Scope, n: Name): Pod
    requires n in v.pods
  {
    var p := v.pods[n];
    if !p.terminating && Stale(v, p) && PodGated(p) then Deleted(p)
    else match s
      case Nowhere => p
      case Anywhere => if n in v.ready && PodGatedOn(p, v.hash) then Ungated(p) else p
      case Within(nodes) =>
        if n !in nodes || n !in v.ready || p.terminating then p
        else if Stale(v, p) && Scheduled(p) then Deleted(p)
        else if PodGatedOn(p, v.hash) then Ungated(p)
        else p
  }

  ghost function EndPods(hash: Hasher, i: Input): map<Name, Pod>
    requires Forward(hash, i)
  {
    var v := ViewOf(hash, i);
    map n | n in i.pods :: EndPod(v, ScopeOf(hash, i), n)
  }

  // ---- Decisions depend on pods only through which nodes are updated ----

  ghost predicate SameUpdated(v: View, v': View) {
    v.ready == v'.ready && forall n :: Updated(v, n) <==> Updated(v', n)
  }

  lemma {:induction false} SameCounts(v: View, v': View, nodes: seq<Name>, c: Class)
    requires SameUpdated(v, v')
    ensures Of(v, nodes, c) == Of(v', nodes, c)
  {
    if nodes != [] {
      SameCounts(v, v', nodes[1..], c);
      assert Classify(v, nodes[0]) == Classify(v', nodes[0]);
    }
  }

  lemma {:induction false} SameOpenWave(v: View, v': View, p: Plan, w: int)
    requires SameUpdated(v, v') && PlanWf(p) && 0 <= w <= Total(p)
    ensures FirstOpenWave(v, p, w) == FirstOpenWave(v', p, w)
    decreases Total(p) - w
  {
    if w < Total(p) {
      SameOpenWave(v, v', p, w + 1);
      assert WaveFullyUpdated(v, p, w) <==> WaveFullyUpdated(v', p, w);
    }
  }

  /** Only the pods differ, and not in which nodes are updated. */
  lemma SameDecisions(hash: Hasher, i: Input, j: Input)
    requires Forward(hash, i) && Forward(hash, j) && j == i.(pods := j.pods)
    requires SameUpdated(ViewOf(hash, i), ViewOf(hash, j))
    ensures PassPlan(hash, i) == PassPlan(hash, j) && HasPending(hash, i) == HasPending(hash, j)
    ensures AskedWave(hash, i) == AskedWave(hash, j) && RollsBack(hash, i) == RollsBack(hash, j)
    ensures ScopeOf(hash, i) == ScopeOf(hash, j) && EndPlan(hash, i) == EndPlan(hash, j)
  {
    var v, v', p := ViewOf(hash, i), ViewOf(hash, j), PassPlan(hash, i);
    SameCounts(v, v', p.nodes, Pending);
    CurrentWaveInRange(hash, i);
    SameOpenWave(v, v', p, 0);
  }

  // ---- Writing any part of a pass changes no decision and no end ----

  /** The pods after some of the pass's writes went through. */
  ghost function Cut(hash: Hasher, i: Input, d: set<Name>, u: set<Name>): Input
    requires InputWf(i)
  {
    i.(pods := Apply(i.pods, d * Pass(hash, i).dels, u * Pass(hash, i).ungs))
  }

  /** Writes hit only pods of another template or still gated ones: none of them counts as updated. */
  lemma WritesKeepUpdated(v: View, d: set<Name>, u: set<Name>)
    requires PodsWf(v.pods)
    requires forall n :: n in d && n in v.pods ==> Stale(v, v.pods[n])
    requires forall n :: n in u && n in v.pods ==> PodGated(v.pods[n])
    ensures SameUpdated(v, v.(pods := Apply(v.pods, d, u)))
  {
    var v' := v.(pods := Apply(v.pods, d, u));
    forall n ensures Updated(v, n) <==> Updated(v', n) {
      if n in u && n in v.pods {
        assert v.pods[n].gates != [];
      }
    }
  }

  lemma CutKeepsDecisions(hash: Hasher, i: Input, d: set<Name>, u: set<Name>)
    requires Forward(hash, i)
    ensures var j := Cut(hash, i, d, u);
            && Forward(hash, j) && ViewOf(hash, j) == ViewOf(hash, i).(pods := j.pods)
            && SameUpdated(ViewOf(hash, i), ViewOf(hash, j))
            && ScopeOf(hash, i) == ScopeOf(hash, j) && EndPlan(hash, i) == EndPlan(hash, j)
            && PassPlan(hash, i) == PassPlan(hash, j) && RollsBack(hash, i) == RollsBack(hash, j)
  {
    var o := Pass(hash, i);
    var j := Cut(hash, i, d, u);
    ApplyKeepsPodsWf(i.pods, d * o.dels, u * o.ungs);
    PassTouchesTheRightPods(hash, i);
    WritesKeepUpdated(ViewOf(hash, i), d * o.dels, u * o.ungs);
    SameDecisions(hash, i, j);
  }

  function ScopeStale(v: View, s: Scope): set<Name> {
    match s
    case Within(nodes) => set n | n in nodes && n in v.ready && Replaceable(v, n)
    case _ => {}
  }

  function ScopeGated(v: View, s: Scope): set<Name> {
    match s
    case Nowhere => {}
    case Anywhere => Adoptable(v)
    case Within(nodes) =>
      set n | n in nodes && n in v.ready && n in v.pods && !v.pods[n].terminating
              && !Replaceable(v, n) && PodGatedOn(v.pods[n], v.hash)
  }

  lemma WaveScope(hash: Hasher, i: Input)
    requires Forward(hash, i) && GoesForward(hash, i) && HasPending(hash, i)
    ensures var o, v, s := Pass(hash, i), ViewOf(hash, i), ScopeOf(hash, i);
            && o.dels == ScopeStale(v, s) && o.ungs == (if o.dels == {} then ScopeGated(v, s) else {}) && o.why != RuleA
  {
    CurrentWaveInRange(hash, i);
    AdvanceCases(hash, i);
    var v, w := ViewOf(hash, i), Wave(PassPlan(hash, i), OpenWave(hash, i));
    assert WaveStale(v, w) == ScopeStale(v, Within(ToSet(w)));
    assert WaveGated(v, w) == ScopeGated(v, Within(ToSet(w)));
  }

  /** A forward pass deletes what is stale in its scope or, with nothing to delete, ungates what is gated there. */
  lemma PassByScope(hash: Hasher, i: Input)
    requires Forward(hash, i) && GoesForward(hash, i)
    ensures var o, v, s := Pass(hash, i), ViewOf(hash, i), ScopeOf(hash, i);
            && o.dels == ScopeStale(v, s) && o.ungs == (if o.dels == {} then ScopeGated(v, s) else {}) && o.why != RuleA
  {
    if HasPending(hash, i) {
      WaveScope(hash, i);
    } else {
      CompleteCases(hash, i);
      if !Holds(hash, i) {
        AdoptionScope(hash, i);
      }
    }
  }

  /** A pass only ever moves a pod to where it ends up. */
  lemma WritesAreEnds(hash: Hasher, i: Input, n: Name)
    requires Forward(hash, i) && n in i.pods
    ensures var v := ViewOf(hash, i);
            && var end := EndPod(v, ScopeOf(hash, i), n);
            && (n in Pass(hash, i).dels ==> end == Deleted(i.pods[n]) && Stale(v, i.pods[n]))
            && (n in Pass(hash, i).ungs ==> end == Ungated(i.pods[n]) && !Stale(v, i.pods[n]))
  {
    if GoesForward(hash, i) {
      PassByScope(hash, i);
    }
  }

  /** The end of a pod that already got there is itself. */
  lemma EndIsFixed(v: View, v': View, s: Scope, n: Name)
    requires PodsWf(v.pods) && n in v.pods && n in v'.pods && v'.ready == v.ready && v'.hash == v.hash
    requires v'.pods[n] == v.pods[n]
             || (v'.pods[n] == Deleted(v.pods[n]) && Stale(v, v.pods[n]) && EndPod(v, s, n) == v'.pods[n])
             || (v'.pods[n] == Ungated(v.pods[n]) && !Stale(v, v.pods[n]) && EndPod(v, s, n) == v'.pods[n])
    ensures EndPod(v', s, n) == EndPod(v, s, n)
  {
    assert v.pods[n].gates != [] ==> !Scheduled(v.pods[n]);
  }

  /** One crash: any subset of the pass's writes, and the status lost. */
  lemma CutKeepsEnd(hash: Hasher, i: Input, d: set<Name>, u: set<Name>)
    requires Forward(hash, i)
    ensures var j := Cut(hash, i, d, u);
            && Forward(hash, j) && EndPods(hash, j) == EndPods(hash, i) && EndPlan(hash, j) == EndPlan(hash, i)
            && RollsBack(hash, j) == RollsBack(hash, i)
  {
    var j := Cut(hash, i, d, u);
    var v, v' := ViewOf(hash, i), ViewOf(hash, j);
    CutKeepsDecisions(hash, i, d, u);
    forall n | n in i.pods ensures EndPod(v', ScopeOf(hash, i), n) == EndPod(v, ScopeOf(hash, i), n) {
      WritesAreEnds(hash, i, n);
      EndIsFixed(v, v', ScopeOf(hash, i), n);
    }
  }

  // ---- Uninterrupted passes get there ----

  /** A whole pass, status included. */
  ghost function Again(hash: Hasher, i: Input): Input
    requires InputWf(i)
  {
    var o := Pass(hash, i);
    i.(pods := Apply(i.pods, o.dels, o.ungs), status := o.status)
  }

  /** The three kinds of acting passes that can still come. */
  ghost function Stage(hash: Hasher, i: Input): (stage: nat)
    requires InputWf(i)
    ensures stage <= 3
  {
    var o := Pass(hash, i);
    if o.why == RuleA then 3 else if o.dels != {} then 2 else if o.ungs != {} then 1 else 0
  }

  /** Re-asking a gate that was just asked: a pass is latched, anything else is repeated. */
  lemma AskingTwice(p: Plan, gate: HealthGate, w: int, now: int, reply: Reply, policy: Policy, good: Option<LastGood>,
                    good': Option<LastGood>)
    requires PlanWf(p) && ReplyWf(Some(gate), reply)
    requires var r := EvalGate(p, gate, w, now, reply, policy, good); Promotes(r.verdict) || good' == good
    ensures var r := EvalGate(p, gate, w, now, reply, policy, good);
            var r' := EvalGate(r.plan, gate, w, now, reply, policy, good');
            && r'.plan == r.plan && (Promotes(r'.verdict) <==> Promotes(r.verdict))
            && (r'.verdict == Decided(GateRollback) <==> r.verdict == Decided(GateRollback))
  {
  }

  /** The plan a whole pass leaves to the next one. */
  lemma NextPlan(hash: Hasher, i: Input)
    requires Forward(hash, i) && Pass(hash, i).status.rollback.None?
    ensures StatusWf(Pass(hash, i).status)
    ensures GoesForward(hash, i) ==> Pass(hash, i).status.plan == Some(EndPlan(hash, i))
    ensures !GoesForward(hash, i) ==> Pass(hash, i).status.plan == i.status.plan
                                      && Pass(hash, i).status.lastGood == i.status.lastGood
    ensures Pass(hash, i).status.lastGood == i.status.lastGood || ScopeOf(hash, i) == Anywhere
  {
    if GoesForward(hash, i) {
      ForwardCases(hash, i);
      if HasPending(hash, i) {
        AdvanceCases(hash, i);
      } else {
        CompleteCases(hash, i);
      }
    }
  }

  lemma AgainKeepsDecisions(hash: Hasher, i: Input)
    requires Forward(hash, i) && Pass(hash, i).status.rollback.None?
    ensures var j := Again(hash, i);
            && Forward(hash, j) && ViewOf(hash, j) == ViewOf(hash, i).(pods := j.pods)
            && ScopeOf(hash, j) == ScopeOf(hash, i) && EndPlan(hash, j) == EndPlan(hash, i)
            && RollsBack(hash, j) == RollsBack(hash, i)
            && (GoesForward(hash, i) ==> j.status.plan == Some(EndPlan(hash, i)))
  {
    var o := Pass(hash, i);
    var j := Again(hash, i);
    var c := Cut(hash, i, o.dels, o.ungs);
    assert o.dels * o.dels == o.dels && o.ungs * o.ungs == o.ungs;
    assert c.pods == j.pods;
    CutKeepsDecisions(hash, i, o.dels, o.ungs);
    NextPlan(hash, i);
    assert Forward(hash, j);
    assert ViewOf(hash, j) == ViewOf(hash, c);
    StatusCarriesOver(hash, i, c, j);
  }

  /** The same key means the same waves, the same question and the same scope of action. */
  lemma SameKeySameQuestion(hash: Hasher, c: Input, j: Input)
    requires Forward(hash, c) && Forward(hash, j) && j == c.(status := j.status) && ViewOf(hash, j) == ViewOf(hash, c)
    requires Key(PassPlan(hash, c)) == Key(PassPlan(hash, j))
    ensures HasPending(hash, c) == HasPending(hash, j) && AskedWave(hash, c) == AskedWave(hash, j)
    ensures OpenWave(hash, c) == OpenWave(hash, j) && Total(PassPlan(hash, c)) == Total(PassPlan(hash, j)) >= 1
    ensures 0 <= OpenWave(hash, c) < Total(PassPlan(hash, c))
    ensures Wave(PassPlan(hash, c), OpenWave(hash, c)) == Wave(PassPlan(hash, j), OpenWave(hash, j))
  {
    CurrentWaveInRange(hash, c);
    CurrentWaveInRange(hash, j);
    SamePlanSameWaves(ViewOf(hash, c), PassPlan(hash, c), PassPlan(hash, j), 0);
  }

  /** From the same pods, the status a pass leaves leads to the decisions the old status leads to. */
  lemma StatusCarriesOver(hash: Hasher, i: Input, c: Input, j: Input)
    requires Forward(hash, i) && Forward(hash, c) && Forward(hash, j)
    requires c == i.(pods := c.pods) && j == c.(status := j.status)
    requires ViewOf(hash, j) == ViewOf(hash, c)
    requires SameUpdated(ViewOf(hash, i), ViewOf(hash, c))
    requires j.status.plan == i.status.plan || j.status.plan == Some(EndPlan(hash, i))
    requires j.status.lastGood == i.status.lastGood || ScopeOf(hash, i) == Anywhere
    ensures ScopeOf(hash, j) == ScopeOf(hash, i) && EndPlan(hash, j) == EndPlan(hash, i)
    ensures RollsBack(hash, j) == RollsBack(hash, i)
  {
    SameDecisions(hash, i, c);
    assert Key(PassPlan(hash, c)) == Key(PassPlan(hash, j));
    SameKeySameQuestion(hash, c, j);
    if AskedWave(hash, i).Some? {
      AskingTwice(PassPlan(hash, i), i.spec.gate.value, AskedWave(hash, i).value, i.now, i.reply, i.spec.policy,
                  i.status.lastGood, j.status.lastGood);
    }
  }

  lemma {:induction false} SamePlanSameWaves(v: View, p: Plan, q: Plan, w: int)
    requires PlanWf(p) && PlanWf(q) && Key(p) == Key(q) && 0 <= w <= Total(p)
    ensures FirstOpenWave(v, p, w) == FirstOpenWave(v, q, w)
    decreases Total(p) - w
  {
    if w < Total(p) {
      SamePlanSameWaves(v, p, q, w + 1);
      assert Wave(p, w) == Wave(q, w);
    }
  }

  lemma AgainKeepsEnd(hash: Hasher, i: Input)
    requires Forward(hash, i) && Pass(hash, i).status.rollback.None?
    ensures var j := Again(hash, i);
            && Forward(hash, j) && EndPods(hash, j) == EndPods(hash, i) && EndPlan(hash, j) == EndPlan(hash, i)
            && RollsBack(hash, j) == RollsBack(hash, i)
  {
    var j := Again(hash, i);
    var v, v' := ViewOf(hash, i), ViewOf(hash, j);
    AgainKeepsDecisions(hash, i);
    forall n | n in i.pods ensures EndPod(v', ScopeOf(hash, i), n) == EndPod(v, ScopeOf(hash, i), n) {
      WritesAreEnds(hash, i, n);
      EndIsFixed(v, v', ScopeOf(hash, i), n);
    }
  }

  lemma NoGatedStaleLeft(v: View)
    ensures GatedStale(v.(pods := Apply(v.pods, GatedStale(v), {}))) == {}
  {
  }

  lemma NoMoreGatedStale(v: View, d: set<Name>, u: set<Name>)
    requires GatedStale(v) == {}
    ensures GatedStale(v.(pods := Apply(v.pods, d, u))) == {}
  {
  }

  lemma ScopeExhausted(v: View, s: Scope)
    requires PodsWf(v.pods)
    ensures ScopeStale(v.(pods := Apply(v.pods, ScopeStale(v, s), {})), s) == {}
    ensures ScopeStale(v, s) == {} ==>
              ScopeStale(v.(pods := Apply(v.pods, {}, ScopeGated(v, s))), s) == {}
              && ScopeGated(v.(pods := Apply(v.pods, {}, ScopeGated(v, s))), s) == {}
  {
  }

  lemma NothingLeftIsTheEnd(v: View, s: Scope, n: Name)
    requires n in v.pods && GatedStale(v) == {} && ScopeStale(v, s) == {} && ScopeGated(v, s) == {}
    ensures EndPod(v, s, n) == v.pods[n]
  {
    assert n !in GatedStale(v) && n !in ScopeStale(v, s) && n !in ScopeGated(v, s);
  }

  /** Every acting pass uses up its kind of action; a pass that does not act has nothing left to do. */
  lemma StageFalls(hash: Hasher, i: Input)
    requires Forward(hash, i) && Pass(hash, i).status.rollback.None?
    ensures InputWf(Again(hash, i))
    ensures Stage(hash, i) > 0 ==> Stage(hash, Again(hash, i)) < Stage(hash, i)
    ensures Stage(hash, i) == 0 ==> Again(hash, i).pods == i.pods == EndPods(hash, i) && GoesForward(hash, i)
  {
    AgainKeepsDecisions(hash, i);
    if GoesForward(hash, i) {
      ForwardStageFalls(hash, i);
    } else {
      NoGatedStaleLeft(ViewOf(hash, i));
      PassByScope(hash, Again(hash, i));
    }
  }

  lemma ForwardStageFalls(hash: Hasher, i: Input)
    requires Forward(hash, i) && Pass(hash, i).status.rollback.None? && GoesForward(hash, i)
    ensures InputWf(Again(hash, i))
    ensures Stage(hash, i) > 0 ==> Stage(hash, Again(hash, i)) < Stage(hash, i)
    ensures Stage(hash, i) == 0 ==> Again(hash, i).pods == i.pods == EndPods(hash, i)
  {
    var v, s := ViewOf(hash, i), ScopeOf(hash, i);
    AgainKeepsDecisions(hash, i);
    PassByScope(hash, i);
    NoMoreGatedStale(v, Pass(hash, i).dels, Pass(hash, i).ungs);
    PassByScope(hash, Again(hash, i));
    ScopeExhausted(v, s);
    if Stage(hash, i) == 0 {
      NoActionIsTheEnd(hash, i);
    }
  }

  lemma NoActionIsTheEnd(hash: Hasher, i: Input)
    requires Forward(hash, i) && GoesForward(hash, i) && Pass(hash, i).dels == {} && Pass(hash, i).ungs == {}
    ensures Again(hash, i).pods == i.pods == EndPods(hash, i)
  {
    PassByScope(hash, i);
    forall n | n in i.pods ensures EndPod(ViewOf(hash, i), ScopeOf(hash, i), n) == i.pods[n] {
      NothingLeftIsTheEnd(ViewOf(hash, i), ScopeOf(hash, i), n);
    }
  }

  /** Pass k runs on what pass k - 1 left. */
  ghost predicate FrozenStep(hash: Hasher, inputs: seq<Input>, k: int)
    requires 0 <= k < |inputs|
  {
    && InputWf(inputs[k])
    && (k > 0 ==> InputWf(inputs[k - 1]) && inputs[k] == Again(hash, inputs[k - 1]))
  }

  /** Whole passes, one after the other, on a frozen cluster. */
  ghost predicate Frozen(hash: Hasher, inputs: seq<Input>) {
    |inputs| >= 1 && forall k :: 0 <= k < |inputs| ==> FrozenStep(hash, inputs, k)
  }

  /** They start forward, and the gate's answer calls for no rollback; later passes are proved to stay that way. */
  ghost predicate FrozenRun(hash: Hasher, inputs: seq<Input>) {
    Frozen(hash, inputs) && Forward(hash, inputs[0]) && !RollsBack(hash, inputs[0])
  }

  lemma {:induction false} FrozenRunKeepsEnd(hash: Hasher, inputs: seq<Input>, k: nat)
    requires FrozenRun(hash, inputs) && k < |inputs|
    ensures Forward(hash, inputs[k]) && !RollsBack(hash, inputs[k])
    ensures EndPods(hash, inputs[k]) == EndPods(hash, inputs[0]) && EndPlan(hash, inputs[k]) == EndPlan(hash, inputs[0])
  {
    if k > 0 {
      FrozenRunKeepsEnd(hash, inputs, k - 1);
      assert FrozenStep(hash, inputs, k);
      NoRollbackNow(hash, inputs[k - 1]);
      AgainKeepsEnd(hash, inputs[k - 1]);
    }
  }

  lemma StageStep(hash: Hasher, i: Input)
    requires Forward(hash, i) && !RollsBack(hash, i)
    ensures InputWf(Again(hash, i))
    ensures Stage(hash, Again(hash, i)) <= if Stage(hash, i) > 0 then Stage(hash, i) - 1 else 0
  {
    NoRollbackNow(hash, i);
    StageFalls(hash, i);
    if Stage(hash, i) == 0 {
      StageStaysZero(hash, i);
    }
  }

  lemma {:induction false} StagesRunOut(hash: Hasher, inputs: seq<Input>, k: nat)
    requires FrozenRun(hash, inputs) && k < |inputs|
    ensures InputWf(inputs[k]) && Stage(hash, inputs[k]) <= if k < 3 then 3 - k else 0
  {
    FrozenRunKeepsEnd(hash, inputs, k);
    if k > 0 {
      StagesRunOut(hash, inputs, k - 1);
      FrozenRunKeepsEnd(hash, inputs, k - 1);
      StageStep(hash, inputs[k - 1]);
      assert FrozenStep(hash, inputs, k);
    }
  }

  lemma StageStaysZero(hash: Hasher, i: Input)
    requires Forward(hash, i) && Pass(hash, i).status.rollback.None? && Stage(hash, i) == 0
    ensures InputWf(Again(hash, i)) && Stage(hash, Again(hash, i)) == 0
  {
    StageFalls(hash, i);
    AgainKeepsDecisions(hash, i);
    PassByScope(hash, i);
    PassByScope(hash, Again(hash, i));
  }

  /** The pass writes no pod. */
  ghost predicate AtRest(hash: Hasher, i: Input) {
    InputWf(i) && Pass(hash, i).dels == {} && Pass(hash, i).ungs == {}
  }

  /**
    * On a frozen cluster, with no rollback triggered, pod writes stop after at most three acting passes
    * (gated stale pods, stale pods of the wave, releases); the pods and the plan are then the closed-form end.
    */
  lemma AtMostThreeActingPasses(hash: Hasher, inputs: seq<Input>, k: nat)
    requires FrozenRun(hash, inputs) && 3 <= k < |inputs|
    ensures AtRest(hash, inputs[k])
    ensures inputs[k].pods == EndPods(hash, inputs[0])
    ensures Pass(hash, inputs[k]).status.plan == Some(EndPlan(hash, inputs[0]))
  {
    FrozenRunKeepsEnd(hash, inputs, k);
    StagesRunOut(hash, inputs, k);
    NoRollbackNow(hash, inputs[k]);
    StageFalls(hash, inputs[k]);
    NextPlan(hash, inputs[k]);
  }

  // ---- Crashes ----

  /** One crash after another: each pass writes some of its pods and loses its status. */
  ghost function Crashed(hash: Hasher, i: Input, cuts: seq<(set<Name>, set<Name>)>): Input
    requires InputWf(i)
    decreases |cuts|
  {
    if cuts == [] then i else Crashed(hash, Cut(hash, i, cuts[0].0, cuts[0].1), cuts[1..])
  }

  lemma {:induction false} CrashesKeepEnd(hash: Hasher, i: Input, cuts: seq<(set<Name>, set<Name>)>)
    requires Forward(hash, i)
    ensures Forward(hash, Crashed(hash, i, cuts)) && RollsBack(hash, Crashed(hash, i, cuts)) == RollsBack(hash, i)
    ensures EndPods(hash, Crashed(hash, i, cuts)) == EndPods(hash, i)
    ensures EndPlan(hash, Crashed(hash, i, cuts)) == EndPlan(hash, i)
    decreases |cuts|
  {
    if cuts != [] {
      CutKeepsEnd(hash, i, cuts[0].0, cuts[0].1);
      CrashesKeepEnd(hash, Cut(hash, i, cuts[0].0, cuts[0].1), cuts[1..]);
    }
  }

  /**
    * Any number of crashes, each after any part of a pass's pod writes and before its status write,
    * leaves no trace: the passes that follow end in the same pods and the same plan as a run that was
    * never interrupted.
    */
  lemma CrashTolerance(hash: Hasher, smooth: seq<Input>, cuts: seq<(set<Name>, set<Name>)>, bumpy: seq<Input>, k: nat)
    requires FrozenRun(hash, smooth) && Frozen(hash, bumpy) && 3 <= k < |smooth| && k < |bumpy|
    requires bumpy[0] == Crashed(hash, smooth[0], cuts)
    ensures AtRest(hash, bumpy[k]) && AtRest(hash, smooth[k])
    ensures bumpy[k].pods == smooth[k].pods
    ensures Pass(hash, bumpy[k]).status.plan == Pass(hash, smooth[k]).status.plan
  {
    CrashesKeepEnd(hash, smooth[0], cuts);
    AtMostThreeActingPasses(hash, smooth, k);
    AtMostThreeActingPasses(hash, bumpy, k);
  }
}
