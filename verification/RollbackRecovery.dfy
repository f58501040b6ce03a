/** Crash tolerance of rollback passes: what module Recovery proves of forward passes, going back. */
module RollbackRecovery {
  import opened Prelude
  import opened Api
  import opened Waves
  import opened Engine
  import opened PassProperties
  import opened Recovery

  ghost predicate Backward(hash: Hasher, i: Input) {
    InputWf(i) && i.ready != [] && PodsWf(i.pods) && BeginInput(hash, i).rollback.Some?
  }

  // ---- What the frozen cluster ends in ----

  /** Gated pods of another template go; on live nodes scheduled ones go too, and last-good ones are released. */
  function BackPod(v: View, n: Name): Pod
    requires n in v.pods
  {
    var p := v.pods[n];
    if !p.terminating && Stale(v, p) && PodGated(p) then Deleted(p)
    else if n !in v.ready then p
    else if Replaceable(v, n) then Deleted(p)
    else if PodGatedOn(p, v.hash) then Ungated(p)
    else p
  }

  function BackPods(v: View): map<Name, Pod> {
    map n | n in v.pods :: BackPod(v, n)
  }

  /** The nodes whose pod is not where it ends. */
  function Unfinished(v: View): set<Name> {
    set n | n in v.pods && BackPod(v, n) != v.pods[n]
  }

  // ---- One pass ----

  /** A rollback pass writes only pods that are not where they end, and puts each of them there. */
  lemma BackWritesAreEnds(hash: Hasher, i: Input, n: Name)
    requires Backward(hash, i) && n in i.pods
    ensures var o, v := Pass(hash, i), ViewOf(hash, i);
            && (n in o.dels ==> BackPod(v, n) == Deleted(i.pods[n]) != i.pods[n] && Stale(v, i.pods[n]))
            && (n in o.ungs ==> BackPod(v, n) == Ungated(i.pods[n]) != i.pods[n] && !Stale(v, i.pods[n]))
            && !(n in o.dels && n in o.ungs)
  {
    PassTouchesTheRightPods(hash, i);
    if GoesBack(hash, i) {
      RollbackScope(hash, i);
      TakeStaleProps(ViewOf(hash, i), i.ready, ResolveWaveSize(i.spec.waveSize, |i.ready|));
    }
    if n in Pass(hash, i).ungs {
      UngatingChanges(i.pods[n]);
    }
  }

  lemma UngatingChanges(p: Pod)
    requires PodGated(p)
    ensures Ungated(p) != p
  {
    assert WAVE_GATE !in Ungated(p).gates;
  }

  lemma BackPodIsFixed(v: View, v': View, n: Name)
    requires PodsWf(v.pods) && n in v.pods && n in v'.pods && v'.ready == v.ready && v'.hash == v.hash
    requires v'.pods[n] == v.pods[n]
             || (v'.pods[n] == Deleted(v.pods[n]) == BackPod(v, n) && Stale(v, v.pods[n]))
             || (v'.pods[n] == Ungated(v.pods[n]) == BackPod(v, n) && !Stale(v, v.pods[n]))
    ensures BackPod(v', n) == BackPod(v, n)
  {
    assert v.pods[n].gates != [] ==> !Scheduled(v.pods[n]);
  }

  /** Some of a pass's writes: the end is the same, and what was written has got there. */
  lemma PartialWrites(hash: Hasher, i: Input, d: set<Name>, u: set<Name>, v': View)
    requires Backward(hash, i)
    requires v' == ViewOf(hash, i).(pods := Apply(i.pods, d * Pass(hash, i).dels, u * Pass(hash, i).ungs))
    ensures BackPods(v') == BackPods(ViewOf(hash, i)) && Unfinished(v') <= Unfinished(ViewOf(hash, i))
    ensures forall n :: n in d * Pass(hash, i).dels + u * Pass(hash, i).ungs && n in i.pods ==>
              n in Unfinished(ViewOf(hash, i)) && n !in Unfinished(v')
  {
    var v := ViewOf(hash, i);
    forall n | n in i.pods ensures BackPod(v', n) == BackPod(v, n) {
      BackWritesAreEnds(hash, i, n);
      BackPodIsFixed(v, v', n);
    }
    forall n | n in d * Pass(hash, i).dels + u * Pass(hash, i).ungs && n in i.pods
      ensures n in Unfinished(v) && n !in Unfinished(v')
    {
      BackWritesAreEnds(hash, i, n);
    }
  }

  lemma CutKeepsBackEnd(hash: Hasher, i: Input, d: set<Name>, u: set<Name>)
    requires Backward(hash, i)
    ensures var j := Cut(hash, i, d, u);
            && Backward(hash, j) && BackPods(ViewOf(hash, j)) == BackPods(ViewOf(hash, i)) && j.pods.Keys == i.pods.Keys
  {
    var j := Cut(hash, i, d, u);
    ApplyKeepsPodsWf(i.pods, d * Pass(hash, i).dels, u * Pass(hash, i).ungs);
    PartialWrites(hash, i, d, u, ViewOf(hash, j));
  }

  /** A whole pass stays in rollback with the same view of the desired template. */
  lemma AgainStaysBack(hash: Hasher, i: Input)
    requires Backward(hash, i)
    ensures var j := Again(hash, i);
            && Backward(hash, j) && ViewOf(hash, j) == ViewOf(hash, i).(pods := j.pods)
  {
    ApplyKeepsPodsWf(i.pods, Pass(hash, i).dels, Pass(hash, i).ungs);
  }

  lemma AgainKeepsBackEnd(hash: Hasher, i: Input)
    requires Backward(hash, i)
    ensures var v, v' := ViewOf(hash, i), ViewOf(hash, Again(hash, i));
            && Backward(hash, Again(hash, i)) && BackPods(v') == BackPods(v) && Unfinished(v') <= Unfinished(v)
            && (forall n :: n in Pass(hash, i).dels + Pass(hash, i).ungs && n in i.pods ==>
                  n in Unfinished(v) && n !in Unfinished(v'))
  {
    var o := Pass(hash, i);
    AgainStaysBack(hash, i);
    assert o.dels * o.dels == o.dels && o.ungs * o.ungs == o.ungs;
    PartialWrites(hash, i, o.dels, o.ungs, ViewOf(hash, Again(hash, i)));
  }

  /** A pass that has unfinished pods to deal with writes one of them. */
  lemma UnfinishedIsWorkedOn(hash: Hasher, i: Input)
    requires Backward(hash, i) && Unfinished(ViewOf(hash, i)) != {}
    ensures exists n :: n in Pass(hash, i).dels + Pass(hash, i).ungs && n in i.pods
  {
    var v, o := ViewOf(hash, i), Pass(hash, i);
    var n :| n in Unfinished(v);
    if GoesBack(hash, i) {
      var size := ResolveWaveSize(i.spec.waveSize, |i.ready|);
      RollbackScope(hash, i);
      TakeStaleProps(v, i.ready, size);
      assert n !in GatedStale(v);
      if Replaceable(v, n) {
        var m := TakeStale(v, i.ready, size)[0];
        assert m in o.dels && m in i.pods;
      } else {
        assert n in Releasable(v, i.ready);
      }
    } else {
      var m :| m in GatedStale(v);
      assert m in o.dels;
    }
  }

  /** Every pass finishes at least one more pod, until none is left. */
  lemma UnfinishedFalls(hash: Hasher, i: Input)
    requires Backward(hash, i)
    ensures Backward(hash, Again(hash, i))
    ensures var v, v' := ViewOf(hash, i), ViewOf(hash, Again(hash, i));
            |Unfinished(v')| <= if Unfinished(v) == {} then 0 else |Unfinished(v)| - 1
  {
    var v, v' := ViewOf(hash, i), ViewOf(hash, Again(hash, i));
    AgainKeepsBackEnd(hash, i);
    if Unfinished(v) != {} {
      UnfinishedIsWorkedOn(hash, i);
      var n :| n in Pass(hash, i).dels + Pass(hash, i).ungs && n in i.pods;
      SubsetCard(Unfinished(v'), Unfinished(v) - {n});
    }
  }

  // ---- Frozen runs ----

  lemma {:induction false} FrozenBackRun(hash: Hasher, inputs: seq<Input>, k: nat)
    requires Frozen(hash, inputs) && Backward(hash, inputs[0]) && k < |inputs|
    ensures Backward(hash, inputs[k]) && BackPods(ViewOf(hash, inputs[k])) == BackPods(ViewOf(hash, inputs[0]))
    ensures |Unfinished(ViewOf(hash, inputs[k]))| <= if k < |inputs[0].pods| then |inputs[0].pods| - k else 0
  {
    if k == 0 {
      SubsetCard(Unfinished(ViewOf(hash, inputs[0])), inputs[0].pods.Keys);
    } else {
      FrozenBackRun(hash, inputs, k - 1);
      assert FrozenStep(hash, inputs, k);
      AgainKeepsBackEnd(hash, inputs[k - 1]);
      UnfinishedFalls(hash, inputs[k - 1]);
    }
  }

  lemma FinishedIsAtRest(hash: Hasher, i: Input)
    requires Backward(hash, i) && Unfinished(ViewOf(hash, i)) == {}
    ensures AtRest(hash, i) && i.pods == BackPods(ViewOf(hash, i))
  {
    var o := Pass(hash, i);
    PassTouchesTheRightPods(hash, i);
    forall n | n in i.pods ensures n !in o.dels && n !in o.ungs {
      BackWritesAreEnds(hash, i, n);
      assert n !in Unfinished(ViewOf(hash, i));
    }
    assert forall n :: n in o.dels || n in o.ungs ==> n in i.pods;
    forall n | n in i.pods ensures BackPod(ViewOf(hash, i), n) == i.pods[n] {
      assert n !in Unfinished(ViewOf(hash, i));
    }
  }

  /** On a frozen cluster a rollback comes to rest in its closed-form end after at most one pass per pod. */
  lemma RollbackComesToRest(hash: Hasher, inputs: seq<Input>, k: nat)
    requires Frozen(hash, inputs) && Backward(hash, inputs[0]) && |inputs[0].pods| <= k < |inputs|
    ensures AtRest(hash, inputs[k]) && inputs[k].pods == BackPods(ViewOf(hash, inputs[0]))
  {
    FrozenBackRun(hash, inputs, k);
    FinishedIsAtRest(hash, inputs[k]);
  }

  lemma {:induction false} CrashesKeepBackEnd(hash: Hasher, i: Input, cuts: seq<(set<Name>, set<Name>)>)
    requires Backward(hash, i)
    ensures var j := Crashed(hash, i, cuts);
            && Backward(hash, j) && BackPods(ViewOf(hash, j)) == BackPods(ViewOf(hash, i)) && j.pods.Keys == i.pods.Keys
    decreases |cuts|
  {
    if cuts != [] {
      CutKeepsBackEnd(hash, i, cuts[0].0, cuts[0].1);
      CrashesKeepBackEnd(hash, Cut(hash, i, cuts[0].0, cuts[0].1), cuts[1..]);
    }
  }

  /**
    * Any number of rollback passes cut after any part of their pod writes leave no trace: the passes that
    * follow end in the same pods as a rollback that was never interrupted.
    */
  lemma RollbackCrashTolerance(hash: Hasher, smooth: seq<Input>, cuts: seq<(set<Name>, set<Name>)>, bumpy: seq<Input>,
      k: nat)
    requires Frozen(hash, smooth) && Frozen(hash, bumpy) && Backward(hash, smooth[0])
    requires |smooth[0].pods| <= k < |smooth| && k < |bumpy| && bumpy[0] == Crashed(hash, smooth[0], cuts)
    ensures AtRest(hash, bumpy[k]) && AtRest(hash, smooth[k]) && bumpy[k].pods == smooth[k].pods
  {
    CrashesKeepBackEnd(hash, smooth[0], cuts);
    assert |bumpy[0].pods| == |bumpy[0].pods.Keys| == |smooth[0].pods.Keys| == |smooth[0].pods|;
    RollbackComesToRest(hash, smooth, k);
    RollbackComesToRest(hash, bumpy, k);
  }
}
