/** What one pass keeps, bounds and reports. */
module PassProperties {
  import opened Prelude
  import opened Api
  import opened Templates
  import opened Waves
  import opened Gates
  import opened Engine

  // ---- Counting ----

  lemma {:induction false} OfMembers(v: View, nodes: seq<Name>, c: Class, n: Name)
    ensures n in Of(v, nodes, c) <==> n in nodes && Classify(v, n) == c
  {
    if nodes != [] {
      OfMembers(v, nodes[1..], c, n);
      assert nodes == [nodes[0]] + nodes[1..];
    }
  }

  /** Updated, pending and skipped always partition the plan, with multiplicity. */
  lemma {:induction false} Conservation(v: View, nodes: seq<Name>)
    ensures |Of(v, nodes, UpToDate)| + |Of(v, nodes, Pending)| + |Of(v, nodes, Skipped)| == |nodes|
    ensures multiset(Of(v, nodes, UpToDate)) + multiset(Of(v, nodes, Pending)) + multiset(Of(v, nodes, Skipped))
            == multiset(nodes)
  {
    if nodes != [] {
      Conservation(v, nodes[1..]);
      assert nodes == [nodes[0]] + nodes[1..];
    }
  }

  lemma NodeHasWave(p: Plan, n: Name) returns (w: int)
    requires PlanWf(p) && n in p.nodes
    ensures 0 <= w < Total(p) && n in Wave(p, w)
  {
    var i :| 0 <= i < |p.nodes| && p.nodes[i] == n;
    w := i / p.waveSize;
    WaveOfIndex(p.nodes, p.waveSize, i);
  }

  lemma NoneOf(v: View, nodes: seq<Name>, c: Class)
    ensures Of(v, nodes, c) == [] <==> forall n :: n in nodes ==> Classify(v, n) != c
  {
    forall n ensures n in Of(v, nodes, c) <==> n in nodes && Classify(v, n) == c {
      OfMembers(v, nodes, c, n);
    }
    if Of(v, nodes, c) != [] {
      assert Of(v, nodes, c)[0] in nodes;
    }
  }

  /** Nothing is pending exactly when every wave is fully updated. */
  lemma NothingPendingIff(v: View, p: Plan)
    requires PlanWf(p)
    ensures |Of(v, p.nodes, Pending)| == 0 <==> forall w :: 0 <= w < Total(p) ==> WaveFullyUpdated(v, p, w)
  {
    NoneOf(v, p.nodes, Pending);
    if forall w :: 0 <= w < Total(p) ==> WaveFullyUpdated(v, p, w) {
      forall n | n in p.nodes ensures Classify(v, n) != Pending {
        var w := NodeHasWave(p, n);
        assert WaveFullyUpdated(v, p, w);
      }
    }
    if w :| 0 <= w < Total(p) && !WaveFullyUpdated(v, p, w) {
      var n := PendingIn(v, p, w);
    }
  }

  /** A wave that is not fully updated has a pending node. */
  lemma PendingIn(v: View, p: Plan, w: int) returns (n: Name)
    requires PlanWf(p) && 0 <= w < Total(p) && !WaveFullyUpdated(v, p, w)
    ensures n in p.nodes && Classify(v, n) == Pending
  {
    n :| n in Wave(p, w) && n in v.ready && !Updated(v, n);
    WaveInRange(|p.nodes|, p.waveSize, w);
    var k := IndexInSlice(p.nodes, p.waveSize, w, n);
  }

  /** Given any open wave u from w on, the search stops at the first open wave. */
  lemma {:induction false} FirstOpenIsFirst(v: View, p: Plan, w: int, u: int)
    requires PlanWf(p) && 0 <= w <= u < Total(p) && !WaveFullyUpdated(v, p, u)
    ensures w <= FirstOpenWave(v, p, w) <= u
    ensures !WaveFullyUpdated(v, p, FirstOpenWave(v, p, w))
    ensures forall k :: w <= k < FirstOpenWave(v, p, w) ==> WaveFullyUpdated(v, p, k)
    decreases Total(p) - w
  {
    FirstOpenStep(v, p, w);
    if WaveFullyUpdated(v, p, w) {
      FirstOpenIsFirst(v, p, w + 1, u);
    }
  }

  lemma FirstOpenStep(v: View, p: Plan, w: int)
    requires PlanWf(p) && 0 <= w < Total(p)
    ensures FirstOpenWave(v, p, w) == if WaveFullyUpdated(v, p, w) then FirstOpenWave(v, p, w + 1) else w
  {
  }

  /** With a planned Ready node pending, the current wave is a real one, never the default 0. */
  lemma CurrentWaveExists(v: View, p: Plan)
    requires PlanWf(p) && |Of(v, p.nodes, Pending)| != 0
    ensures var f := FirstOpenWave(v, p, 0);
            && 0 <= f < Total(p) && !WaveFullyUpdated(v, p, f)
            && forall u :: 0 <= u < f ==> WaveFullyUpdated(v, p, u)
  {
    NothingPendingIff(v, p);
    var u :| 0 <= u < Total(p) && !WaveFullyUpdated(v, p, u);
    FirstOpenIsFirst(v, p, 0, u);
  }

  // ---- Cardinalities ----

  lemma {:induction false} SetNoLarger<T>(s: seq<T>, t: set<T>)
    requires t <= ToSet(s)
    ensures |t| <= |s|
  {
    if s == [] {
      assert t == {};
    } else {
      var t' := t - {s[0]};
      assert t' <= ToSet(s[1..]);
      SetNoLarger(s[1..], t');
      assert t <= t' + {s[0]};
      if s[0] in t { assert t == t' + {s[0]}; } else { assert t == t'; }
    }
  }

  lemma {:induction false} TakeStaleProps(v: View, nodes: seq<Name>, budget: int)
    ensures |TakeStale(v, nodes, budget)| <= if budget < 0 then 0 else budget
    ensures forall n :: n in TakeStale(v, nodes, budget) ==> n in nodes && Replaceable(v, n)
    ensures budget >= 1 && TakeStale(v, nodes, budget) == [] ==> forall n :: n in nodes ==> !Replaceable(v, n)
  {
    if nodes != [] && budget > 0 {
      TakeStaleProps(v, nodes[1..], budget - 1);
      TakeStaleProps(v, nodes[1..], budget);
      assert nodes == [nodes[0]] + nodes[1..];
    }
  }

  // ---- Cases of a pass ----

  ghost predicate GoesForward(hash: Hasher, i: Input) {
    i.ready != [] && GatedStale(ViewOf(hash, i)) == {} && BeginInput(hash, i).rollback.None?
  }

  ghost predicate GoesBack(hash: Hasher, i: Input) {
    i.ready != [] && GatedStale(ViewOf(hash, i)) == {} && BeginInput(hash, i).rollback.Some?
  }

  function PassPlan(hash: Hasher, i: Input): Plan
    requires InputWf(i) && i.ready != []
  {
    EnsurePlan(i.status.plan, i.spec, i.gen, RenderBaseTemplate(i.spec), CurrentHash(hash, i.spec), i.ready)
  }

  ghost predicate HasPending(hash: Hasher, i: Input)
    requires InputWf(i) && i.ready != []
  {
    |Of(ViewOf(hash, i), PassPlan(hash, i).nodes, Pending)| != 0
  }

  /** The wave whose gate a forward pass over these nodes consults, if it consults one. */
  ghost function AskedWave(hash: Hasher, i: Input): Option<int>
    requires InputWf(i) && i.ready != []
  {
    if i.spec.gate.None? then None
    else if !HasPending(hash, i) then Some(Total(PassPlan(hash, i)) - 1)
    else
      var cur := OpenWave(hash, i);
      if cur > 0 then Some(cur - 1) else None
  }

  ghost function GateWave(hash: Hasher, i: Input): Option<int>
    requires InputWf(i)
  {
    if GoesForward(hash, i) then AskedWave(hash, i) else None
  }

  ghost function PassGate(hash: Hasher, i: Input): GateResult
    requires InputWf(i) && GateWave(hash, i).Some?
  {
    EvalGate(PassPlan(hash, i), i.spec.gate.value, GateWave(hash, i).value, i.now, i.reply,
             i.spec.policy, i.status.lastGood)
  }

  /** The plan a forward pass persists. */
  ghost function PlanAfter(hash: Hasher, i: Input): Plan
    requires InputWf(i) && i.ready != []
  {
    if GateWave(hash, i).Some? then PassGate(hash, i).plan else PassPlan(hash, i)
  }

  ghost function ConsultOf(hash: Hasher, i: Input): Consult
    requires InputWf(i)
  {
    var gw := GateWave(hash, i);
    if gw.Some? then Asked(gw.value, PassGate(hash, i).verdict) else Unasked
  }

  /** A consulted gate that does not promote. */
  ghost predicate Holds(hash: Hasher, i: Input)
    requires InputWf(i)
  {
    GateWave(hash, i).Some? && !Promotes(PassGate(hash, i).verdict)
  }

  /** The outcome deletes the wave's stale pods or, if there are none, ungates its gated ones. */
  ghost predicate ActsOn(o: Outcome, p: Plan, w: int, v: View) {
    && PlanWf(p) && 0 <= w < Total(p) && o.why == InWave(Key(p), w)
    && (if WaveStale(v, Wave(p, w)) != {} then o.dels == WaveStale(v, Wave(p, w)) && o.ungs == {}
        else o.dels == {} && o.ungs == WaveGated(v, Wave(p, w)))
  }

  ghost predicate Idles(o: Outcome) {
    o.why == Untouched && o.dels == {} && o.ungs == {}
  }

  lemma CompleteActs(hash: Hasher, i: Input)
    requires InputWf(i) && GoesForward(hash, i) && !HasPending(hash, i)
    ensures var o := Pass(hash, i);
            if Holds(hash, i) then Idles(o) && o.status.lastGood == i.status.lastGood
            else o.why == Adoption(Key(PassPlan(hash, i)))
  {
  }

  /** A pass with nothing pending asks the final gate, then completes or holds. */
  lemma CompleteCases(hash: Hasher, i: Input)
    requires InputWf(i) && GoesForward(hash, i) && !HasPending(hash, i)
    ensures var o := Pass(hash, i);
            && o.status.plan == Some(PlanAfter(hash, i)) && o.consult == ConsultOf(hash, i)
            && (if Holds(hash, i) then Idles(o) && o.status.lastGood == i.status.lastGood
                else o.why == Adoption(Key(PassPlan(hash, i))))
  {
    CompleteActs(hash, i);
  }

  /** The current wave of a pass with pending nodes. */
  function OpenWave(hash: Hasher, i: Input): int
    requires InputWf(i) && i.ready != []
  {
    CurrentWaveInRange(hash, i);
    FirstOpenWave(ViewOf(hash, i), PassPlan(hash, i), 0)
  }

  lemma CurrentWaveInRange(hash: Hasher, i: Input)
    requires InputWf(i) && i.ready != []
    ensures 0 <= Total(PassPlan(hash, i))
    ensures 0 <= FirstOpenWave(ViewOf(hash, i), PassPlan(hash, i), 0) < Total(PassPlan(hash, i))
  {
    TotalPositive(PassPlan(hash, i));
    FirstOpenInRange(ViewOf(hash, i), PassPlan(hash, i), 0);
  }

  lemma AdvanceActs(hash: Hasher, i: Input)
    requires InputWf(i) && GoesForward(hash, i) && HasPending(hash, i)
    ensures if Holds(hash, i) then Idles(Pass(hash, i))
            else ActsOn(Pass(hash, i), PassPlan(hash, i), OpenWave(hash, i), ViewOf(hash, i))
  {
    var p, v := PassPlan(hash, i), ViewOf(hash, i);
    CurrentWaveInRange(hash, i);
    PassIsAdvance(hash, i);
    AdvanceHoldsOrActs(i, Progress(BeginInput(hash, i), p, v), p, v);
  }

  lemma AdvanceHoldsOrActs(i: Input, st: Status, p: Plan, v: View)
    requires InputWf(i) && PlanWf(p)
    ensures 0 <= FirstOpenWave(v, p, 0) < Total(p)
    ensures var o, cur := Advance(i, st, p, v), FirstOpenWave(v, p, 0);
            if cur > 0 && i.spec.gate.Some?
               && !Promotes(EvalGate(p, i.spec.gate.value, cur - 1, i.now, i.reply, i.spec.policy, st.lastGood).verdict)
            then Idles(o) else ActsOn(o, p, cur, v)
  {
    FirstOpenInRange(v, p, 0);
  }

  lemma AdvanceConsults(hash: Hasher, i: Input)
    requires InputWf(i) && GoesForward(hash, i) && HasPending(hash, i)
    ensures Pass(hash, i).status.plan == Some(PlanAfter(hash, i)) && Pass(hash, i).consult == ConsultOf(hash, i)
    ensures Pass(hash, i).status.lastGood == i.status.lastGood
  {
    var p, v := PassPlan(hash, i), ViewOf(hash, i);
    CurrentWaveInRange(hash, i);
    PassIsAdvance(hash, i);
    AdvanceAsks(i, Progress(BeginInput(hash, i), p, v), p, v);
  }

  lemma AdvanceAsks(i: Input, st: Status, p: Plan, v: View)
    requires InputWf(i) && PlanWf(p) && st.plan == Some(p)
    ensures var o, cur := Advance(i, st, p, v), FirstOpenWave(v, p, 0);
            && o.status.lastGood == st.lastGood
            && if cur == 0 || i.spec.gate.None? then o.consult == Unasked && o.status.plan == Some(p)
               else
                 var g := EvalGate(p, i.spec.gate.value, cur - 1, i.now, i.reply, i.spec.policy, st.lastGood);
                 o.consult == Asked(cur - 1, g.verdict) && o.status.plan == Some(g.plan)
  {
    FirstOpenInRange(v, p, 0);
  }

  /** A pass with pending nodes asks the gate before the current wave, then acts on that wave or holds. */
  lemma AdvanceCases(hash: Hasher, i: Input)
    requires InputWf(i) && GoesForward(hash, i) && HasPending(hash, i)
    ensures var o := Pass(hash, i);
            && o.status.plan == Some(PlanAfter(hash, i)) && o.consult == ConsultOf(hash, i)
            && o.status.lastGood == i.status.lastGood
            && (if Holds(hash, i) then Idles(o)
                else ActsOn(o, PassPlan(hash, i), OpenWave(hash, i), ViewOf(hash, i)))
  {
    AdvanceActs(hash, i);
    AdvanceConsults(hash, i);
  }

  /** The ways a forward pass can end. */
  lemma ForwardCases(hash: Hasher, i: Input)
    requires InputWf(i) && GoesForward(hash, i)
    ensures var o := Pass(hash, i);
            var k := Key(PassPlan(hash, i));
            && o.status.plan == Some(PlanAfter(hash, i)) && o.consult == ConsultOf(hash, i)
            && (o.why == Untouched || o.why == Adoption(k) || (o.why.InWave? && o.why.key == k))
            && (o.why == Untouched <==> Holds(hash, i))
            && (o.why == Untouched ==> o.dels == {} && o.ungs == {} && o.status.lastGood == i.status.lastGood)
            && (o.why.Adoption? ==> !HasPending(hash, i))
            && (o.why.InWave? ==> HasPending(hash, i) && o.status.lastGood == i.status.lastGood)
  {
    if HasPending(hash, i) {
      AdvanceCases(hash, i);
    } else {
      CompleteCases(hash, i);
    }
  }

  /** What a held or promoted pass writes as rollback and phase; `idle` is the phase of a plain hold. */
  ghost predicate PhaseAndRollback(hash: Hasher, i: Input, st: Status, idle: Phase, promoted: Phase)
    requires InputWf(i) && i.ready != []
  {
    var verdict := if GateWave(hash, i).Some? then PassGate(hash, i).verdict else Latched;
    var p := PlanAfter(hash, i);
    && st.rollback == (if verdict == Decided(GateRollback) then Some(Rollback(p.hash, p.image, i.now)) else None)
    && st.phase == (if verdict == Decided(GateRollback) then RollingBack
                    else if verdict == Decided(GatePauseTimeout) then Paused
                    else if Promotes(verdict) then promoted else idle)
  }

  /** A pass with nothing pending that is not promoted is a hold; otherwise it finishes. */
  lemma CompletePhase(i: Input, st: Status, p: Plan, base: Template, v: View)
    requires InputWf(i) && PlanWf(p)
    ensures var st' := Complete(i, st, p, base, v).status;
            if i.spec.gate.None? then st'.phase == Done && st'.rollback == st.rollback
            else
              var g := EvalGate(p, i.spec.gate.value, Total(p) - 1, i.now, i.reply, i.spec.policy, st.lastGood);
              if Promotes(g.verdict) then st'.phase == Done && st'.rollback == st.rollback
              else st' == Hold(st, g.plan, g.verdict, i.now)
  {
  }

  lemma AdvancePhase(i: Input, st: Status, p: Plan, v: View)
    requires InputWf(i) && PlanWf(p)
    ensures var st', cur := Advance(i, st, p, v).status, FirstOpenWave(v, p, 0);
            if cur == 0 || i.spec.gate.None? then st'.phase == Progressing && st'.rollback == st.rollback
            else
              var g := EvalGate(p, i.spec.gate.value, cur - 1, i.now, i.reply, i.spec.policy, st.lastGood);
              if Promotes(g.verdict) then st'.phase == Progressing && st'.rollback == st.rollback
              else st' == Hold(st.(currentWave := cur, phase := Progressing), g.plan, g.verdict, i.now)
  {
    FirstOpenInRange(v, p, 0);
  }

  lemma CompleteStatus(hash: Hasher, i: Input)
    requires InputWf(i) && GoesForward(hash, i) && !HasPending(hash, i)
    ensures PhaseAndRollback(hash, i, Pass(hash, i).status, i.status.phase, Done)
  {
    PassIsComplete(hash, i);
    CompletionStatus(hash, i);
  }

  lemma CompletionStatus(hash: Hasher, i: Input)
    requires InputWf(i) && GoesForward(hash, i) && !HasPending(hash, i)
    ensures var p, v := PassPlan(hash, i), ViewOf(hash, i);
            PhaseAndRollback(hash, i,
                Complete(i, Progress(BeginInput(hash, i), p, v), p, RenderBaseTemplate(i.spec), v).status,
                             i.status.phase, Done)
  {
    var p, v := PassPlan(hash, i), ViewOf(hash, i);
    FinalGate(hash, i);
    CompletePhase(i, Progress(BeginInput(hash, i), p, v), p, RenderBaseTemplate(i.spec), v);
  }

  lemma FinalGate(hash: Hasher, i: Input)
    requires InputWf(i) && GoesForward(hash, i) && !HasPending(hash, i)
    ensures GateWave(hash, i).Some? <==> i.spec.gate.Some?
    ensures i.spec.gate.Some? ==>
              var p := PassPlan(hash, i);
              PassGate(hash, i) == EvalGate(p, i.spec.gate.value, Total(p) - 1, i.now, i.reply, i.spec.policy,
                  i.status.lastGood)
  {
  }

  lemma AdvanceStatus(hash: Hasher, i: Input)
    requires InputWf(i) && GoesForward(hash, i) && HasPending(hash, i)
    ensures PhaseAndRollback(hash, i, Pass(hash, i).status, Progressing, Progressing)
  {
    var p, v := PassPlan(hash, i), ViewOf(hash, i);
    CurrentWaveInRange(hash, i);
    PassIsAdvance(hash, i);
    AdvancePhase(i, Progress(BeginInput(hash, i), p, v), p, v);
  }

  lemma ActScope(o: Outcome, p: Plan, w: int, v: View)
    requires ActsOn(o, p, w, v)
    ensures forall n :: n in o.dels + o.ungs ==> n in Wave(p, w) && n in v.ready && n in v.pods
    ensures |o.dels + o.ungs| <= p.waveSize
    ensures o.dels == {} || o.ungs == {}
  {
    WaveSizes(p.nodes, p.waveSize, w);
    SetNoLarger(Wave(p, w), o.dels + o.ungs);
  }

  /** A forward pass touches pods of one wave only, and only once all earlier waves are up to date. */
  lemma WaveOrder(hash: Hasher, i: Input)
    requires InputWf(i) && Pass(hash, i).why.InWave?
    ensures var o := Pass(hash, i);
            var p := PassPlan(hash, i);
            var v := ViewOf(hash, i);
            var w := o.why.wave;
            && i.ready != [] && 0 <= w < Total(p) && o.why.key == Key(p)
            && (forall u :: 0 <= u < w ==> WaveFullyUpdated(v, p, u)) && !WaveFullyUpdated(v, p, w)
            && (forall n :: n in o.dels + o.ungs ==> n in Wave(p, w) && n in v.ready && n in i.pods)
            && |o.dels + o.ungs| <= p.waveSize
            && (o.dels == {} || o.ungs == {})
  {
    assert GoesForward(hash, i);
    if HasPending(hash, i) {
      AdvanceCases(hash, i);
      CurrentWaveExists(ViewOf(hash, i), PassPlan(hash, i));
      ActScope(Pass(hash, i), PassPlan(hash, i), Pass(hash, i).why.wave, ViewOf(hash, i));
    } else {
      CompleteCases(hash, i);
    }
  }

  /** The wave size that bounds this pass: the plan's going forward, the live one going back. */
  function SizeInForce(hash: Hasher, i: Input): int
    requires InputWf(i) && i.ready != []
  {
    if BeginInput(hash, i).rollback.Some? then ResolveWaveSize(i.spec.waveSize, |i.ready|)
    else PassPlan(hash, i).waveSize
  }

  lemma RollbackScope(hash: Hasher, i: Input)
    requires InputWf(i) && GoesBack(hash, i)
    ensures var o := Pass(hash, i);
            var v := ViewOf(hash, i);
            && o.why == RollbackTo(v.hash) && o.consult == Unasked
            && o.ungs == Releasable(v, i.ready)
            && o.dels == ToSet(TakeStale(v, i.ready, ResolveWaveSize(i.spec.waveSize, |i.ready|)))
  {
  }

  /** The capped loop takes the first replaceable nodes, and all of them unless the cap is reached. */
  lemma {:induction false} TakeStaleInOrder(v: View, nodes: seq<Name>, budget: int)
    requires Sorted(nodes)
    ensures var t := TakeStale(v, nodes, budget);
            && (forall a, b :: 0 <= a < b < |nodes| && nodes[b] in t && Replaceable(v, nodes[a]) ==> nodes[a] in t)
            && (|t| < budget ==> forall n :: n in nodes && Replaceable(v, n) ==> n in t)
            && |ToSet(t)| == |t|
  {
    if nodes != [] && budget > 0 {
      var rest := if Replaceable(v, nodes[0]) then budget - 1 else budget;
      TakeStaleInOrder(v, nodes[1..], rest);
      TakeStaleProps(v, nodes[1..], rest);
      TailMembers(nodes, nodes[0]);
      TakeStaleHead(v, nodes, budget);
    }
  }

  lemma TakeStaleHead(v: View, nodes: seq<Name>, budget: int)
    requires nodes != [] && budget > 0 && nodes[0] !in nodes[1..]
    requires var rest := TakeStale(v, nodes[1..], if Replaceable(v, nodes[0]) then budget - 1 else budget);
             |ToSet(rest)| == |rest| && forall n :: n in rest ==> n in nodes[1..]
    ensures |ToSet(TakeStale(v, nodes, budget))| == |TakeStale(v, nodes, budget)|
  {
    var rest := TakeStale(v, nodes[1..], if Replaceable(v, nodes[0]) then budget - 1 else budget);
    if Replaceable(v, nodes[0]) {
      assert ToSet([nodes[0]] + rest) == ToSet(rest) + {nodes[0]};
    }
  }

  /**
    * A rollback pass releases exactly the gated last-good pods on live nodes, deletes at most one wave's
    * worth of stale ones, in name order without leaving one out, and leaves some only at the cap.
    */
  lemma RollbackInOrder(hash: Hasher, i: Input)
    requires InputWf(i) && GoesBack(hash, i) && Sorted(i.ready)
    ensures var o, v, size := Pass(hash, i), ViewOf(hash, i), ResolveWaveSize(i.spec.waveSize, |i.ready|);
            && (forall n :: n in o.ungs <==> n in i.ready && n in i.pods && PodGatedOn(i.pods[n], v.hash))
            && (forall n :: n in o.dels ==> n in i.ready && Replaceable(v, n)) && |o.dels| <= size
            && (forall a, b :: 0 <= a < b < |i.ready| && i.ready[b] in o.dels && Replaceable(v, i.ready[a]) ==>
                  i.ready[a] in o.dels)
            && (forall n :: n in i.ready && Replaceable(v, n) && n !in o.dels ==> |o.dels| == size)
  {
    var v, size := ViewOf(hash, i), ResolveWaveSize(i.spec.waveSize, |i.ready|);
    RollbackScope(hash, i);
    TakeStaleProps(v, i.ready, size);
    TakeStaleInOrder(v, i.ready, size);
  }

  /** Every deleted pod is live and of another template; every ungated pod has the desired hash. */
  lemma PassTouchesTheRightPods(hash: Hasher, i: Input)
    requires InputWf(i)
    ensures var o := Pass(hash, i);
            var v := ViewOf(hash, i);
            && (forall n :: n in o.dels ==> n in i.pods && !i.pods[n].terminating && PodHash(i.pods[n]) != v.hash)
            && (forall n :: n in o.ungs ==> n in i.pods && PodGated(i.pods[n]) && PodHash(i.pods[n]) == v.hash)
            && (o.why != RuleA ==> forall n :: n in o.dels ==> Scheduled(i.pods[n]) && n in i.ready)
            && (o.why == RuleA ==> o.ungs == {} && forall n :: n in o.dels ==> PodGated(i.pods[n]))
            && o.dels !! o.ungs
  {
    var v := ViewOf(hash, i);
    if GoesBack(hash, i) {
      RollbackScope(hash, i);
      TakeStaleProps(v, i.ready, ResolveWaveSize(i.spec.waveSize, |i.ready|));
    } else if GoesForward(hash, i) {
      if HasPending(hash, i) {
        AdvanceCases(hash, i);
      } else {
        CompleteCases(hash, i);
        if !Holds(hash, i) {
          AdoptionScope(hash, i);
        }
      }
    }
  }

  lemma AdoptionScope(hash: Hasher, i: Input)
    requires InputWf(i) && GoesForward(hash, i) && !HasPending(hash, i) && !Holds(hash, i)
    ensures Pass(hash, i).dels == {} && Pass(hash, i).ungs == Adoptable(ViewOf(hash, i))
  {
  }

  function ScheduledDeletes(hash: Hasher, i: Input, dels: set<Name>): set<Name> {
    set n | n in dels && n in i.pods && Scheduled(i.pods[n])
  }

  /** No pass deletes more scheduled pods than the wave size in force; deleting gated pods is free. */
  lemma DisruptionBound(hash: Hasher, i: Input)
    requires InputWf(i) && i.ready != [] && PodsWf(i.pods)
    ensures |ScheduledDeletes(hash, i, Pass(hash, i).dels)| <= SizeInForce(hash, i)
  {
    if GoesBack(hash, i) {
      RollbackDisruption(hash, i);
    } else if GoesForward(hash, i) {
      ForwardDisruption(hash, i);
    } else {
      PassTouchesTheRightPods(hash, i);
      assert ScheduledDeletes(hash, i, Pass(hash, i).dels) == {};
      assert SizeInForce(hash, i) >= 0;
    }
  }

  lemma RollbackDisruption(hash: Hasher, i: Input)
    requires InputWf(i) && GoesBack(hash, i)
    ensures |ScheduledDeletes(hash, i, Pass(hash, i).dels)| <= ResolveWaveSize(i.spec.waveSize, |i.ready|)
  {
    var v, size := ViewOf(hash, i), ResolveWaveSize(i.spec.waveSize, |i.ready|);
    RollbackScope(hash, i);
    TakeStaleProps(v, i.ready, size);
    SetNoLarger(TakeStale(v, i.ready, size), ScheduledDeletes(hash, i, Pass(hash, i).dels));
  }

  lemma ForwardDisruption(hash: Hasher, i: Input)
    requires InputWf(i) && GoesForward(hash, i)
    ensures |ScheduledDeletes(hash, i, Pass(hash, i).dels)| <= PassPlan(hash, i).waveSize
  {
    var o := Pass(hash, i);
    var s := ScheduledDeletes(hash, i, o.dels);
    ForwardCases(hash, i);
    if o.why.InWave? {
      WaveOrder(hash, i);
      SubsetCard(s, o.dels + o.ungs);
    } else if o.why.Adoption? {
      AdoptionScope(hash, i);
      assert s == {};
    } else {
      assert s == {};
    }
  }

  lemma {:induction false} SubsetCard<T>(s: set<T>, t: set<T>)
    requires s <= t
    ensures |s| <= |t|
  {
    if x :| x in s {
      SubsetCard(s - {x}, t - {x});
    }
  }

  /** Deleting and ungating keep the facts Kubernetes guarantees of pods. */
  lemma ApplyKeepsPodsWf(pods: map<Name, Pod>, d: set<Name>, u: set<Name>)
    requires PodsWf(pods)
    ensures PodsWf(Apply(pods, d, u))
  {
    forall n | n in pods ensures pods[n].gates == [] ==> Ungated(pods[n]).gates == [] {
    }
  }

  // ---- What a pass reports ----

  function ClassOf(v: View, nodes: seq<Name>, c: Class): set<Name> {
    set n | n in nodes && Classify(v, n) == c
  }

  lemma ClassOfTail(v: View, nodes: seq<Name>, c: Class)
    requires Sorted(nodes) && nodes != []
    ensures |ClassOf(v, nodes, c)| == |ClassOf(v, nodes[1..], c)| + if Classify(v, nodes[0]) == c then 1 else 0
  {
    var s, t := ClassOf(v, nodes, c), ClassOf(v, nodes[1..], c);
    TailMembers(nodes, nodes[0]);
    forall n ensures n in s <==> n in t || (n == nodes[0] && Classify(v, n) == c) {
      TailMembers(nodes, n);
    }
    assert s == if Classify(v, nodes[0]) == c then t + {nodes[0]} else t;
  }

  /** On a list without duplicates, the number of nodes of a class is the size of that class. */
  lemma {:induction false} OfCount(v: View, nodes: seq<Name>, c: Class)
    requires Sorted(nodes)
    ensures |Of(v, nodes, c)| == |ClassOf(v, nodes, c)|
  {
    if nodes != [] {
      ClassOfTail(v, nodes, c);
      OfCount(v, nodes[1..], c);
    }
  }

  /** The status fields a forward pass derives. */
  ghost predicate Reports(hash: Hasher, i: Input, st: Status, currentWave: int)
    requires InputWf(i) && i.ready != []
  {
    var p, v := PassPlan(hash, i), ViewOf(hash, i);
    && st.updatedNodes == |Of(v, p.nodes, UpToDate)| && st.skippedNodes == Of(v, p.nodes, Skipped)
    && st.totalWaves == Total(p) && st.currentWave == currentWave
  }

  lemma AdvanceReports(hash: Hasher, i: Input)
    requires InputWf(i) && GoesForward(hash, i) && HasPending(hash, i)
    ensures Reports(hash, i, Pass(hash, i).status, OpenWave(hash, i))
  {
    var p, v := PassPlan(hash, i), ViewOf(hash, i);
    PassIsAdvance(hash, i);
    AdvanceKeepsCounts(i, Progress(BeginInput(hash, i), p, v), p, v);
  }

  lemma PassIsAdvance(hash: Hasher, i: Input)
    requires InputWf(i) && GoesForward(hash, i) && HasPending(hash, i)
    ensures var p, v := PassPlan(hash, i), ViewOf(hash, i);
            Pass(hash, i) == Advance(i, Progress(BeginInput(hash, i), p, v), p, v)
  {
  }

  lemma AdvanceKeepsCounts(i: Input, st: Status, p: Plan, v: View)
    requires InputWf(i) && PlanWf(p)
    ensures var st' := Advance(i, st, p, v).status;
            && st'.updatedNodes == st.updatedNodes && st'.skippedNodes == st.skippedNodes
            && st'.totalWaves == st.totalWaves && st'.currentWave == FirstOpenWave(v, p, 0)
  {
    FirstOpenInRange(v, p, 0);
  }

  lemma CompleteReports(hash: Hasher, i: Input)
    requires InputWf(i) && GoesForward(hash, i) && !HasPending(hash, i)
    ensures Reports(hash, i, Pass(hash, i).status,
                    if Holds(hash, i) then i.status.currentWave else Total(PassPlan(hash, i)))
  {
    var p, v := PassPlan(hash, i), ViewOf(hash, i);
    PassIsComplete(hash, i);
    CompleteActs(hash, i);
    CompleteKeepsCounts(i, Progress(BeginInput(hash, i), p, v), p, RenderBaseTemplate(i.spec), v);
  }

  lemma CompleteKeepsCounts(i: Input, st: Status, p: Plan, base: Template, v: View)
    requires InputWf(i) && PlanWf(p)
    ensures var o := Complete(i, st, p, base, v);
            && o.status.updatedNodes == st.updatedNodes && o.status.skippedNodes == st.skippedNodes
            && o.status.totalWaves == st.totalWaves
            && o.status.currentWave == if o.why == Untouched then st.currentWave else Total(p)
  {
  }

  lemma PassIsComplete(hash: Hasher, i: Input)
    requires InputWf(i) && GoesForward(hash, i) && !HasPending(hash, i)
    ensures var p, v := PassPlan(hash, i), ViewOf(hash, i);
            Pass(hash, i) == Complete(i, Progress(BeginInput(hash, i), p, v), p, RenderBaseTemplate(i.spec), v)
  {
  }

  /**
    * The progress a forward pass reports is true of the cluster: how many planned nodes are updated,
    * which are skipped, how many waves there are, and where the rollout stands.
    */
  lemma ReportedProgress(hash: Hasher, i: Input)
    requires InputWf(i) && GoesForward(hash, i) && Sorted(PassPlan(hash, i).nodes)
    ensures var st, p, v := Pass(hash, i).status, PassPlan(hash, i), ViewOf(hash, i);
            && st.updatedNodes == |set n | n in p.nodes && Updated(v, n)|
            && (forall n :: n in st.skippedNodes <==> n in p.nodes && !Updated(v, n) && n !in i.ready)
            && (st.totalWaves - 1) * p.waveSize < |p.nodes| <= st.totalWaves * p.waveSize
            && (HasPending(hash, i) ==>
                  && 0 <= st.currentWave < Total(p) && !WaveFullyUpdated(v, p, st.currentWave)
                  && forall u :: 0 <= u < st.currentWave ==> WaveFullyUpdated(v, p, u))
            && (!HasPending(hash, i) && !Holds(hash, i) ==> st.currentWave == st.totalWaves)
  {
    var st := Pass(hash, i).status;
    if HasPending(hash, i) {
      AdvanceReports(hash, i);
      ReportsMean(hash, i, st, OpenWave(hash, i));
      OpenWaveIsFirst(hash, i);
    } else {
      CompleteReports(hash, i);
      ReportsMean(hash, i, st, if Holds(hash, i) then i.status.currentWave else Total(PassPlan(hash, i)));
    }
  }

  lemma ReportsMean(hash: Hasher, i: Input, st: Status, currentWave: int)
    requires InputWf(i) && i.ready != [] && Sorted(PassPlan(hash, i).nodes) && Reports(hash, i, st, currentWave)
    ensures var p, v := PassPlan(hash, i), ViewOf(hash, i);
            && st.updatedNodes == |set n | n in p.nodes && Updated(v, n)|
            && (forall n :: n in st.skippedNodes <==> n in p.nodes && !Updated(v, n) && n !in i.ready)
            && (st.totalWaves - 1) * p.waveSize < |p.nodes| <= st.totalWaves * p.waveSize
  {
    CountsMean(ViewOf(hash, i), PassPlan(hash, i));
  }

  lemma OpenWaveIsFirst(hash: Hasher, i: Input)
    requires InputWf(i) && i.ready != [] && HasPending(hash, i)
    ensures var p, v, w := PassPlan(hash, i), ViewOf(hash, i), OpenWave(hash, i);
            && 0 <= w < Total(p) && !WaveFullyUpdated(v, p, w)
            && forall u :: 0 <= u < w ==> WaveFullyUpdated(v, p, u)
  {
    CurrentWaveExists(ViewOf(hash, i), PassPlan(hash, i));
  }

  lemma CountsMean(v: View, p: Plan)
    requires PlanWf(p) && Sorted(p.nodes)
    ensures |Of(v, p.nodes, UpToDate)| == |set n | n in p.nodes && Updated(v, n)|
    ensures forall n :: n in Of(v, p.nodes, Skipped) <==> n in p.nodes && !Updated(v, n) && n !in v.ready
    ensures (Total(p) - 1) * p.waveSize < |p.nodes| <= Total(p) * p.waveSize
  {
    OfCount(v, p.nodes, UpToDate);
    assert ClassOf(v, p.nodes, UpToDate) == set n | n in p.nodes && Updated(v, n);
    forall n ensures n in Of(v, p.nodes, Skipped) <==> n in p.nodes && Classify(v, n) == Skipped {
      OfMembers(v, p.nodes, Skipped, n);
    }
    CeilDivBounds(|p.nodes|, p.waveSize);
  }

  /** What a pass that completes the plan, with its final gate passed or absent, saw and writes. */
  lemma DoneMeaning(hash: Hasher, i: Input)
    requires InputWf(i) && PodsWf(i.pods) && Pass(hash, i).why.Adoption?
    ensures var o := Pass(hash, i);
            var p := PassPlan(hash, i);
            var v := ViewOf(hash, i);
            && GoesForward(hash, i) && o.status.phase == Done && o.why.key == Key(p)
            && (forall n :: n in p.nodes ==> Updated(v, n) || n !in i.ready)
            && |p.nodes| - o.status.updatedNodes == |o.status.skippedNodes|
            && (forall n :: n in o.status.skippedNodes <==> n in p.nodes && !Updated(v, n))
            && (forall n :: n in o.ungs ==> n !in p.nodes && n in i.ready) && o.dels == {}
            && o.status.lastGood == Some(LastGood(v.hash, TemplateImage(i.spec, RenderBaseTemplate(i.spec)),
                RenderBaseTemplate(i.spec)))
  {
    ForwardCases(hash, i);
    CompletionWrites(hash, i);
    NothingPendingView(ViewOf(hash, i), PassPlan(hash, i).nodes);
  }

  lemma CompletionWrites(hash: Hasher, i: Input)
    requires InputWf(i) && GoesForward(hash, i) && !HasPending(hash, i) && !Holds(hash, i)
    ensures var o, p, v, base := Pass(hash, i), PassPlan(hash, i), ViewOf(hash, i), RenderBaseTemplate(i.spec);
            && o.status.phase == Done && o.dels == {} && o.ungs == Adoptable(v)
            && o.status.updatedNodes == |Of(v, p.nodes, UpToDate)| && o.status.skippedNodes == Of(v, p.nodes, Skipped)
            && o.status.lastGood == Some(LastGood(v.hash, TemplateImage(i.spec, base), base))
  {
  }

  /** With nothing pending, every listed node is updated or away, and none is adopted. */
  lemma NothingPendingView(v: View, nodes: seq<Name>)
    requires PodsWf(v.pods) && |Of(v, nodes, Pending)| == 0
    ensures forall n :: n in nodes ==> Updated(v, n) || n !in v.ready
    ensures |nodes| - |Of(v, nodes, UpToDate)| == |Of(v, nodes, Skipped)|
    ensures forall n :: n in Of(v, nodes, Skipped) <==> n in nodes && !Updated(v, n)
    ensures forall n :: n in Adoptable(v) ==> n !in nodes
  {
    NoneOf(v, nodes, Pending);
    Conservation(v, nodes);
    forall n ensures n in Of(v, nodes, Skipped) <==> n in nodes && Classify(v, n) == Skipped {
      OfMembers(v, nodes, Skipped, n);
    }
    forall n | n in Adoptable(v) ensures !Updated(v, n) {
      assert v.pods[n].gates != [];
    }
  }

  /** A stale pod that lost its gate but was never scheduled is out of reach of every pass. */
  lemma UnscheduledStalePodIsNeverTouched(hash: Hasher, i: Input, n: Name)
    requires InputWf(i) && n in i.pods
    requires PodHash(i.pods[n]) != ViewOf(hash, i).hash && !PodGated(i.pods[n]) && !Scheduled(i.pods[n])
    ensures n !in Pass(hash, i).dels && n !in Pass(hash, i).ungs
  {
    PassTouchesTheRightPods(hash, i);
  }

  /** Going forward, a scheduled pod on a node outside the plan is out of reach, stale or not. */
  lemma UnplannedScheduledPodIsNeverTouched(hash: Hasher, i: Input, n: Name)
    requires InputWf(i) && PodsWf(i.pods) && n in i.pods && Scheduled(i.pods[n]) && i.ready != []
    requires BeginInput(hash, i).rollback.None? && n !in PassPlan(hash, i).nodes
    ensures n !in Pass(hash, i).dels && n !in Pass(hash, i).ungs
  {
    var o := Pass(hash, i);
    PassTouchesTheRightPods(hash, i);
    assert i.pods[n].gates == [];
    if o.why.InWave? {
      WaveOrder(hash, i);
      var p := PassPlan(hash, i);
      if n in o.dels {
        WaveInRange(|p.nodes|, p.waveSize, o.why.wave);
        var k := IndexInSlice(p.nodes, p.waveSize, o.why.wave, n);
        assert false;
      }
    } else if GoesForward(hash, i) {
      ForwardCases(hash, i);
      if o.why.Adoption? {
        CompleteCases(hash, i);
        AdoptionScope(hash, i);
      }
    }
  }
}
