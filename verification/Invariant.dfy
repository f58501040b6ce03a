/** Every step of the protocol keeps the invariant. */
module Invariant {
  import opened Prelude
  import opened Api
  import opened Templates
  import opened Gates
  import opened Engine
  import opened PassProperties
  import opened GateProperties
  import opened Protocol

  // ---- History only grows ----

  predicate Grows(log: seq<Event>, log': seq<Event>) {
    forall e :: e in log ==> e in log'
  }

  lemma StatusGoodLater(hash: Hasher, st: Status, now: int, now': int, log: seq<Event>, log': seq<Event>)
    requires StatusGood(hash, st, now, log) && now <= now' && Grows(log, log')
    ensures StatusGood(hash, st, now', log')
  {
  }

  lemma JustifiedLater(hash: Hasher, log: seq<Event>, log': seq<Event>, why: Why, i: Input)
    requires Justified(hash, log, why, i) && Grows(log, log')
    ensures Justified(hash, log', why, i)
  {
  }

  lemma LogAppend(hash: Hasher, log: seq<Event>, e: Event)
    requires LogOk(hash, log) && EventOk(hash, log, e)
    ensures LogOk(hash, log + [e]) && Grows(log, log + [e])
  {
    forall k | 0 <= k < |log| + 1 ensures EventOk(hash, (log + [e])[..k], (log + [e])[k]) {
      if k < |log| {
        assert (log + [e])[..k] == log[..k];
      } else {
        assert (log + [e])[..k] == log;
      }
    }
  }

  // ---- A pass over a good status ----

  lemma PassPlanGood(hash: Hasher, i: Input, log: seq<Event>)
    requires InputWf(i) && i.ready != [] && Sorted(i.ready) && StatusGood(hash, i.status, i.now, log)
    ensures PlanGood(PassPlan(hash, i), i.now, log)
    ensures Total(PassPlan(hash, i)) >= 1
  {
    TotalPositive(PassPlan(hash, i));
  }

  lemma GateWaveInRange(hash: Hasher, i: Input)
    requires InputWf(i) && GateWave(hash, i).Some?
    ensures 0 <= GateWave(hash, i).value < Total(PassPlan(hash, i))
    ensures EarlierWavesUpdated(Key(PassPlan(hash, i)), GateWave(hash, i).value + 1, ViewOf(hash, i))
    ensures ViewOf(hash, i).hash == PassPlan(hash, i).hash
  {
    var p := PassPlan(hash, i);
    var v := ViewOf(hash, i);
    TotalPositive(p);
    NothingPendingIff(v, p);
    if HasPending(hash, i) {
      CurrentWaveExists(v, p);
    }
    UpdatedThrough(p, v, GateWave(hash, i).value + 1);
  }

  lemma PassEventOk(hash: Hasher, i: Input, log: seq<Event>)
    requires InputWf(i) && LogOk(hash, log)
    ensures LogOk(hash, log + PassLog(i, Pass(hash, i)))
    ensures Grows(log, log + PassLog(i, Pass(hash, i)))
    ensures |PassLog(i, Pass(hash, i))| <= 1
  {
    var o := Pass(hash, i);
    var added := PassLog(i, o);
    if added == [] {
      assert log + added == log;
    } else {
      assert GoesForward(hash, i);
      ForwardCases(hash, i);
      GateVerdict(hash, i);
      GateWaveInRange(hash, i);
      assert EventOk(hash, log, added[0]);
      LogAppend(hash, log, added[0]);
    }
  }

  /** Passing a gate is logged under the plan it was passed for. */
  lemma PassedIsLogged(hash: Hasher, i: Input, log: seq<Event>)
    requires InputWf(i) && GateWave(hash, i).Some? && PassGate(hash, i).verdict == Decided(GatePass)
    ensures HasPass(log + PassLog(i, Pass(hash, i)), Key(PassPlan(hash, i)), GateWave(hash, i).value)
  {
    ForwardCases(hash, i);
    var added := PassLog(i, Pass(hash, i));
    assert added[0] in log + added;
  }

  /** The plan a consulted gate leaves behind. */
  lemma GatePlanGood(hash: Hasher, i: Input, log: seq<Event>)
    requires InputWf(i) && GateWave(hash, i).Some? && PlanGood(PassPlan(hash, i), i.now, log)
    ensures PlanGood(PassGate(hash, i).plan, i.now, log + PassLog(i, Pass(hash, i)))
  {
    var log' := log + PassLog(i, Pass(hash, i));
    var p := PassPlan(hash, i);
    var g := PassGate(hash, i);
    assert Grows(log, log');
    GateVerdict(hash, i);
    GateWaveInRange(hash, i);
    assert PlanGood(p, i.now, log');
    if g.verdict == Decided(GatePass) {
      PassedIsLogged(hash, i, log);
    }
  }

  lemma ForwardStatusGood(hash: Hasher, i: Input, log: seq<Event>)
    requires InputWf(i) && Sorted(i.ready) && StatusGood(hash, i.status, i.now, log) && GoesForward(hash, i)
    ensures var st := Pass(hash, i).status;
            && st.plan.Some? && PlanGood(st.plan.value, i.now, log + PassLog(i, Pass(hash, i)))
            && (st.lastGood.Some? ==> hash(st.lastGood.value.template) == st.lastGood.value.hash)
            && (st.lastGood == i.status.lastGood || Pass(hash, i).why.Adoption?)
  {
    assert Grows(log, log + PassLog(i, Pass(hash, i)));
    PassPlanGood(hash, i, log);
    ForwardCases(hash, i);
    if GateWave(hash, i).Some? {
      GatePlanGood(hash, i, log);
    }
  }

  lemma PassStatusGood(hash: Hasher, i: Input, log: seq<Event>)
    requires InputWf(i) && Sorted(i.ready) && StatusGood(hash, i.status, i.now, log)
    ensures StatusGood(hash, Pass(hash, i).status, i.now, log + PassLog(i, Pass(hash, i)))
  {
    var o := Pass(hash, i);
    var log' := log + PassLog(i, o);
    assert Grows(log, log');
    RollbackStartsIff(hash, i);
    if GoesForward(hash, i) {
      ForwardStatusGood(hash, i, log);
      if o.status.rollback.Some? {
        DueIsBelowTotal(hash, i);
      }
    } else {
      StatusGoodLater(hash, i.status, i.now, i.now, log, log');
      assert o.status.plan == i.status.plan && o.status.lastGood == i.status.lastGood;
    }
  }

  /** The wave whose failure starts a rollback is not latched, so the mark is below the total. */
  lemma DueIsBelowTotal(hash: Hasher, i: Input)
    requires InputWf(i) && RollbackDue(hash, i)
    ensures var p := Pass(hash, i).status.plan; p.Some? && p.value.gatedWaves < Total(p.value)
  {
    ForwardCases(hash, i);
    GateVerdict(hash, i);
    PassGateEffect(hash, i);
    GateWaveInRange(hash, i);
  }

  lemma PassGateEffect(hash: Hasher, i: Input)
    requires InputWf(i) && GateWave(hash, i).Some?
    ensures var p, w, r := PassPlan(hash, i), GateWave(hash, i).value, PassGate(hash, i);
            && PlanWf(r.plan) && Key(r.plan) == Key(p)
            && (r.verdict == Latched ==> r.plan == p)
            && r.plan.gatedWaves == (if r.verdict == Decided(GatePass) then w + 1 else p.gatedWaves)
            && (r.verdict == Decided(GatePass) ==> r.plan.evaluatingWave.None?)
            && (!Promotes(r.verdict) ==>
                  && r.plan.evaluatingWave == Some(w)
                  && r.plan.gateStartedAt.value == if p.evaluatingWave == Some(w) then p.gateStartedAt.value else i.now)
  {
    GateEffect(PassPlan(hash, i), i.spec.gate.value, GateWave(hash, i).value, i.now, i.reply, i.spec.policy,
        i.status.lastGood);
  }

  /** How a pass moves the mark: to one past the wave that passed, and otherwise not at all. */
  lemma PassMark(hash: Hasher, i: Input)
    requires InputWf(i)
    ensures var o := Pass(hash, i);
            && (PassesGate(o) ==>
                  && GateWave(hash, i) == Some(o.consult.wave) && PassGate(hash, i).verdict == Decided(GatePass)
                  && Key(o.status.plan.value) == Key(PassPlan(hash, i))
                  && o.status.plan.value.gatedWaves == o.consult.wave + 1)
            && (GoesForward(hash, i) && !PassesGate(o) ==>
                  && o.status.plan.Some? && Key(o.status.plan.value) == Key(PassPlan(hash, i))
                  && o.status.plan.value.gatedWaves == PassPlan(hash, i).gatedWaves)
            && (!GoesForward(hash, i) ==> o.status.plan == i.status.plan && !PassesGate(o))
  {
    if GoesForward(hash, i) {
      ForwardCases(hash, i);
      if GateWave(hash, i).Some? {
        PassGateEffect(hash, i);
      }
    }
  }

  lemma PassJustified(hash: Hasher, i: Input, log: seq<Event>)
    requires InputWf(i) && Sorted(i.ready) && StatusGood(hash, i.status, i.now, log)
    requires i.status.lastGood.Some? ==> HasCompleted(log, i.status.lastGood.value.hash)
    requires Pass(hash, i).why != Untouched
    ensures Justified(hash, log + PassLog(i, Pass(hash, i)), Pass(hash, i).why, i)
  {
    var o := Pass(hash, i);
    var log' := log + PassLog(i, o);
    assert Grows(log, log');
    if GoesForward(hash, i) {
      PassPlanGood(hash, i, log);
      ForwardJustified(hash, i, log, log');
    }
  }

  lemma UpdatedThrough(p: Plan, v: View, last: int)
    requires PlanWf(p) && 0 <= last <= Total(p)
    requires forall u :: 0 <= u < last ==> WaveFullyUpdated(v, p, u)
    ensures EarlierWavesUpdated(Key(p), last, v)
  {
    forall u, n | 0 <= u < last && InWaveOf(Key(p), u, n) && n in v.ready ensures Updated(v, n) {
      assert WaveFullyUpdated(v, p, u) && n in Wave(p, u);
    }
  }

  /** A gate that promotes has passed now or earlier, for this wave or a later one. */
  lemma PromotionIsLogged(hash: Hasher, i: Input, log: seq<Event>, log': seq<Event>)
    requires InputWf(i) && GateWave(hash, i).Some? && Promotes(PassGate(hash, i).verdict)
    requires log' == log + PassLog(i, Pass(hash, i))
    requires PlanGood(PassPlan(hash, i), i.now, log)
    ensures HasPassFrom(log', Key(PassPlan(hash, i)), GateWave(hash, i).value)
    ensures GateWave(hash, i).value == Total(PassPlan(hash, i)) - 1 ==>
              HasPass(log', Key(PassPlan(hash, i)), GateWave(hash, i).value)
  {
    var p := PassPlan(hash, i);
    GateWaveInRange(hash, i);
    if PassGate(hash, i).verdict == Decided(GatePass) {
      PassedIsLogged(hash, i, log);
    } else {
      GateVerdict(hash, i);
      assert Grows(log, log');
      assert HasPass(log', Key(p), p.gatedWaves - 1);
    }
  }

  lemma ForwardJustified(hash: Hasher, i: Input, log: seq<Event>, log': seq<Event>)
    requires InputWf(i) && GoesForward(hash, i)
    requires log' == log + PassLog(i, Pass(hash, i))
    requires PlanGood(PassPlan(hash, i), i.now, log)
    requires Pass(hash, i).why != Untouched
    ensures Justified(hash, log', Pass(hash, i).why, i)
  {
    var p := PassPlan(hash, i);
    var v := ViewOf(hash, i);
    TotalPositive(p);
    NothingPendingIff(v, p);
    if HasPending(hash, i) {
      AdvanceCases(hash, i);
      CurrentWaveExists(v, p);
      UpdatedThrough(p, v, FirstOpenWave(v, p, 0));
    } else {
      CompleteCases(hash, i);
      UpdatedThrough(p, v, Total(p));
    }
    if GateWave(hash, i).Some? {
      PromotionIsLogged(hash, i, log, log');
    }
  }

  /** How a pass may change the plan: keep it, or carry this generation's plan with a mark that only rises. */
  lemma PassPlanEvolves(hash: Hasher, i: Input)
    requires InputWf(i)
    ensures var p := Pass(hash, i).status.plan;
            p == i.status.plan
            || (p.Some? && p.value.gen == i.gen && p.value.hash == CurrentHash(hash, i.spec)
                && (PlanCurrent(i.status.plan, CurrentHash(hash, i.spec), i.gen) ==>
                      Key(p.value) == Key(i.status.plan.value) && i.status.plan.value.gatedWaves <= p.value.gatedWaves))
  {
    if GoesForward(hash, i) {
      ForwardCases(hash, i);
    }
  }

  // ---- The controller's steps ----

  /** Events other than latches leave the latch bookkeeping alone. */
  lemma LatchesGoodLater(st: Status, log: seq<Event>, added: seq<Event>)
    requires LatchesGood(st, log) && forall e :: e in added ==> !e.Latch?
    ensures LatchesGood(st, log + added)
  {
    assert Grows(log, log + added);
  }

  lemma ObserveJobGood(hash: Hasher, w: World, reply: Reply)
    requires Inv(hash, w) && Enabled(w, Observe(reply))
    ensures JobGood(hash, Next(hash, w, Observe(reply)))
  {
    var i := Observation(w, reply);
    var o := Pass(hash, i);
    PassStatusGood(hash, i, w.log);
    if o.why != Untouched {
      PassJustified(hash, i, w.log);
    } else {
      UntouchedWritesNothing(hash, i);
    }
    PassTouchesTheRightPods(hash, i);
  }

  lemma ObserveKeepsInv(hash: Hasher, w: World, reply: Reply)
    requires Inv(hash, w) && Enabled(w, Observe(reply))
    ensures Inv(hash, Next(hash, w, Observe(reply)))
  {
    var i := Observation(w, reply);
    var added := PassLog(i, Pass(hash, i));
    ObserveJobGood(hash, w, reply);
    PassEventOk(hash, i, w.log);
    StatusGoodLater(hash, w.status, w.clock, w.clock, w.log, w.log + added);
    LatchesGoodLater(w.status, w.log, added);
  }

  lemma UntouchedWritesNothing(hash: Hasher, i: Input)
    requires InputWf(i) && Pass(hash, i).why == Untouched
    ensures Pass(hash, i).dels + Pass(hash, i).ungs == {}
  {
    if GoesForward(hash, i) {
      ForwardCases(hash, i);
    }
  }

  /** The latches of the plan a pass works on: none when the plan is new. */
  lemma MarkOfPassPlan(hash: Hasher, w: World, i: Input)
    requires InputWf(i) && i.ready != [] && i.status == w.status && i.gen == w.gen && i.spec == w.spec
    requires PlanOfGen(hash, w.status, w.gen, w.spec) && LatchesGood(w.status, w.log)
    ensures var p := PassPlan(hash, i);
            && (p.gatedWaves > 0 ==> HasLatch(w.log, Key(p), p.gatedWaves - 1))
            && (forall e :: e in w.log && e.Latch? ==>
                  && e.key.gen <= p.gen && (e.key.gen == p.gen ==> e.key == Key(p) && e.wave < p.gatedWaves))
  {
  }

  lemma LatchIsOk(hash: Hasher, w: World, i: Input)
    requires InputWf(i) && i.status == w.status && i.gen == w.gen && i.spec == w.spec && PassesGate(Pass(hash, i))
    requires PlanOfGen(hash, w.status, w.gen, w.spec) && LatchesGood(w.status, w.log)
    requires StatusGood(hash, Pass(hash, i).status, w.clock, w.log) && StatusGood(hash, w.status, w.clock, w.log)
    ensures LatchLog(i, Pass(hash, i)) != [] && EventOk(hash, w.log, LatchLog(i, Pass(hash, i))[0])
  {
    PassMark(hash, i);
    GateVerdict(hash, i);
    MarkOfPassPlan(hash, w, i);
  }

  /** The mark's bookkeeping across a persisted status. */
  lemma PersistLatches(hash: Hasher, w: World, i: Input, o: Outcome)
    requires InputWf(i) && o == Pass(hash, i) && i.status == w.status && i.gen == w.gen && i.spec == w.spec
    requires PlanOfGen(hash, w.status, w.gen, w.spec) && LatchesGood(w.status, w.log)
    ensures LatchesGood(o.status, w.log + LatchLog(i, o))
    ensures PlanOfGen(hash, o.status, w.gen, w.spec)
  {
    PassMark(hash, i);
    var log' := w.log + LatchLog(i, o);
    assert Grows(w.log, log');
    if GoesForward(hash, i) {
      MarkOfPassPlan(hash, w, i);
      if PassesGate(o) {
        assert log'[|w.log|] in log';
        assert HasLatch(log', Key(o.status.plan.value), o.consult.wave);
      }
    }
  }

  lemma LogAppendAtMostOne(hash: Hasher, log: seq<Event>, added: seq<Event>)
    requires LogOk(hash, log) && |added| <= 1 && (added != [] ==> EventOk(hash, log, added[0]))
    ensures LogOk(hash, log + added) && Grows(log, log + added)
  {
    if added == [] {
      assert log + added == log;
    } else {
      assert added == [added[0]];
      LogAppend(hash, log, added[0]);
    }
  }

  lemma LatchLogOk(hash: Hasher, w: World, i: Input, o: Outcome)
    requires InputWf(i) && o == Pass(hash, i) && i.status == w.status && i.gen == w.gen && i.spec == w.spec
    requires PlanOfGen(hash, w.status, w.gen, w.spec) && LatchesGood(w.status, w.log) && LogOk(hash, w.log)
    requires StatusGood(hash, o.status, w.clock, w.log) && StatusGood(hash, w.status, w.clock, w.log)
    ensures LogOk(hash, w.log + LatchLog(i, o)) && Grows(w.log, w.log + LatchLog(i, o))
  {
    if PassesGate(o) {
      LatchIsOk(hash, w, i);
    }
    LogAppendAtMostOne(hash, w.log, LatchLog(i, o));
  }

  lemma RollbackLogOk(hash: Hasher, log: seq<Event>, i: Input, o: Outcome)
    requires LogOk(hash, log)
    requires o.status.rollback.Some? && BeginInput(hash, i).rollback.None? ==> InputWf(i) && RollbackDue(hash, i)
    ensures LogOk(hash, log + RollbackLog(hash, i, o))
  {
    LogAppendAtMostOne(hash, log, RollbackLog(hash, i, o));
  }

  /** What a status write adds after the latch. */
  lemma PersistLog(hash: Hasher, log: seq<Event>, i: Input, o: Outcome)
    requires LogOk(hash, log) && (o.why.Adoption? ==> Justified(hash, log, o.why, i))
    requires o.status.rollback.Some? && BeginInput(hash, i).rollback.None? ==> InputWf(i) && RollbackDue(hash, i)
    ensures LogOk(hash, log + (CompletedLog(i, o) + RollbackLog(hash, i, o)))
  {
    CompletedLogOk(hash, log, i, o);
    RollbackLogOk(hash, log + CompletedLog(i, o), i, o);
    assert log + CompletedLog(i, o) + RollbackLog(hash, i, o) == log + (CompletedLog(i, o) + RollbackLog(hash, i, o));
  }

  lemma CompletedLogOk(hash: Hasher, log: seq<Event>, i: Input, o: Outcome)
    requires LogOk(hash, log) && (o.why.Adoption? ==> Justified(hash, log, o.why, i))
    ensures LogOk(hash, log + CompletedLog(i, o))
  {
    LogAppendAtMostOne(hash, log, CompletedLog(i, o));
  }

  lemma WriteStatusKeepsInv(hash: Hasher, w: World)
    requires Inv(hash, w) && Enabled(w, WriteStatus)
    ensures Inv(hash, Next(hash, w, WriteStatus))
  {
    var i, o := w.job.input, w.job.outcome;
    if w.gen == i.gen {
      assert Grows(w.log, w.log + StatusLog(hash, i, o));
      PersistBookkeeping(hash, w, i, o);
      LatchLogOk(hash, w, i, o);
      NewRollbackIsDue(hash, i);
      PersistEvents(hash, w, i, o);
      StatusGoodLater(hash, o.status, w.clock, w.clock, w.log, w.log + StatusLog(hash, i, o));
      CompletedIsLogged(hash, w, i, o);
    } else {
      JobEndsKeepsInv(hash, w);
    }
  }

  lemma PersistEvents(hash: Hasher, w: World, i: Input, o: Outcome)
    requires LogOk(hash, w.log + LatchLog(i, o)) && Grows(w.log, w.log + LatchLog(i, o))
    requires o.why.Adoption? ==> Justified(hash, w.log, o.why, i)
    requires o.status.rollback.Some? && BeginInput(hash, i).rollback.None? ==> InputWf(i) && RollbackDue(hash, i)
    ensures LogOk(hash, w.log + StatusLog(hash, i, o))
  {
    if o.why.Adoption? {
      JustifiedLater(hash, w.log, w.log + LatchLog(i, o), o.why, i);
    }
    PersistLog(hash, w.log + LatchLog(i, o), i, o);
    assert w.log + StatusLog(hash, i, o) == w.log + LatchLog(i, o) + (CompletedLog(i, o) + RollbackLog(hash, i, o));
  }

  lemma NewRollbackIsDue(hash: Hasher, i: Input)
    requires InputWf(i)
    ensures Pass(hash, i).status.rollback.Some? && BeginInput(hash, i).rollback.None? ==> RollbackDue(hash, i)
  {
    RollbackStartsIff(hash, i);
  }

  lemma PersistBookkeeping(hash: Hasher, w: World, i: Input, o: Outcome)
    requires InputWf(i) && o == Pass(hash, i) && i.status == w.status && i.gen == w.gen && i.spec == w.spec
    requires PlanOfGen(hash, w.status, w.gen, w.spec) && LatchesGood(w.status, w.log)
    ensures LatchesGood(o.status, w.log + StatusLog(hash, i, o)) && PlanOfGen(hash, o.status, w.gen, w.spec)
  {
    PersistLatches(hash, w, i, o);
    LatchesGoodLater(o.status, w.log + LatchLog(i, o), CompletedLog(i, o) + RollbackLog(hash, i, o));
    assert w.log + StatusLog(hash, i, o) == w.log + LatchLog(i, o) + (CompletedLog(i, o) + RollbackLog(hash, i, o));
  }

  lemma JobEndsKeepsInv(hash: Hasher, w: World)
    requires Inv(hash, w)
    ensures Inv(hash, w.(job := Idle))
  {
  }

  lemma JobShrinksKeepsInv(hash: Hasher, w: World, dels: set<Name>, ungs: set<Name>)
    requires Inv(hash, w) && w.job.Acting? && dels <= w.job.dels && ungs <= w.job.ungs
    ensures Inv(hash, w.(job := w.job.(dels := dels, ungs := ungs)))
  {
    var j := w.job;
    assert dels + ungs != {} ==> j.dels + j.ungs != {};
    assert StillThat(w.(job := j.(dels := dels, ungs := ungs)), j.input, j.outcome, dels);
  }

  lemma CompletedIsLogged(hash: Hasher, w: World, i: Input, o: Outcome)
    requires InputWf(i) && o == Pass(hash, i) && i.status == w.status
    requires w.status.lastGood.Some? ==> HasCompleted(w.log, w.status.lastGood.value.hash)
    ensures o.status.lastGood.Some? ==> HasCompleted(w.log + StatusLog(hash, i, o), o.status.lastGood.value.hash)
  {
    var log' := w.log + StatusLog(hash, i, o);
    assert Grows(w.log, log');
    if GoesForward(hash, i) {
      ForwardCases(hash, i);
    }
    if o.why.Adoption? {
      var e := Completed(o.why.key, i.spec.gate.Some?);
      assert e in StatusLog(hash, i, o);
      assert e in log';
    } else {
      assert o.status.lastGood == i.status.lastGood;
    }
  }

  /** What a pass writes is on Ready nodes, and inside the wave or outside the plan it says. */
  lemma WritesAreInScope(hash: Hasher, i: Input)
    requires InputWf(i) && PodsWf(i.pods)
    ensures var o := Pass(hash, i);
            && (o.ungs != {} ==> o.why != RuleA && o.why != Untouched)
            && (o.why.Adoption? ==> o.dels == {})
            && (forall n :: n in o.ungs ==> n in i.ready)
            && (o.why.InWave? ==> forall n :: n in o.dels + o.ungs ==> InWaveOf(o.why.key, o.why.wave, n))
            && (o.why.Adoption? ==> forall n :: n in o.ungs ==> n !in o.why.key.nodes)
  {
    var o := Pass(hash, i);
    if GoesForward(hash, i) {
      ForwardCases(hash, i);
    }
    if o.why.InWave? {
      WaveOrder(hash, i);
    }
    if o.why.Adoption? {
      DoneMeaning(hash, i);
    }
  }

  lemma RemovalOk(hash: Hasher, log: seq<Event>, i: Input, n: Name, pod: Pod)
    requires InputWf(i) && PodsWf(i.pods) && n in i.pods && n in Pass(hash, i).dels
        && pod.template == i.pods[n].template && pod.uid == i.pods[n].uid
    requires Justified(hash, log, Pass(hash, i).why, i)
    requires Pass(hash, i).why == RuleA ==> !Scheduled(pod)
    ensures EventOk(hash, log, Removed(n, pod, Pass(hash, i).why, i))
  {
    PassTouchesTheRightPods(hash, i);
    WritesAreInScope(hash, i);
    RemovedOk(hash, log, n, pod, Pass(hash, i).why, i);
  }

  lemma RemovedOk(hash: Hasher, log: seq<Event>, n: Name, pod: Pod, why: Why, i: Input)
    requires Justified(hash, log, why, i) && !why.Adoption? && PodHash(pod) != ViewOf(hash, i).hash
    requires n in i.pods && pod.uid == i.pods[n].uid
    requires why == RuleA ==> !Scheduled(pod)
    requires why != RuleA ==> n in i.ready
    requires why.InWave? ==> InWaveOf(why.key, why.wave, n)
    ensures EventOk(hash, log, Removed(n, pod, why, i))
  {
  }

  lemma ReleaseOk(hash: Hasher, log: seq<Event>, i: Input, n: Name)
    requires InputWf(i) && PodsWf(i.pods) && n in Pass(hash, i).ungs && n in i.pods
    requires Justified(hash, log, Pass(hash, i).why, i)
    ensures EventOk(hash, log, Released(n, i.pods[n], Pass(hash, i).why, i))
  {
    PassTouchesTheRightPods(hash, i);
    WritesAreInScope(hash, i);
  }

  /** One pod changes and stays the same pod. */
  lemma OnePodChanges(hash: Hasher, w: World, n: Name, p: Pod)
    requires PodsGood(hash, w.pods, w.nextUid) && n in w.pods && PodEdit(n, w.pods[n], p)
    ensures PodsGood(hash, w.pods[n := p], w.nextUid)
  {
  }

  lemma ThatPodChanges(hash: Hasher, w: World, n: Name, p: Pod, i: Input, o: Outcome, dels: set<Name>)
    requires StillThat(w, i, o, dels) && n in w.pods
    requires p.uid == w.pods[n].uid && p.template == w.pods[n].template
    requires o.why == RuleA && n in dels ==> PodGated(p) == PodGated(w.pods[n])
    ensures StillThat(w.(pods := w.pods[n := p]), i, o, dels)
  {
    var w' := w.(pods := w.pods[n := p]);
    forall m | SamePod(w', i, m) ensures SamePod(w, i, m) {
    }
  }

  lemma WriteDeleteKeepsInv(hash: Hasher, w: World, n: Name)
    requires Inv(hash, w) && Enabled(w, WriteDelete(n))
    ensures Inv(hash, Next(hash, w, WriteDelete(n)))
  {
    var i, o := w.job.input, w.job.outcome;
    if SamePod(w, i, n) {
      var p := w.pods[n];
      RemovalOk(hash, w.log, i, n, p);
      PodWriteKeeps(hash, w, n, Deleted(p), w.job.dels - {n}, w.job.ungs, Removed(n, p, o.why, i));
    } else {
      JobShrinksKeepsInv(hash, w, w.job.dels - {n}, w.job.ungs);
    }
  }

  lemma WriteUngateKeepsInv(hash: Hasher, w: World, n: Name)
    requires Inv(hash, w) && Enabled(w, WriteUngate(n))
    ensures Inv(hash, Next(hash, w, WriteUngate(n)))
  {
    var i, o := w.job.input, w.job.outcome;
    if !SamePod(w, i, n) {
      JobShrinksKeepsInv(hash, w, w.job.dels, w.job.ungs - {n});
    } else if w.pods[n] != i.pods[n] {
      JobEndsKeepsInv(hash, w);
    } else {
      ReleaseKeepsInv(hash, w, n);
    }
  }

  lemma ReleaseKeepsInv(hash: Hasher, w: World, n: Name)
    requires Inv(hash, w) && w.job.Acting? && n in w.job.ungs && SamePod(w, w.job.input, n)
    requires w.pods[n] == w.job.input.pods[n]
    ensures var i, o := w.job.input, w.job.outcome;
            Inv(hash, w.(job := w.job.(ungs := w.job.ungs - {n}), pods := w.pods[n := Ungated(w.pods[n])],
                         log := w.log + [Released(n, w.pods[n], o.why, i)]))
  {
    var i, o := w.job.input, w.job.outcome;
    ReleaseOk(hash, w.log, i, n);
    ReleaseIsNotRuleA(hash, i, n);
    UngatedIsAnEdit(w.pods[n], n);
    PodWriteKeeps(hash, w, n, Ungated(w.pods[n]), w.job.dels, w.job.ungs - {n}, Released(n, w.pods[n], o.why, i));
  }

  lemma ReleaseIsNotRuleA(hash: Hasher, i: Input, n: Name)
    requires InputWf(i) && PodsWf(i.pods) && n in Pass(hash, i).ungs
    ensures Pass(hash, i).why != RuleA
  {
    WritesAreInScope(hash, i);
  }

  lemma UngatedIsAnEdit(p: Pod, n: Name)
    requires p.gates != [] ==> !Scheduled(p)
    ensures PodEdit(n, p, Ungated(p))
  {
    UngateKeepsOtherGates(p.gates, 0);
  }

  /** The same pod, at most bound to its node, and unscheduled while it has any gate. */
  predicate PodEdit(n: Name, p: Pod, q: Pod) {
    && q.uid == p.uid && q.template == p.template && q.affinity == p.affinity
    && (q.nodeName == p.nodeName || (q.nodeName == n && q.gates == []))
    && (Scheduled(q) ==> q.gates == [])
  }

  /** One pod write: the log grows by an allowed event, the job shrinks, one pod changes in place. */
  lemma PodWriteKeeps(hash: Hasher, w: World, n: Name, p: Pod, dels: set<Name>, ungs: set<Name>, e: Event)
    requires Inv(hash, w) && w.job.Acting? && EventOk(hash, w.log, e) && !e.Latch?
    requires dels <= w.job.dels && ungs <= w.job.ungs && w.job.dels + w.job.ungs != {}
    requires n in w.pods && PodEdit(n, w.pods[n], p)
    requires w.job.outcome.why == RuleA ==> PodGated(p) == PodGated(w.pods[n])
    ensures Inv(hash, w.(job := w.job.(dels := dels, ungs := ungs), pods := w.pods[n := p], log := w.log + [e]))
  {
    OnePodChanges(hash, w, n, p);
    LogAppend(hash, w.log, e);
    StatusGoodLater(hash, w.status, w.clock, w.clock, w.log, w.log + [e]);
    LatchesGoodLater(w.status, w.log, [e]);
    PodWriteKeepsJob(hash, w, n, p, dels, ungs, e);
  }

  lemma PodWriteKeepsJob(hash: Hasher, w: World, n: Name, p: Pod, dels: set<Name>, ungs: set<Name>, e: Event)
    requires JobGood(hash, w) && w.job.Acting? && n in w.pods
    requires dels <= w.job.dels && ungs <= w.job.ungs && w.job.dels + w.job.ungs != {}
    requires p.uid == w.pods[n].uid && p.template == w.pods[n].template
    requires w.job.outcome.why == RuleA ==> PodGated(p) == PodGated(w.pods[n])
    ensures JobGood(hash, w.(job := w.job.(dels := dels, ungs := ungs), pods := w.pods[n := p], log := w.log + [e]))
  {
    var i, o := w.job.input, w.job.outcome;
    ThatPodChanges(hash, w, n, p, i, o, w.job.dels);
    assert Grows(w.log, w.log + [e]);
    StatusGoodLater(hash, o.status, w.clock, w.clock, w.log, w.log + [e]);
    JustifiedLater(hash, w.log, w.log + [e], o.why, i);
  }

  lemma SyncKeepsInv(hash: Hasher, w: World)
    requires Inv(hash, w) && Enabled(w, SyncDaemonSet)
    ensures Inv(hash, Next(hash, w, SyncDaemonSet))
  {
    var st := Begin(w.status, w.job.gen, CurrentHash(hash, w.job.spec));
    var base := DesiredBase(w.job.spec, st);
    assert DesiredHash(hash, w.job.spec, st) == hash(base);
    assert RenderedFrom(Next(hash, w, SyncDaemonSet).ds.value, base, hash(base));
  }

  // ---- The environment's steps ----

  /** What a step of the environment may do to the world without touching job, status or log. */
  lemma WorldStepKeepsInv(hash: Hasher, w: World, w': World)
    requires Inv(hash, w)
    requires w' == w.(nodes := w'.nodes, pods := w'.pods, nextUid := w'.nextUid, clock := w'.clock)
    requires PodsGood(hash, w'.pods, w'.nextUid) && "" !in w'.nodes && w.clock <= w'.clock
    requires w.job.Acting? ==> StillThat(w', w.job.input, w.job.outcome, w.job.dels)
    ensures Inv(hash, w')
  {
    StatusGoodLater(hash, w.status, w.clock, w'.clock, w.log, w.log);
    if w.job.Acting? {
      StatusGoodLater(hash, w.job.outcome.status, w.clock, w'.clock, w.log, w.log);
    }
  }

  lemma CreateKeepsInv(hash: Hasher, w: World, n: Name, before: seq<string>, after: seq<string>)
    requires Inv(hash, w) && Enabled(w, Create(n, before, after))
    ensures Inv(hash, Next(hash, w, Create(n, before, after)))
  {
    var p := NewPod(w.ds.value, n, w.nextUid, before, after);
    BornAtTarget(w.ds.value, n, w.nextUid, before, after);
    NewPodIsGood(hash, w, n, p);
    WorldStepKeepsInv(hash, w, w.(pods := w.pods[n := p], nextUid := w.nextUid + 1));
  }

  lemma NewPodIsGood(hash: Hasher, w: World, n: Name, p: Pod)
    requires PodsGood(hash, w.pods, w.nextUid) && n !in w.pods && n != ""
    requires p.uid == w.nextUid && RenderedOfSomeBase(hash, p.template) && !Scheduled(p) && PodTargetNode(p) == n
    ensures PodsGood(hash, w.pods[n := p], w.nextUid + 1)
    ensures w.job.Acting? && StillThat(w, w.job.input, w.job.outcome, w.job.dels) ==>
              StillThat(w.(pods := w.pods[n := p], nextUid := w.nextUid + 1), w.job.input, w.job.outcome, w.job.dels)
  {
  }

  lemma VanishKeepsInv(hash: Hasher, w: World, n: Name)
    requires Inv(hash, w) && Enabled(w, Vanish(n))
    ensures Inv(hash, Next(hash, w, Vanish(n)))
  {
    PodsWithout(hash, w.pods, w.nextUid, n);
    if w.job.Acting? {
      StillThatWithout(w, w.job.input, w.job.outcome, w.job.dels, n);
    }
    WorldStepKeepsInv(hash, w, w.(pods := w.pods - {n}));
  }

  lemma PodsWithout(hash: Hasher, pods: map<Name, Pod>, nextUid: nat, n: Name)
    requires PodsGood(hash, pods, nextUid)
    ensures PodsGood(hash, pods - {n}, nextUid)
  {
  }

  lemma StillThatWithout(w: World, i: Input, o: Outcome, dels: set<Name>, n: Name)
    requires StillThat(w, i, o, dels)
    ensures StillThat(w.(pods := w.pods - {n}), i, o, dels)
  {
    forall m | SamePod(w.(pods := w.pods - {n}), i, m) ensures SamePod(w, i, m) {
    }
  }

  /** An eviction, a change of other gates, a binding or a readiness change of one pod. */
  lemma PodEditKeepsInv(hash: Hasher, w: World, n: Name, p: Pod)
    requires Inv(hash, w) && n in w.pods && PodEdit(n, w.pods[n], p) && PodGated(p) == PodGated(w.pods[n])
    ensures Inv(hash, w.(pods := w.pods[n := p]))
  {
    OnePodChanges(hash, w, n, p);
    if w.job.Acting? {
      ThatPodChanges(hash, w, n, p, w.job.input, w.job.outcome, w.job.dels);
    }
    WorldStepKeepsInv(hash, w, w.(pods := w.pods[n := p]));
  }

  lemma EditKeepsInv(hash: Hasher, w: World, spec: Spec)
    requires Inv(hash, w)
    ensures Inv(hash, Next(hash, w, Edit(spec)))
  {
  }

  predicate OfEnvironment(l: Label) {
    l.SetNode? || l.DropNode? || l.Evict? || l.Vanish? || l.Create? || l.Regate? || l.Schedule? || l.SetReady?
    || l.Tick? || l.Edit?
  }

  function EditedPod(l: Label, p: Pod): Pod {
    match l
    case Evict(_) => Deleted(p)
    case Regate(_, gates) => p.(gates := gates)
    case Schedule(n) => p.(nodeName := n)
    case SetReady(_, b) => p.(ready := b)
    case _ => p
  }

  predicate EditsAPod(l: Label) {
    l.Evict? || l.Regate? || l.Schedule? || l.SetReady?
  }

  lemma PodEditStepKeepsInv(hash: Hasher, w: World, l: Label)
    requires Inv(hash, w) && Enabled(w, l) && EditsAPod(l)
    ensures Inv(hash, Next(hash, w, l))
  {
    var p := w.pods[l.node];
    assert p.gates != [] ==> !Scheduled(p);
    PodEditKeepsInv(hash, w, l.node, EditedPod(l, p));
  }

  lemma SamePodsStillThat(w: World, w': World)
    requires w'.pods == w.pods && w'.nextUid == w.nextUid
    ensures forall i, o, dels :: StillThat(w, i, o, dels) ==> StillThat(w', i, o, dels)
  {
  }

  lemma SetNodeKeepsInv(hash: Hasher, w: World, n: Name, info: Node)
    requires Inv(hash, w) && n != ""
    ensures Inv(hash, Next(hash, w, SetNode(n, info)))
  {
    var w' := w.(nodes := w.nodes[n := info]);
    assert Next(hash, w, SetNode(n, info)) == w';
    SamePodsStillThat(w, w');
    WorldStepKeepsInv(hash, w, w');
  }

  lemma DropNodeKeepsInv(hash: Hasher, w: World, n: Name)
    requires Inv(hash, w) && n in w.nodes
    ensures Inv(hash, Next(hash, w, DropNode(n)))
  {
    var w' := w.(nodes := w.nodes - {n});
    assert Next(hash, w, DropNode(n)) == w';
    SamePodsStillThat(w, w');
    WorldStepKeepsInv(hash, w, w');
  }

  lemma TickKeepsInv(hash: Hasher, w: World, elapsed: nat)
    requires Inv(hash, w)
    ensures Inv(hash, Next(hash, w, Tick(elapsed)))
  {
    var w' := w.(clock := w.clock + elapsed);
    assert Next(hash, w, Tick(elapsed)) == w';
    SamePodsStillThat(w, w');
    WorldStepKeepsInv(hash, w, w');
  }

  /** A step of nodes, clock or spec. */
  lemma WorldChangeKeepsInv(hash: Hasher, w: World, l: Label)
    requires Inv(hash, w) && Enabled(w, l) && (l.SetNode? || l.DropNode? || l.Tick? || l.Edit?)
    ensures Inv(hash, Next(hash, w, l))
  {
    match l {
      case SetNode(n, info) => SetNodeKeepsInv(hash, w, n, info);
      case DropNode(n) => DropNodeKeepsInv(hash, w, n);
      case Tick(elapsed) => TickKeepsInv(hash, w, elapsed);
      case Edit(spec) => EditKeepsInv(hash, w, spec);
      case _ =>
    }
  }

  lemma EnvironmentKeepsInv(hash: Hasher, w: World, l: Label)
    requires Inv(hash, w) && Enabled(w, l) && OfEnvironment(l)
    ensures Inv(hash, Next(hash, w, l))
  {
    if EditsAPod(l) {
      PodEditStepKeepsInv(hash, w, l);
    } else if l.Create? {
      CreateKeepsInv(hash, w, l.node, l.before, l.after);
    } else if l.Vanish? {
      VanishKeepsInv(hash, w, l.node);
    } else {
      WorldChangeKeepsInv(hash, w, l);
    }
  }

  lemma QuietStepKeepsInv(hash: Hasher, w: World, l: Label)
    requires Inv(hash, w) && Enabled(w, l) && (l == Fetch || l == Crash)
    ensures Inv(hash, Next(hash, w, l))
  {
  }

  /** No step of the controller, of the cluster or of the user breaks the invariant. */
  lemma StepKeepsInv(hash: Hasher, w: World, l: Label)
    requires Inv(hash, w) && Enabled(w, l)
    ensures Inv(hash, Next(hash, w, l))
  {
    if OfEnvironment(l) {
      EnvironmentKeepsInv(hash, w, l);
    } else if l == Fetch || l == Crash {
      QuietStepKeepsInv(hash, w, l);
    } else if l == SyncDaemonSet {
      SyncKeepsInv(hash, w);
    } else if l.Observe? {
      ObserveKeepsInv(hash, w, l.reply);
    } else if l.WriteDelete? {
      WriteDeleteKeepsInv(hash, w, l.node);
    } else if l.WriteUngate? {
      WriteUngateKeepsInv(hash, w, l.node);
    } else {
      WriteStatusKeepsInv(hash, w);
    }
  }
}
