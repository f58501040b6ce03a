/** Plans, latches and rollbacks along whole runs: what is frozen, what only rises, what is sticky. */
module Stability {
  import opened Prelude
  import opened Api
  import opened Templates
  import opened Gates
  import opened Engine
  import opened PassProperties
  import opened GateProperties
  import opened Protocol
  import opened Invariant
  import opened Runs

  lemma OnlyWriteStatusChangesStatus(hash: Hasher, w: World, l: Label)
    requires Enabled(w, l) && Next(hash, w, l).status != w.status
    ensures l == WriteStatus && w.job.Acting? && w.job.input.gen == w.gen
    ensures Next(hash, w, l).status == w.job.outcome.status
  {
  }

  /** The persisted status changes only when a pass of the current generation is persisted. */
  lemma StatusStep(hash: Hasher, w: World, l: Label)
    requires Inv(hash, w) && Enabled(w, l) && Next(hash, w, l).status != w.status
    ensures l == WriteStatus && w.job.Acting? && InputWf(w.job.input) && w.job.outcome == Pass(hash, w.job.input)
    ensures Next(hash, w, l).status == w.job.outcome.status
    ensures w.job.input.status == w.status && w.job.input.gen == w.gen && w.job.input.spec == w.spec
  {
    OnlyWriteStatusChangesStatus(hash, w, l);
  }

  lemma GenerationRises(hash: Hasher, ws: seq<World>, ls: seq<Label>, i: nat, j: nat)
    requires IsRun(hash, ws, ls) && i <= j < |ws|
    ensures ws[i].gen <= ws[j].gen
    ensures ws[i].gen == ws[j].gen ==> ws[i].spec == ws[j].spec
    decreases j
  {
    if i < j {
      GenerationRises(hash, ws, ls, i, j - 1);
      assert Stepped(hash, ws, ls, j - 1);
      SpecStep(hash, ws[j - 1], ls[j - 1]);
    }
  }

  lemma SpecStep(hash: Hasher, w: World, l: Label)
    requires Enabled(w, l)
    ensures w.gen <= Next(hash, w, l).gen
    ensures w.gen == Next(hash, w, l).gen ==> w.spec == Next(hash, w, l).spec
  {
  }

  // ---- The plan is frozen and the mark only rises ----

  predicate PlanOfThisGeneration(w: World) {
    w.status.plan.Some? && w.status.plan.value.gen == w.gen
  }

  ghost predicate SamePlanHigherMark(w: World, w': World) {
    && w.status.plan.Some? && w'.status.plan.Some?
    && Key(w'.status.plan.value) == Key(w.status.plan.value)
    && w.status.plan.value.gatedWaves <= w'.status.plan.value.gatedWaves
  }

  lemma PlanStep(hash: Hasher, w: World, l: Label)
    requires Inv(hash, w) && Enabled(w, l) && PlanOfThisGeneration(w)
    ensures SamePlanHigherMark(w, Next(hash, w, l))
  {
    if Next(hash, w, l).status != w.status {
      StatusStep(hash, w, l);
      PassPlanEvolves(hash, w.job.input);
    }
  }

  /**
    * While the generation stays the same, the plan's nodes and wave size never change, whatever nodes
    * join, leave or flap, and its mark never falls.
    */
  lemma {:induction false} PlanIsImmutable(hash: Hasher, ws: seq<World>, ls: seq<Label>, i: nat, j: nat)
    requires IsRun(hash, ws, ls) && Initial(ws[0]) && i <= j < |ws|
    requires PlanOfThisGeneration(ws[i]) && ws[j].gen == ws[i].gen
    ensures SamePlanHigherMark(ws[i], ws[j])
    decreases j
  {
    if i < j {
      GenerationRises(hash, ws, ls, i, j - 1);
      GenerationRises(hash, ws, ls, j - 1, j);
      PlanIsImmutable(hash, ws, ls, i, j - 1);
      RunKeepsInv(hash, ws, ls, j - 1);
      assert Stepped(hash, ws, ls, j - 1);
      PlanStep(hash, ws[j - 1], ls[j - 1]);
    }
  }

  /**
    * The mark is 0 while nothing was latched under the plan, and otherwise one past the highest wave
    * latched under it; every latched wave's gate did pass under it.
    */
  lemma MarkMeaning(hash: Hasher, ws: seq<World>, ls: seq<Label>, k: nat)
    requires IsRun(hash, ws, ls) && Initial(ws[0]) && k < |ws| && ws[k].status.plan.Some?
    ensures var p := ws[k].status.plan.value;
            var log := ws[k].log;
            && p.waveSize >= 1 && 0 <= p.gatedWaves <= Total(p)
            && (forall u :: HasLatch(log, Key(p), u) ==> u < p.gatedWaves && HasPass(log, Key(p), u))
            && (p.gatedWaves == 0 <==> forall u :: !HasLatch(log, Key(p), u))
            && (p.gatedWaves > 0 ==> HasLatch(log, Key(p), p.gatedWaves - 1))
  {
    RunKeepsInv(hash, ws, ls, k);
    var p := ws[k].status.plan.value;
    var log := ws[k].log;
    forall u | HasLatch(log, Key(p), u) ensures u < p.gatedWaves && HasPass(log, Key(p), u) {
      LatchedHasPassed(hash, log, Key(p), u);
    }
  }

  lemma LatchedHasPassed(hash: Hasher, log: seq<Event>, key: PlanKey, u: int)
    requires LogOk(hash, log) && HasLatch(log, key, u)
    ensures HasPass(log, key, u)
  {
    var e :| e in log && e.Latch? && e.key == key && e.wave == u;
    var j :| 0 <= j < |log| && log[j] == e;
    assert EventOk(hash, log[..j], log[j]);
    var q :| q in log[..j] && q.GatePassed? && q.key == key && q.wave == u;
    assert q in log;
  }

  /** A persisted pass whose gate passed lies below the mark of its plan from then on. */
  lemma PersistedPassIsBelowMark(hash: Hasher, ws: seq<World>, ls: seq<Label>, j: nat, k: nat)
    requires IsRun(hash, ws, ls) && Initial(ws[0]) && j < k < |ws| && ws[k].status.plan.Some?
    requires ls[j] == WriteStatus && ws[j].job.Acting? && ws[j].job.input.gen == ws[j].gen
        && PassesGate(ws[j].job.outcome)
    requires Key(ws[j].job.outcome.status.plan.value) == Key(ws[k].status.plan.value)
    ensures 0 <= ws[j].job.outcome.consult.wave < ws[k].status.plan.value.gatedWaves
  {
    var i, o := ws[j].job.input, ws[j].job.outcome;
    var e := Latch(Key(o.status.plan.value), o.consult.wave, i);
    assert Stepped(hash, ws, ls, j);
    assert e == ws[j + 1].log[|ws[j].log|];
    LogOnlyGrows(hash, ws, ls, j + 1, k);
    assert e == ws[k].log[|ws[j].log|];
    RunKeepsInv(hash, ws, ls, k);
    assert e in ws[k].log && EventOk(hash, ws[k].log[..|ws[j].log|], e);
  }

  lemma {:induction false} LogOnlyGrows(hash: Hasher, ws: seq<World>, ls: seq<Label>, j: nat, k: nat)
    requires IsRun(hash, ws, ls) && j <= k < |ws|
    ensures ws[j].log <= ws[k].log
    decreases k
  {
    if j < k {
      LogOnlyGrows(hash, ws, ls, j, k - 1);
      assert Stepped(hash, ws, ls, k - 1);
      LogGrows(hash, ws[k - 1], ls[k - 1]);
    }
  }

  // ---- When every gate below the mark passed ----

  ghost predicate LatchAt(log: seq<Event>, j: int, key: PlanKey) {
    0 <= j < |log| && log[j].Latch? && log[j].key == key
  }

  /** No latch of this plan was taken while the wave after the one at the mark had nothing left to do. */
  ghost predicate NoWaveSkipped(hash: Hasher, log: seq<Event>, key: PlanKey) {
    forall j :: LatchAt(log, j, key) ==>
      InputWf(log[j].input) && log[j].input.ready != [] && NextWaveOpen(hash, log[j].input)
  }

  ghost predicate AllLatchedBelow(log: seq<Event>, key: PlanKey, mark: int) {
    forall u :: 0 <= u < mark ==> HasLatch(log, key, u)
  }

  lemma LatchPosition(log: seq<Event>, j: int, key: PlanKey, u: int) returns (k: int)
    requires 0 <= j <= |log| && HasLatch(log[..j], key, u)
    ensures 0 <= k < j && LatchAt(log, k, key) && log[k].wave == u
  {
    var e :| e in log[..j] && e.Latch? && e.key == key && e.wave == u;
    k :| 0 <= k < j && log[..j][k] == e;
  }

  /** Each latch starts from a mark that is one past the latch before, and skips exactly when it says so. */
  lemma LatchStep(hash: Hasher, log: seq<Event>, j: int, key: PlanKey)
    requires LogOk(hash, log) && LatchAt(log, j, key)
    ensures LatchOk(hash, log[..j], key, log[j].wave, log[j].input)
    ensures log[j].wave == PassPlan(hash, log[j].input).gatedWaves <==> NextWaveOpen(hash, log[j].input)
  {
    assert EventOk(hash, log[..j], log[j]);
    GateWaveIsTheMarkIff(hash, log[j].input);
  }

  lemma {:induction false} NoSkipMeansContiguous(hash: Hasher, log: seq<Event>, j: int, key: PlanKey)
    requires LogOk(hash, log) && LatchAt(log, j, key) && NoWaveSkipped(hash, log, key)
    ensures AllLatchedBelow(log, key, log[j].wave + 1)
    decreases j
  {
    LatchStep(hash, log, j, key);
    assert log[j] in log;
    var mark := PassPlan(hash, log[j].input).gatedWaves;
    if mark > 0 {
      var k := LatchPosition(log, j, key, mark - 1);
      NoSkipMeansContiguous(hash, log, k, key);
    }
  }

  ghost function MarkAt(hash: Hasher, log: seq<Event>, j: int, key: PlanKey): int
    requires LogOk(hash, log) && LatchAt(log, j, key)
  {
    LatchStep(hash, log, j, key);
    PassPlan(hash, log[j].input).gatedWaves
  }

  lemma EarlierLatchIsBelow(hash: Hasher, log: seq<Event>, j: int, k: int, key: PlanKey)
    requires LogOk(hash, log) && j < k && LatchAt(log, j, key) && LatchAt(log, k, key)
    ensures log[j].wave < MarkAt(hash, log, k, key) <= log[k].wave
  {
    LatchStep(hash, log, k, key);
    assert log[j] == log[..k][j];
    assert HasLatch(log[..k], key, log[j].wave);
  }

  /** The waves that a latch skipped are never latched, before or after. */
  lemma SkippedForGood(hash: Hasher, log: seq<Event>, j: int, key: PlanKey, u: int)
    requires LogOk(hash, log) && LatchAt(log, j, key) && MarkAt(hash, log, j, key) <= u < log[j].wave
    ensures !HasLatch(log, key, u)
  {
    if HasLatch(log, key, u) {
      assert log[..|log|] == log;
      var k := LatchPosition(log, |log|, key, u);
      if k < j {
        EarlierLatchIsBelow(hash, log, k, j, key);
      } else if k > j {
        EarlierLatchIsBelow(hash, log, j, k, key);
      }
    }
  }

  /**
    * The documented reading of the mark, that every gate below it has passed, holds in a run exactly when
    * no latch of this plan was taken while the wave after the one at the mark was fully updated or away:
    * the gate at the mark is then passed over, and it is not latched later either.
    */
  lemma AllGatesBelowMarkPassedIff(hash: Hasher, ws: seq<World>, ls: seq<Label>, k: nat)
    requires IsRun(hash, ws, ls) && Initial(ws[0]) && k < |ws| && ws[k].status.plan.Some?
    ensures var p, log := ws[k].status.plan.value, ws[k].log;
            AllLatchedBelow(log, Key(p), p.gatedWaves) <==> NoWaveSkipped(hash, log, Key(p))
  {
    RunKeepsInv(hash, ws, ls, k);
    var p, log := ws[k].status.plan.value, ws[k].log;
    if NoWaveSkipped(hash, log, Key(p)) && p.gatedWaves > 0 {
      assert log[..|log|] == log;
      var j := LatchPosition(log, |log|, Key(p), p.gatedWaves - 1);
      NoSkipMeansContiguous(hash, log, j, Key(p));
    }
    if AllLatchedBelow(log, Key(p), p.gatedWaves) {
      ContiguousMeansNoSkip(hash, log, Key(p), p.gatedWaves);
    }
  }

  lemma ContiguousMeansNoSkip(hash: Hasher, log: seq<Event>, key: PlanKey, mark: int)
    requires LogOk(hash, log) && AllLatchedBelow(log, key, mark)
    requires forall e :: e in log && e.Latch? && e.key == key ==> e.wave < mark
    ensures NoWaveSkipped(hash, log, key)
  {
    forall j | LatchAt(log, j, key)
      ensures InputWf(log[j].input) && log[j].input.ready != [] && NextWaveOpen(hash, log[j].input)
    {
      LatchStep(hash, log, j, key);
      assert log[j] in log;
      if MarkAt(hash, log, j, key) < log[j].wave {
        SkippedForGood(hash, log, j, key, MarkAt(hash, log, j, key));
      }
    }
  }

  // ---- A rollback starts for cause ----

  /** A persisted rollback that was not there before comes with its evidence. */
  lemma RollbackStep(hash: Hasher, w: World, l: Label)
    requires Inv(hash, w) && Enabled(w, l)
    requires Next(hash, w, l).status.rollback.Some? && Next(hash, w, l).status.rollback != w.status.rollback
    ensures l == WriteStatus && w.job.Acting? && InputWf(w.job.input) && RollbackDue(hash, w.job.input)
    ensures w.job.input.spec == w.spec && w.job.input.gen == w.gen && w.job.input.status == w.status
    ensures Next(hash, w, l).status.rollback.value.fromHash == CurrentHash(hash, w.spec)
    ensures w.status.lastGood.Some? && w.status.lastGood.value.hash != CurrentHash(hash, w.spec)
    ensures Next(hash, w, l).status.lastGood == w.status.lastGood
  {
    StatusStep(hash, w, l);
    RollbackStartsIff(hash, w.job.input);
  }

  /** Along a run: whenever a rollback appears, the step that wrote it had every reason to. */
  lemma RollbackStartsForCause(hash: Hasher, ws: seq<World>, ls: seq<Label>, k: nat)
    requires IsRun(hash, ws, ls) && Initial(ws[0]) && k < |ls|
    requires ws[k + 1].status.rollback.Some? && ws[k + 1].status.rollback != ws[k].status.rollback
    ensures ls[k] == WriteStatus && ws[k].job.Acting?
    ensures var i := ws[k].job.input;
            && i.spec == ws[k].spec && i.gen == ws[k].gen && i.status == ws[k].status && i.now <= ws[k].clock
            && InputWf(i) && RollbackDue(hash, i)
            && i.spec.gate.Some? && i.spec.policy == OnFailure && AnsweredFailing(i.spec.gate.value, i.reply)
            && (Timeout(i.spec.gate.value) > 0 ==>
                  PlanOfThisGeneration(ws[k]) && i.status.plan.value.gateStartedAt.Some?
                  && i.now - i.status.plan.value.gateStartedAt.value >= Timeout(i.spec.gate.value))
    ensures var good := ws[k].status.lastGood;
            && good.Some? && good.value.hash != CurrentHash(hash, ws[k].spec)
                && HasCompleted(ws[k].log, good.value.hash)
  {
    RunKeepsInv(hash, ws, ls, k);
    assert Stepped(hash, ws, ls, k);
    RollbackStep(hash, ws[k], ls[k]);
    DueNeedsAnEarlierAnchor(hash, ws[k].job.input);
  }

  // ---- A rollback is sticky, so the mode cannot oscillate ----

  predicate RollingBackNow(hash: Hasher, w: World) {
    w.status.rollback.Some? && w.status.rollback.value.fromHash == CurrentHash(hash, w.spec)
  }

  lemma StickyStep(hash: Hasher, w: World, l: Label)
    requires Inv(hash, w) && Enabled(w, l) && RollingBackNow(hash, w)
    ensures Next(hash, w, l).status.rollback == w.status.rollback
    ensures Next(hash, w, l).status.lastGood == w.status.lastGood
  {
    if Next(hash, w, l).status != w.status {
      StatusStep(hash, w, l);
    }
  }

  /**
    * An entered rollback survives every reconcile, crash and environment step, and every spec edit that
    * leaves the template's hash alone.
    */
  lemma {:induction false} RollbackIsSticky(hash: Hasher, ws: seq<World>, ls: seq<Label>, i: nat, j: nat)
    requires IsRun(hash, ws, ls) && Initial(ws[0]) && i <= j < |ws| && RollingBackNow(hash, ws[i])
    requires forall k :: i <= k <= j ==> CurrentHash(hash, ws[k].spec) == CurrentHash(hash, ws[i].spec)
    ensures ws[j].status.rollback == ws[i].status.rollback && ws[j].status.lastGood == ws[i].status.lastGood
    ensures RollingBackNow(hash, ws[j])
    decreases j
  {
    if i < j {
      RollbackIsSticky(hash, ws, ls, i, j - 1);
      RunKeepsInv(hash, ws, ls, j - 1);
      assert Stepped(hash, ws, ls, j - 1);
      StickyStep(hash, ws[j - 1], ls[j - 1]);
    }
  }

  /** Between two changes of the template's hash the mode changes at most once, and only from forward to rollback. */
  lemma NoOscillation(hash: Hasher, ws: seq<World>, ls: seq<Label>, i: nat, a: nat, b: nat, j: nat)
    requires IsRun(hash, ws, ls) && Initial(ws[0]) && i <= a < b <= j < |ws|
    requires forall k :: i <= k <= j ==> CurrentHash(hash, ws[k].spec) == CurrentHash(hash, ws[i].spec)
    requires RollingBackNow(hash, ws[a]) != RollingBackNow(hash, ws[b])
    ensures !RollingBackNow(hash, ws[a]) && RollingBackNow(hash, ws[b])
    ensures forall k :: i <= k <= a ==> !RollingBackNow(hash, ws[k])
    ensures forall k :: b <= k <= j ==> RollingBackNow(hash, ws[k])
  {
    if RollingBackNow(hash, ws[a]) {
      RollbackIsSticky(hash, ws, ls, a, b);
      assert false;
    }
    forall k | i <= k <= a ensures !RollingBackNow(hash, ws[k]) {
      if RollingBackNow(hash, ws[k]) {
        RollbackIsSticky(hash, ws, ls, k, a);
        assert false;
      }
    }
    forall k | b <= k <= j ensures RollingBackNow(hash, ws[k]) {
      RollbackIsSticky(hash, ws, ls, b, k);
    }
  }

  // ---- The final latch ends all gating of its plan ----

  predicate FullyLatched(w: World) {
    PlanOfThisGeneration(w) && w.status.plan.value.waveSize >= 1
    && w.status.plan.value.gatedWaves >= Total(w.status.plan.value)
  }

  /** A rollback is only ever set beside a plan whose final gate is not latched. */
  lemma FullyLatchedHasNoRollback(hash: Hasher, w: World)
    requires Inv(hash, w) && FullyLatched(w)
    ensures w.status.rollback.None?
  {
  }

  ghost predicate AsksNothingNew(o: Outcome) {
    o.consult == Unasked || o.consult.verdict == Latched
  }

  lemma FullyLatchedPass(hash: Hasher, w: World, i: Input)
    requires Inv(hash, w) && FullyLatched(w)
    requires InputWf(i) && i.status == w.status && i.gen == w.gen && i.spec == w.spec
    ensures var o := Pass(hash, i);
            && o.status.rollback.None? && o.status.plan == w.status.plan && o.status.phase != Paused
                && AsksNothingNew(o)
  {
    FullyLatchedHasNoRollback(hash, w);
    if i.ready != [] {
      assert PassPlan(hash, i) == w.status.plan.value;
      FinalLatchIsFinal(hash, i);
    }
  }

  /** The history grew, by no gate pass and no rollback. */
  predicate Quiet(log: seq<Event>, log': seq<Event>) {
    log <= log' && forall e :: e in log'[|log|..] ==> !e.GatePassed? && !e.RollbackBegun?
  }

  lemma QuietAppend(log: seq<Event>, added: seq<Event>)
    requires forall e :: e in added ==> !e.GatePassed? && !e.RollbackBegun?
    ensures Quiet(log, log + added)
  {
    assert (log + added)[|log|..] == added;
  }

  lemma QuietTrans(a: seq<Event>, b: seq<Event>, c: seq<Event>)
    requires Quiet(a, b) && Quiet(b, c)
    ensures Quiet(a, c)
  {
    assert c[|a|..] == b[|a|..] + c[|b|..];
  }

  ghost predicate StaysLatched(w: World, w': World) {
    && w.status.rollback.None? && w'.status.rollback.None? && w'.status.plan == w.status.plan && FullyLatched(w')
        && Quiet(w.log, w'.log)
    && (w'.status.phase == Paused ==> w.status.phase == Paused)
  }

  lemma LatchedObserve(hash: Hasher, w: World, l: Label)
    requires Inv(hash, w) && Enabled(w, l) && FullyLatched(w) && l.Observe?
    ensures StaysLatched(w, Next(hash, w, l))
  {
    var i := Observation(w, l.reply);
    FullyLatchedPass(hash, w, i);
    QuietAppend(w.log, PassLog(i, Pass(hash, i)));
  }

  lemma LatchedPersist(hash: Hasher, w: World)
    requires Inv(hash, w) && Enabled(w, WriteStatus) && FullyLatched(w)
    ensures StaysLatched(w, Next(hash, w, WriteStatus))
  {
    var i, o := w.job.input, w.job.outcome;
    assert i.gen == w.gen;
    FullyLatchedPass(hash, w, i);
    QuietAppend(w.log, StatusLog(hash, i, o));
  }

  lemma LatchedOtherStep(hash: Hasher, w: World, l: Label)
    requires Enabled(w, l) && FullyLatched(w) && w.status.rollback.None? && !l.Observe? && l != WriteStatus
    requires Next(hash, w, l).gen == w.gen
    ensures StaysLatched(w, Next(hash, w, l))
  {
    var w' := Next(hash, w, l);
    assert w'.status == w.status;
    assert |w'.log| <= |w.log| + 1;
  }

  /** If this step takes a pass's decision, that pass evaluates no gate. */
  ghost predicate EvaluatesNoGate(hash: Hasher, w: World, l: Label) {
    l.Observe? && Enabled(w, l) ==> AsksNothingNew(Pass(hash, Observation(w, l.reply)))
  }

  lemma {:induction false} FinalLatchStays(hash: Hasher, ws: seq<World>, ls: seq<Label>, i: nat, j: nat)
    requires IsRun(hash, ws, ls) && Initial(ws[0]) && i <= j < |ws|
    requires FullyLatched(ws[i]) && ws[j].gen == ws[i].gen
    ensures StaysLatched(ws[i], ws[j])
    decreases j
  {
    if i == j {
      RunKeepsInv(hash, ws, ls, i);
      FullyLatchedHasNoRollback(hash, ws[i]);
      QuietAppend(ws[i].log, []);
      assert ws[i].log + [] == ws[i].log;
    } else {
      GenerationRises(hash, ws, ls, i, j - 1);
      GenerationRises(hash, ws, ls, j - 1, j);
      FinalLatchStays(hash, ws, ls, i, j - 1);
      RunKeepsInv(hash, ws, ls, j - 1);
      assert Stepped(hash, ws, ls, j - 1);
      LatchedStep(hash, ws[j - 1], ls[j - 1]);
      QuietTrans(ws[i].log, ws[j - 1].log, ws[j].log);
    }
  }

  /**
    * Once the final gate is latched, no gate is evaluated again, nothing pauses and no rollback is set or
    * starts for the rest of the generation, even if skipped nodes return and reopen earlier waves.
    */
  lemma FinalLatchEndsGating(hash: Hasher, ws: seq<World>, ls: seq<Label>, i: nat, j: nat)
    requires IsRun(hash, ws, ls) && Initial(ws[0]) && i <= j < |ws|
    requires FullyLatched(ws[i]) && ws[j].gen == ws[i].gen
    ensures StaysLatched(ws[i], ws[j])
    ensures forall k :: i <= k < j ==> EvaluatesNoGate(hash, ws[k], ls[k])
  {
    FinalLatchStays(hash, ws, ls, i, j);
    forall k | i <= k < j ensures EvaluatesNoGate(hash, ws[k], ls[k]) {
      GenerationRises(hash, ws, ls, i, k);
      GenerationRises(hash, ws, ls, k, j);
      FinalLatchStays(hash, ws, ls, i, k);
      RunKeepsInv(hash, ws, ls, k);
      LatchedStepAsksNothing(hash, ws[k], ls[k]);
    }
  }

  lemma LatchedStepAsksNothing(hash: Hasher, w: World, l: Label)
    requires Inv(hash, w) && FullyLatched(w)
    ensures EvaluatesNoGate(hash, w, l)
  {
    if l.Observe? && Enabled(w, l) {
      FullyLatchedPass(hash, w, Observation(w, l.reply));
    }
  }

  lemma LatchedStep(hash: Hasher, w: World, l: Label)
    requires Inv(hash, w) && Enabled(w, l) && FullyLatched(w)
    requires Next(hash, w, l).gen == w.gen
    ensures StaysLatched(w, Next(hash, w, l))
  {
    if l.Observe? {
      LatchedObserve(hash, w, l);
    } else if l == WriteStatus {
      LatchedPersist(hash, w);
    } else {
      FullyLatchedHasNoRollback(hash, w);
      LatchedOtherStep(hash, w, l);
    }
  }
}
