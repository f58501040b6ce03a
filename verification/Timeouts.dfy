/**
  * What happened between the anchor of a gate's timeout and the rollback begun from it. The code counts
  * the timeout through outages, so this history says when the documented reading holds.
  */
module Timeouts {
  import opened Prelude
  import opened Api
  import opened Gates
  import opened Engine
  import opened PassProperties
  import opened GateProperties
  import opened Protocol
  import opened Invariant
  import opened Runs
  import opened Stability

  /** The persisted plan is this one, and its timeout for `wave` counts from `t`. */
  predicate AnchoredAt(st: Status, key: PlanKey, wave: int, t: int) {
    && st.plan.Some? && Key(st.plan.value) == key
    && st.plan.value.evaluatingWave == Some(wave) && st.plan.value.gateStartedAt == Some(t)
  }

  /** The pass evaluated this wave's gate. */
  predicate Questions(o: Outcome, wave: int) {
    o.consult.Asked? && o.consult.wave == wave && o.consult.verdict != Latched
  }

  /** The answer did not pass the gate: no usable data, or a failing sample with everything answered. */
  ghost predicate NotHealthy(i: Input) {
    i.spec.gate.Some? && (NoData(i.spec.gate.value, i.reply) || AnsweredFailing(i.spec.gate.value, i.reply))
  }

  /** The pass sets the anchor: it is the first under this plan to find this wave's gate not healthy. */
  ghost predicate Anchors(hash: Hasher, i: Input, key: PlanKey, wave: int)
    requires InputWf(i)
  {
    && GateWave(hash, i) == Some(wave) && Key(PassPlan(hash, i)) == key
    && PassPlan(hash, i).evaluatingWave != Some(wave) && NotHealthy(i)
  }

  // ---- One pass ----

  lemma HoldIsNotHealthy(hash: Hasher, i: Input)
    requires InputWf(i) && GateWave(hash, i).Some? && !Promotes(PassGate(hash, i).verdict)
    ensures NotHealthy(i)
  {
    GateVerdict(hash, i);
    ReplyTrichotomy(i.spec.gate.value, i.reply);
  }

  /** An anchor that is there after a pass was there before, or the pass set it at its own time. */
  lemma PassAnchor(hash: Hasher, i: Input, key: PlanKey, wave: int, t: int)
    requires InputWf(i) && AnchoredAt(Pass(hash, i).status, key, wave, t)
    ensures AnchoredAt(i.status, key, wave, t) || (Anchors(hash, i, key, wave) && t == i.now)
    ensures Questions(Pass(hash, i), wave) ==> NotHealthy(i)
  {
    if GoesForward(hash, i) {
      ForwardCases(hash, i);
      if GateWave(hash, i).Some? {
        PassGateEffect(hash, i);
        if !Promotes(PassGate(hash, i).verdict) {
          HoldIsNotHealthy(hash, i);
        }
      }
    }
  }

  // ---- Runs ----

  /** Step k persists the status of the pass in flight. */
  predicate Persists(ws: seq<World>, ls: seq<Label>, k: int) {
    0 <= k < |ls| && k < |ws| && ls[k].WriteStatus? && ws[k].job.Acting? && ws[k].job.input.gen == ws[k].gen
  }

  /** Step k persists a pass that evaluated this wave's gate. */
  predicate PersistsQuestion(ws: seq<World>, ls: seq<Label>, k: int, wave: int) {
    Persists(ws, ls, k) && Questions(ws[k].job.outcome, wave)
  }

  ghost predicate AnchoringStep(hash: Hasher, ws: seq<World>, ls: seq<Label>, k: int, key: PlanKey, wave: int, t: int) {
    && Persists(ws, ls, k) && InputWf(ws[k].job.input) && ws[k].job.outcome == Pass(hash, ws[k].job.input)
    && Anchors(hash, ws[k].job.input, key, wave) && ws[k].job.input.now == t
  }

  lemma AnchorStep(hash: Hasher, ws: seq<World>, ls: seq<Label>, k: nat, key: PlanKey, wave: int, t: int)
    requires IsRun(hash, ws, ls) && Initial(ws[0]) && k < |ls| && AnchoredAt(ws[k + 1].status, key, wave, t)
    ensures AnchoredAt(ws[k].status, key, wave, t) || AnchoringStep(hash, ws, ls, k, key, wave, t)
    ensures PersistsQuestion(ws, ls, k, wave) ==> NotHealthy(ws[k].job.input)
  {
    RunKeepsInv(hash, ws, ls, k);
    assert Stepped(hash, ws, ls, k);
    if Persists(ws, ls, k) {
      PassAnchor(hash, ws[k].job.input, key, wave, t);
    } else if ws[k + 1].status != ws[k].status {
      StatusStep(hash, ws[k], ls[k]);
    }
  }

  /** No persisted answer about this wave from a on and before b was healthy. */
  ghost predicate NeverHealthy(ws: seq<World>, ls: seq<Label>, a: int, b: int, wave: int) {
    forall k :: a <= k < b && PersistsQuestion(ws, ls, k, wave) ==> NotHealthy(ws[k].job.input)
  }

  ghost predicate AnchoredThroughout(ws: seq<World>, a: int, b: int, key: PlanKey, wave: int, t: int)
    requires -1 <= a && b < |ws|
  {
    forall k :: a < k <= b ==> AnchoredAt(ws[k].status, key, wave, t)
  }

  lemma NoAnchorAtFirst(w: World)
    requires Initial(w)
    ensures w.status.plan.None?
  {
  }

  /**
    * Every anchor has a beginning: a persisted pass set it at its own time, it stood ever since, and no
    * persisted pass that asked the wave's gate from then on found it healthy.
    */
  lemma {:induction false} AnchorHistory(hash: Hasher, ws: seq<World>, ls: seq<Label>, b: nat,
                                         key: PlanKey, wave: int, t: int) returns (a: nat)
    requires IsRun(hash, ws, ls) && Initial(ws[0]) && b < |ws| && AnchoredAt(ws[b].status, key, wave, t)
    ensures a < b && AnchoringStep(hash, ws, ls, a, key, wave, t)
    ensures AnchoredThroughout(ws, a, b, key, wave, t) && NeverHealthy(ws, ls, a, b, wave)
  {
    NoAnchorAtFirst(ws[0]);
    AnchorStep(hash, ws, ls, b - 1, key, wave, t);
    if AnchoredAt(ws[b - 1].status, key, wave, t) {
      a := AnchorHistory(hash, ws, ls, b - 1, key, wave, t);
    } else {
      a := b - 1;
    }
    ExtendHistory(ws, ls, a, b, key, wave, t);
  }

  lemma ExtendHistory(ws: seq<World>, ls: seq<Label>, a: nat, b: nat, key: PlanKey, wave: int, t: int)
    requires a < b < |ws| && AnchoredAt(ws[b].status, key, wave, t)
    requires AnchoredThroughout(ws, a, b - 1, key, wave, t) && NeverHealthy(ws, ls, a, b - 1, wave)
    requires PersistsQuestion(ws, ls, b - 1, wave) ==> NotHealthy(ws[b - 1].job.input)
    ensures AnchoredThroughout(ws, a, b, key, wave, t) && NeverHealthy(ws, ls, a, b, wave)
  {
  }

  // ---- The history of a rollback ----

  /** Between a and b, every persisted answer about this wave was a failing one. */
  ghost predicate FailingThroughout(ws: seq<World>, ls: seq<Label>, a: int, b: int, wave: int) {
    forall k :: a <= k <= b && PersistsQuestion(ws, ls, k, wave) ==>
      ws[k].job.input.spec.gate.Some? && AnsweredFailing(ws[k].job.input.spec.gate.value, ws[k].job.input.reply)
  }

  /** Between a and b, monitoring answered every persisted question about this wave. */
  ghost predicate AnsweredThroughout(ws: seq<World>, ls: seq<Label>, a: int, b: int, wave: int) {
    forall k :: a <= k <= b && PersistsQuestion(ws, ls, k, wave) ==>
      ws[k].job.input.spec.gate.Some? && !NoData(ws[k].job.input.spec.gate.value, ws[k].job.input.reply)
  }

  /** Step b persists a pass that begins a rollback. */
  ghost predicate BeginsRollback(hash: Hasher, ws: seq<World>, ls: seq<Label>, b: int) {
    && Persists(ws, ls, b) && InputWf(ws[b].job.input) && ws[b].job.outcome == Pass(hash, ws[b].job.input)
    && ws[b].job.input.status == ws[b].status && RollbackDue(hash, ws[b].job.input)
  }

  /** Whoever writes a new rollback in a run begins it. */
  lemma NewRollbackBegins(hash: Hasher, ws: seq<World>, ls: seq<Label>, b: nat)
    requires IsRun(hash, ws, ls) && Initial(ws[0]) && b < |ls|
    requires ws[b + 1].status.rollback.Some? && ws[b + 1].status.rollback != ws[b].status.rollback
    ensures BeginsRollback(hash, ws, ls, b)
  {
    RollbackStartsForCause(hash, ws, ls, b);
    RunKeepsInv(hash, ws, ls, b);
  }

  /** At the rollback itself the plan is anchored for the wave that failed, unless the timeout is zero. */
  lemma DueIsAnchored(hash: Hasher, i: Input)
    requires InputWf(i) && RollbackDue(hash, i) && Timeout(i.spec.gate.value) > 0
    ensures var p := i.status.plan;
            && p.Some? && p.value.gateStartedAt.Some? && GateWave(hash, i).Some?
            && AnchoredAt(i.status, Key(p.value), GateWave(hash, i).value, p.value.gateStartedAt.value)
            && i.now - p.value.gateStartedAt.value >= Timeout(i.spec.gate.value)
  {
    DueNeedsAnEarlierAnchor(hash, i);
  }

  /**
    * A rollback with a positive timeout goes back to a persisted pass that set the anchor, at least the
    * timeout before. In between no persisted answer about that wave was healthy. So the unhealthy signal
    * persisted past the timeout, as documented, exactly when none of those answers was missing data.
    */
  lemma UnhealthyPersistedIff(hash: Hasher, ws: seq<World>, ls: seq<Label>, b: nat) returns (a: nat)
    requires IsRun(hash, ws, ls) && Initial(ws[0]) && BeginsRollback(hash, ws, ls, b)
    requires Timeout(ws[b].job.input.spec.gate.value) > 0
    ensures a < b && GateWave(hash, ws[b].job.input).Some?
    ensures var i := ws[b].job.input;
            var wave := GateWave(hash, i).value;
            && AnchoredLongAgo(hash, ws, ls, a, b, wave, Timeout(i.spec.gate.value))
            && NeverHealthy(ws, ls, a, b + 1, wave)
            && (FailingThroughout(ws, ls, a, b, wave) <==> AnsweredThroughout(ws, ls, a, b, wave))
  {
    var i := ws[b].job.input;
    DueIsAnchored(hash, i);
    DueIsNotHealthy(hash, i);
    var p, wave := i.status.plan.value, GateWave(hash, i).value;
    a := HistoryUpTo(hash, ws, ls, b, Key(p), wave, p.gateStartedAt.value, Timeout(i.spec.gate.value));
  }

  lemma HistoryUpTo(hash: Hasher, ws: seq<World>, ls: seq<Label>, b: nat, key: PlanKey, wave: int, t: int, timeout: int)
      returns (a: nat)
    requires IsRun(hash, ws, ls) && Initial(ws[0]) && Persists(ws, ls, b) && AnchoredAt(ws[b].status, key, wave, t)
    requires NotHealthy(ws[b].job.input) && ws[b].job.input.now - t >= timeout
    ensures a < b && AnchoredLongAgo(hash, ws, ls, a, b, wave, timeout) && NeverHealthy(ws, ls, a, b + 1, wave)
    ensures FailingThroughout(ws, ls, a, b, wave) <==> AnsweredThroughout(ws, ls, a, b, wave)
  {
    a := AnchorHistory(hash, ws, ls, b, key, wave, t);
    assert NeverHealthy(ws, ls, a, b + 1, wave);
    NotHealthyKinds(hash, ws, ls, a, b, wave);
  }

  /** Step a set the anchor that stands until b, and the timeout has elapsed since. */
  ghost predicate AnchoredLongAgo(hash: Hasher, ws: seq<World>, ls: seq<Label>, a: int, b: int, wave: int, timeout: int)
    requires -1 <= a && Persists(ws, ls, b)
  {
    exists key, t :: AnchoringStep(hash, ws, ls, a, key, wave, t) && AnchoredThroughout(ws, a, b, key, wave, t)
                     && ws[b].job.input.now - t >= timeout
  }

  lemma DueIsNotHealthy(hash: Hasher, i: Input)
    requires InputWf(i) && RollbackDue(hash, i)
    ensures NotHealthy(i)
  {
  }

  lemma NotHealthyKinds(hash: Hasher, ws: seq<World>, ls: seq<Label>, a: nat, b: int, wave: int)
    requires IsRun(hash, ws, ls) && Initial(ws[0]) && NeverHealthy(ws, ls, a, b + 1, wave)
    ensures FailingThroughout(ws, ls, a, b, wave) <==> AnsweredThroughout(ws, ls, a, b, wave)
  {
    forall k | a <= k <= b && PersistsQuestion(ws, ls, k, wave)
      ensures var i := ws[k].job.input;
              AnsweredFailing(i.spec.gate.value, i.reply) <==> !NoData(i.spec.gate.value, i.reply)
    {
      PersistedReplyWf(hash, ws, ls, k);
      ReplyTrichotomy(ws[k].job.input.spec.gate.value, ws[k].job.input.reply);
    }
  }

  lemma PersistedReplyWf(hash: Hasher, ws: seq<World>, ls: seq<Label>, k: nat)
    requires IsRun(hash, ws, ls) && Initial(ws[0]) && Persists(ws, ls, k)
    ensures ReplyWf(ws[k].job.input.spec.gate, ws[k].job.input.reply)
  {
    RunKeepsInv(hash, ws, ls, k);
  }
}
