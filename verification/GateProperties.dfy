/** When a gate passes, holds, pauses or starts a rollback, and what the latch means. */
module GateProperties {
  import opened Prelude
  import opened Api
  import opened Templates
  import opened Gates
  import opened Engine
  import opened PassProperties

  /** The time the pass counts the timeout from. */
  function AnchorTime(p: Plan, wave: int, now: int): int
    requires PlanWf(p)
  {
    if p.evaluatingWave == Some(wave) then p.gateStartedAt.value else now
  }

  /** The gate is consulted, not latched, answered in full with a failing sample, and past its timeout. */
  ghost predicate GateTimedOut(hash: Hasher, i: Input)
    requires InputWf(i)
  {
    var gw := GateWave(hash, i);
    && gw.Some? && PassPlan(hash, i).gatedWaves <= gw.value
    && AnsweredFailing(i.spec.gate.value, i.reply)
    && i.now - AnchorTime(PassPlan(hash, i), gw.value, i.now) >= Timeout(i.spec.gate.value)
  }

  ghost predicate RollbackDue(hash: Hasher, i: Input)
    requires InputWf(i)
  {
    && GateTimedOut(hash, i) && i.spec.policy == OnFailure
    && i.status.lastGood.Some? && i.status.lastGood.value.hash != CurrentHash(hash, i.spec)
  }

  lemma GateVerdict(hash: Hasher, i: Input)
    requires InputWf(i) && GateWave(hash, i).Some?
    ensures var p := PassPlan(hash, i);
            var w := GateWave(hash, i).value;
            var gate := i.spec.gate.value;
            var v := PassGate(hash, i).verdict;
            && (v == Latched <==> p.gatedWaves >= w + 1)
            && (v == ConfigHold <==> p.gatedWaves <= w && i.reply.ConfigError?)
            && (v == Decided(GatePass) <==> p.gatedWaves <= w && AllPass(gate, i.reply))
            && (v == Decided(GateRollback) <==> RollbackDue(hash, i))
            && (v == Decided(GatePauseTimeout) <==> GateTimedOut(hash, i) && !RollbackDue(hash, i))
            && (v == Decided(GateWait) <==>
                  && p.gatedWaves <= w && i.reply.Replies?
                  && (NoData(gate, i.reply)
                      || (AnsweredFailing(gate, i.reply) && i.now - AnchorTime(p, w, i.now) < Timeout(gate))))
  {
    ReplyTrichotomy(i.spec.gate.value, i.reply);
  }

  /**
    * The timeout is timeoutSeconds, or 300 seconds if that is 0, counted from the anchor of the asked
    * wave, or from now if another wave or none is anchored: before it an answered failure waits, from it
    * on it rolls back or pauses.
    */
  lemma TimeoutInSeconds(hash: Hasher, i: Input)
    requires InputWf(i) && GateWave(hash, i).Some? && PassPlan(hash, i).gatedWaves <= GateWave(hash, i).value
    requires AnsweredFailing(i.spec.gate.value, i.reply)
    ensures var p, w, t := PassPlan(hash, i), GateWave(hash, i).value, i.spec.gate.value.timeoutSeconds;
            var since := if p.evaluatingWave == Some(w) then p.gateStartedAt.value else i.now;
            var due := i.now - since >= if t == 0 then 300 else t;
            var v := PassGate(hash, i).verdict;
            && (due <==> v == Decided(GateRollback) || v == Decided(GatePauseTimeout))
            && (!due <==> v == Decided(GateWait))
            && (v == Decided(GateRollback) <==>
                  && due && i.spec.policy == OnFailure
                  && i.status.lastGood.Some? && i.status.lastGood.value.hash != p.hash)
  {
    GateVerdict(hash, i);
    ReplyTrichotomy(i.spec.gate.value, i.reply);
  }

  /**
    * A pass enters a rollback exactly when a consulted gate was answered in full with a failing
    * sample at or past its timeout, the policy asks for it, and a different last-good template exists.
    */
  lemma RollbackStartsIff(hash: Hasher, i: Input)
    requires InputWf(i)
    ensures var st := Pass(hash, i).status;
            && (st.rollback.Some? && BeginInput(hash, i).rollback.None? <==> RollbackDue(hash, i))
            && (RollbackDue(hash, i) ==> st.phase == RollingBack && st.lastGood == i.status.lastGood)
            && (RollbackDue(hash, i) ==>
                st.rollback.value.fromHash == CurrentHash(hash, i.spec) == PassPlan(hash, i).hash)
            && (!RollbackDue(hash, i) ==> st.rollback == BeginInput(hash, i).rollback)
  {
    if GateWave(hash, i).Some? {
      GateVerdict(hash, i);
    }
    if GoesForward(hash, i) {
      ForwardCases(hash, i);
      if HasPending(hash, i) {
        AdvanceStatus(hash, i);
      } else {
        CompleteStatus(hash, i);
      }
    }
  }

  /** With a positive timeout, the anchor was persisted by an earlier pass under this same plan. */
  lemma DueNeedsAnEarlierAnchor(hash: Hasher, i: Input)
    requires InputWf(i) && RollbackDue(hash, i)
    ensures i.spec.gate.Some? && i.spec.policy == OnFailure && AnsweredFailing(i.spec.gate.value, i.reply)
    ensures Timeout(i.spec.gate.value) > 0 ==>
              var p := i.status.plan;
              && PlanCurrent(p, CurrentHash(hash, i.spec), i.gen) && p.value.gateStartedAt.Some?
              && p.value.evaluatingWave == GateWave(hash, i)
              && i.now - p.value.gateStartedAt.value >= Timeout(i.spec.gate.value)
  {
    var p := PassPlan(hash, i);
    if Timeout(i.spec.gate.value) > 0 {
      assert p.evaluatingWave == GateWave(hash, i);
    }
  }

  /**
    * Paused is written exactly on a gate timeout that may not roll back; a final gate that merely
    * waits leaves it in place.
    */
  lemma PausedIff(hash: Hasher, i: Input)
    requires InputWf(i)
    ensures Pass(hash, i).status.phase == Paused
            <==> (GateTimedOut(hash, i) && !RollbackDue(hash, i))
                 || (i.status.phase == Paused && Holds(hash, i) && !HasPending(hash, i) && !RollbackDue(hash, i))
  {
    if GateWave(hash, i).Some? {
      GateVerdict(hash, i);
    }
    if GoesForward(hash, i) {
      ForwardCases(hash, i);
      if HasPending(hash, i) {
        AdvanceStatus(hash, i);
      } else {
        CompleteStatus(hash, i);
      }
    }
  }

  /** Once the final gate is latched, no gate of that plan is evaluated again, whatever nodes do. */
  lemma FinalLatchIsFinal(hash: Hasher, i: Input)
    requires InputWf(i) && i.ready != [] && PassPlan(hash, i).gatedWaves >= Total(PassPlan(hash, i))
    ensures var o := Pass(hash, i);
            && (o.consult == Unasked || o.consult.verdict == Latched) && o.status.phase != Paused
            && o.status.rollback == BeginInput(hash, i).rollback
            && (o.status.plan == Some(PassPlan(hash, i)) || o.status.plan == i.status.plan)
  {
    if GoesForward(hash, i) {
      GateWaveBelowTotal(hash, i);
      ForwardCases(hash, i);
      if HasPending(hash, i) {
        AdvanceStatus(hash, i);
      } else {
        CompleteStatus(hash, i);
      }
    }
  }

  lemma GateWaveBelowTotal(hash: Hasher, i: Input)
    requires InputWf(i)
    ensures GateWave(hash, i).Some? ==> 0 <= GateWave(hash, i).value < Total(PassPlan(hash, i))
  {
    if GateWave(hash, i).Some? {
      CurrentWaveInRange(hash, i);
      TotalPositive(PassPlan(hash, i));
    }
  }

  // ---- When the mark skips a wave ----

  /** The wave at the mark is the last one, or the wave after it has a Ready node that is not updated. */
  ghost predicate NextWaveOpen(hash: Hasher, i: Input)
    requires InputWf(i) && i.ready != []
  {
    var p := PassPlan(hash, i);
    var next := p.gatedWaves + 1;
    next == Total(p) || (1 <= next < Total(p) && !WaveFullyUpdated(ViewOf(hash, i), p, next))
  }

  /** An unlatched gate that is consulted is the one at the mark exactly when no later wave is passed over. */
  lemma GateWaveIsTheMarkIff(hash: Hasher, i: Input)
    requires InputWf(i) && GateWave(hash, i).Some? && 0 <= PassPlan(hash, i).gatedWaves <= GateWave(hash, i).value
    ensures GateWave(hash, i).value == PassPlan(hash, i).gatedWaves <==> NextWaveOpen(hash, i)
  {
    var p, v := PassPlan(hash, i), ViewOf(hash, i);
    NothingPendingIff(v, p);
    if HasPending(hash, i) {
      OpenWaveIsFirst(hash, i);
    }
  }

  /**
    * A gate that passes raises the mark by exactly one, so that no gate below it is skipped, exactly
    * when the wave at the mark is the last or the next one is open: what an operator can see before the pass.
    */
  lemma LatchIsContiguousIff(hash: Hasher, i: Input)
    requires InputWf(i) && GateWave(hash, i).Some? && PassGate(hash, i).verdict == Decided(GatePass)
    requires PassPlan(hash, i).gatedWaves >= 0
    ensures PassGate(hash, i).plan.gatedWaves == PassPlan(hash, i).gatedWaves + 1 <==> NextWaveOpen(hash, i)
  {
    GateVerdict(hash, i);
    GateWaveIsTheMarkIff(hash, i);
  }
}
