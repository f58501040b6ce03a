/** Monitoring outages and gate misconfigurations never escalate, however long they last. */
module Outage {
  import opened Prelude
  import opened Api
  import opened Gates
  import opened Engine
  import opened PassProperties
  import opened GateProperties
  import opened Protocol
  import opened Runs
  import opened Stability

  /** A pass that asks its gate gets no usable answer. */
  ghost predicate Unanswered(w: World, l: Label) {
    l.Observe? && w.job.Synced? && w.job.spec.gate.Some? ==> NoData(w.job.spec.gate.value, l.reply)
  }

  ghost predicate Blind(i: Input) {
    i.spec.gate.Some? ==> NoData(i.spec.gate.value, i.reply)
  }

  /** The rollback is the old one or none, and Paused is not new. */
  predicate NotEscalated(st: Status, st': Status) {
    && (st'.rollback.Some? ==> st'.rollback == st.rollback)
    && (st'.phase == Paused ==> st.phase == Paused)
  }

  lemma BlindPass(hash: Hasher, i: Input)
    requires InputWf(i) && Blind(i)
    ensures var o := Pass(hash, i);
            && NotEscalated(i.status, o.status) && !PassesGate(o)
            && (o.status.rollback.Some? ==> BeginInput(hash, i).rollback.Some?)
  {
    if i.spec.gate.Some? {
      ReplyTrichotomy(i.spec.gate.value, i.reply);
    }
    RollbackStartsIff(hash, i);
    PausedIff(hash, i);
    if GateWave(hash, i).Some? {
      GateVerdict(hash, i);
    }
    if GoesForward(hash, i) {
      ForwardCases(hash, i);
    }
  }

  // ---- An outage that starts at any moment ----

  /** A decision in flight was taken without usable data. */
  ghost predicate BlindJob(w: World) {
    w.job.Acting? ==> Blind(w.job.input)
  }

  /** What one blind step does: the history stays quiet and the status does not escalate. */
  ghost predicate CalmStep(w: World, w': World) {
    BlindJob(w') && NotEscalated(w.status, w'.status) && Quiet(w.log, w'.log)
  }

  lemma CalmObserve(hash: Hasher, w: World, l: Label)
    requires Enabled(w, l) && l.Observe? && Unanswered(w, l)
    ensures CalmStep(w, Next(hash, w, l))
  {
    var i := Observation(w, l.reply);
    BlindPass(hash, i);
    QuietAppend(w.log, PassLog(i, Pass(hash, i)));
  }

  lemma CalmPersist(hash: Hasher, w: World)
    requires Inv(hash, w) && Enabled(w, WriteStatus) && BlindJob(w)
    ensures CalmStep(w, Next(hash, w, WriteStatus))
  {
    var i, o := w.job.input, w.job.outcome;
    BlindPass(hash, i);
    QuietAppend(w.log, StatusLog(hash, i, o));
    QuietAppend(w.log, []);
    assert w.log + [] == w.log;
  }

  lemma CalmOtherStep(hash: Hasher, w: World, l: Label)
    requires Enabled(w, l) && BlindJob(w) && !l.Observe? && l != WriteStatus
    ensures CalmStep(w, Next(hash, w, l))
  {
    var w' := Next(hash, w, l);
    assert w'.status == w.status;
    assert |w'.log| <= |w.log| + 1;
  }

  lemma BlindStepIsCalm(hash: Hasher, w: World, l: Label)
    requires Inv(hash, w) && Enabled(w, l) && BlindJob(w) && Unanswered(w, l)
    ensures CalmStep(w, Next(hash, w, l))
  {
    if l.Observe? {
      CalmObserve(hash, w, l);
    } else if l == WriteStatus {
      CalmPersist(hash, w);
    } else {
      CalmOtherStep(hash, w, l);
    }
  }

  /**
    * From any reachable moment, also while paused or rolling back, unless a decision taken on usable data
    * is in flight: while no gate question is answered, no gate passes, no rollback starts and Paused is
    * not written anew, through any spec edit or node flap.
    */
  lemma {:induction false} OutageNeverEscalates(hash: Hasher, ws: seq<World>, ls: seq<Label>, i: nat, j: nat)
    requires IsRun(hash, ws, ls) && Initial(ws[0]) && i <= j < |ws| && BlindJob(ws[i])
    requires forall k :: i <= k < j ==> Unanswered(ws[k], ls[k])
    ensures BlindJob(ws[j]) && NotEscalated(ws[i].status, ws[j].status) && Quiet(ws[i].log, ws[j].log)
    decreases j
  {
    if i == j {
      QuietAppend(ws[i].log, []);
      assert ws[i].log + [] == ws[i].log;
    } else {
      OutageNeverEscalates(hash, ws, ls, i, j - 1);
      RunKeepsInv(hash, ws, ls, j - 1);
      assert Stepped(hash, ws, ls, j - 1);
      BlindStepIsCalm(hash, ws[j - 1], ls[j - 1]);
      QuietTrans(ws[i].log, ws[j - 1].log, ws[j].log);
    }
  }

  // ---- Never any data at all ----

  /** A gate is always configured and never answered. */
  ghost predicate NeverAnswered(ws: seq<World>, ls: seq<Label>) {
    && |ws| == |ls| + 1 && ws[0].spec.gate.Some?
    && (forall k :: 0 <= k < |ls| ==> Unanswered(ws[k], ls[k]))
    && (forall k :: 0 <= k < |ls| ==> (ls[k].Edit? ==> ls[k].spec.gate.Some?))
  }

  ghost predicate NothingProven(log: seq<Event>) {
    forall e :: e in log ==>
      && !e.GatePassed? && !e.Completed? && !e.RollbackBegun?
      && (e.Released? || e.Removed? ==> e.input.spec.gate.Some?)
  }

  predicate Early(st: Status) {
    && st.rollback.None? && st.lastGood.None? && (st.phase == NoPhase || st.phase == Progressing)
    && (st.plan.Some? ==> st.plan.value.gatedWaves == 0)
  }

  ghost predicate JobIsGated(j: Job) {
    match j
    case Idle => true
    case Fetched(spec, _) => spec.gate.Some?
    case Synced(spec, _) => spec.gate.Some?
    case Acting(i, o, _, _) => i.spec.gate.Some? && Early(o.status) && !o.why.Adoption? && PassLog(i, o) == []
  }

  ghost predicate Waiting(w: World) {
    Early(w.status) && w.spec.gate.Some? && JobIsGated(w.job) && NothingProven(w.log)
  }

  lemma EarlyPass(hash: Hasher, i: Input)
    requires InputWf(i) && i.spec.gate.Some? && Blind(i) && Early(i.status)
    ensures Early(Pass(hash, i).status) && !Pass(hash, i).why.Adoption?
    ensures PassLog(i, Pass(hash, i)) == []
  {
    BlindPass(hash, i);
    if GoesForward(hash, i) {
      GateWaveBelowTotal(hash, i);
      ForwardCases(hash, i);
      if GateWave(hash, i).Some? {
        GateVerdict(hash, i);
      }
      if HasPending(hash, i) {
        AdvanceStatus(hash, i);
      } else {
        CompleteStatus(hash, i);
      }
    }
  }

  lemma WaitingObserve(hash: Hasher, w: World, reply: Reply)
    requires Enabled(w, Observe(reply)) && Waiting(w) && Unanswered(w, Observe(reply))
    ensures Waiting(Next(hash, w, Observe(reply)))
  {
    var i := Observation(w, reply);
    EarlyPass(hash, i);
    assert w.log + PassLog(i, Pass(hash, i)) == w.log;
  }

  /** An early pass that completes nothing persists no event. */
  lemma EarlyStatusLog(hash: Hasher, i: Input, o: Outcome)
    requires InputWf(i) && o == Pass(hash, i) && PassLog(i, o) == [] && Early(o.status) && !o.why.Adoption?
    ensures StatusLog(hash, i, o) == []
  {
  }

  lemma WaitingPersist(hash: Hasher, w: World)
    requires Enabled(w, WriteStatus) && Waiting(w) && InputWf(w.job.input)
    requires w.job.outcome == Pass(hash, w.job.input)
    ensures Waiting(Next(hash, w, WriteStatus))
  {
    EarlyStatusLog(hash, w.job.input, w.job.outcome);
    assert w.log + [] == w.log;
  }

  lemma NothingProvenAppend(log: seq<Event>, e: Event)
    requires NothingProven(log) && (e.Released? || e.Removed?) && e.input.spec.gate.Some?
    ensures NothingProven(log + [e])
  {
  }

  lemma WaitingWrite(hash: Hasher, w: World, l: Label)
    requires Enabled(w, l) && Waiting(w) && (l.WriteDelete? || l.WriteUngate?)
    ensures Waiting(Next(hash, w, l))
  {
    var w' := Next(hash, w, l);
    if w'.log != w.log {
      NothingProvenAppend(w.log, w'.log[|w.log|]);
    }
  }

  lemma WaitingOther(hash: Hasher, w: World, l: Label)
    requires Enabled(w, l) && Waiting(w) && (l.Edit? ==> l.spec.gate.Some?)
    requires !l.Observe? && l != WriteStatus && !l.WriteDelete? && !l.WriteUngate?
    ensures Waiting(Next(hash, w, l))
  {
  }

  lemma WaitingStep(hash: Hasher, w: World, l: Label)
    requires Inv(hash, w) && Enabled(w, l) && Waiting(w) && Unanswered(w, l)
    requires l.Edit? ==> l.spec.gate.Some?
    ensures Waiting(Next(hash, w, l))
  {
    if l.Observe? {
      WaitingObserve(hash, w, l.reply);
    } else if l == WriteStatus {
      WaitingPersist(hash, w);
    } else if l.WriteDelete? || l.WriteUngate? {
      WaitingWrite(hash, w, l);
    } else {
      WaitingOther(hash, w, l);
    }
  }

  lemma {:induction false} RunWaits(hash: Hasher, ws: seq<World>, ls: seq<Label>, k: nat)
    requires IsRun(hash, ws, ls) && Initial(ws[0]) && NeverAnswered(ws, ls) && k < |ws|
    ensures Waiting(ws[k])
  {
    if k > 0 {
      RunWaits(hash, ws, ls, k - 1);
      RunKeepsInv(hash, ws, ls, k - 1);
      assert Stepped(hash, ws, ls, k - 1);
      WaitingStep(hash, ws[k - 1], ls[k - 1]);
    }
  }

  /**
    * With a gate always configured and never answered, no run goes beyond wave 0: nothing is recorded
    * as good, nothing rolls back or pauses, the mark stays 0, only nodes of a plan's first wave are
    * released, and no scheduled pod outside a first wave is removed.
    */
  lemma NoDataStaysInWaveZero(hash: Hasher, ws: seq<World>, ls: seq<Label>, k: nat)
    requires IsRun(hash, ws, ls) && Initial(ws[0]) && NeverAnswered(ws, ls) && k < |ws|
    ensures Early(ws[k].status)
    ensures forall j :: 0 <= j < |ws[k].log| && ws[k].log[j].Released? ==>
              var e := ws[k].log[j]; e.why.InWave? && e.why.wave == 0 && InWaveOf(e.why.key, 0, e.node)
    ensures forall j :: 0 <= j < |ws[k].log| && ws[k].log[j].Removed? ==>
              var e := ws[k].log[j];
              !Scheduled(e.pod) || (e.why.InWave? && e.why.wave == 0 && InWaveOf(e.why.key, 0, e.node))
  {
    RunWaits(hash, ws, ls, k);
    RunKeepsInv(hash, ws, ls, k);
    var log := ws[k].log;
    forall j | 0 <= j < |log| && log[j].Released?
      ensures var e := log[j]; e.why.InWave? && e.why.wave == 0 && InWaveOf(e.why.key, 0, e.node)
    {
      NothingProvenRelease(hash, log, j);
    }
    forall j | 0 <= j < |log| && log[j].Removed?
      ensures var e := log[j];
              !Scheduled(e.pod) || (e.why.InWave? && e.why.wave == 0 && InWaveOf(e.why.key, 0, e.node))
    {
      NothingProvenRelease(hash, log, j);
    }
  }

  lemma NothingProvenRelease(hash: Hasher, log: seq<Event>, j: nat)
    requires LogOk(hash, log) && NothingProven(log) && j < |log|
    ensures log[j].Released? ==> log[j].why.InWave? && log[j].why.wave == 0 && InWaveOf(log[j].why.key, 0, log[j].node)
    ensures log[j].Removed? ==>
              !Scheduled(log[j].pod)
              || (log[j].why.InWave? && log[j].why.wave == 0 && InWaveOf(log[j].why.key, 0, log[j].node))
  {
    assert EventOk(hash, log[..j], log[j]);
    assert log[j] in log;
    assert forall e :: e in log[..j] ==> e in log;
  }
}
