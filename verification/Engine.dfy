/**
  * One reconcile pass as a function: what is observed goes in, the new status and the pods to delete
  * and to ungate come out. The methods of module Controller are proved to compute it, and every
  * property of whole runs is proved about it.
  */
module Engine {
  import opened Prelude
  import opened Api
  import opened Templates
  import opened Waves
  import opened Gates

  // ---- What a pass sees of nodes and pods ----

  datatype View = View(ready: set<Name>, pods: map<Name, Pod>, hash: string)

  /** The node runs the desired template and its pod is Ready. */
  predicate Updated(v: View, n: Name) {
    && n in v.pods && !v.pods[n].terminating
    && PodHash(v.pods[n]) == v.hash && Scheduled(v.pods[n]) && v.pods[n].ready
  }

  predicate Stale(v: View, p: Pod) {
    PodHash(p) != v.hash
  }

  /** A live, scheduled pod of another template. */
  predicate Replaceable(v: View, n: Name) {
    n in v.pods && !v.pods[n].terminating && Stale(v, v.pods[n]) && Scheduled(v.pods[n])
  }

  datatype Class = UpToDate | Pending | Skipped

  function Classify(v: View, n: Name): Class {
    if Updated(v, n) then UpToDate else if n in v.ready then Pending else Skipped
  }

  function Of(v: View, nodes: seq<Name>, c: Class): seq<Name> {
    if nodes == [] then []
    else (if Classify(v, nodes[0]) == c then [nodes[0]] else []) + Of(v, nodes[1..], c)
  }

  // ---- The plan ----

  datatype PlanKey = PlanKey(hash: string, gen: int, waveSize: int, nodes: seq<Name>)

  function Key(p: Plan): PlanKey {
    PlanKey(p.hash, p.gen, p.waveSize, p.nodes)
  }

  /** What the CRD schema and the controller's own writes guarantee of a persisted plan. */
  predicate PlanWf(p: Plan) {
    && p.waveSize >= 1 && p.nodes != []
    && (p.evaluatingWave.Some? <==> p.gateStartedAt.Some?)
  }

  function Total(p: Plan): int
    requires p.waveSize >= 1
  {
    WaveCount(|p.nodes|, p.waveSize)
  }

  predicate PlanCurrent(plan: Option<Plan>, hash: string, gen: int) {
    plan.Some? && plan.value.hash == hash && plan.value.gen == gen
  }

  function FreshPlan(spec: Spec, gen: int, base: Template, cur: string, ready: seq<Name>): Plan {
    Plan(cur, TemplateImage(spec, base), gen, ResolveWaveSize(spec.waveSize, |ready|), ready, 0, None, None)
  }

  function EnsurePlan(plan: Option<Plan>, spec: Spec, gen: int, base: Template, cur: string,
      ready: seq<Name>): (p: Plan)
    requires ready != [] && (plan.Some? ==> PlanWf(plan.value))
    ensures PlanWf(p) && p.hash == cur && p.gen == gen
    ensures PlanCurrent(plan, cur, gen) ==> p == plan.value
    ensures !PlanCurrent(plan, cur, gen) ==> p.nodes == ready && p.gatedWaves == 0 && p.evaluatingWave.None?
                                             && 1 <= p.waveSize <= |ready|
  {
    if PlanCurrent(plan, cur, gen) then plan.value else FreshPlan(spec, gen, base, cur, ready)
  }

  function Wave(p: Plan, w: int): seq<Name>
    requires p.waveSize >= 1 && 0 <= w < Total(p)
  {
    WaveInRange(|p.nodes|, p.waveSize, w);
    WaveSlice(p.nodes, p.waveSize, w)
  }

  predicate WaveFullyUpdated(v: View, p: Plan, w: int)
    requires p.waveSize >= 1 && 0 <= w < Total(p)
  {
    forall n :: n in Wave(p, w) && n in v.ready ==> Updated(v, n)
  }

  /** The first wave at or after w that is not fully updated; 0 when there is none. */
  function FirstOpenWave(v: View, p: Plan, w: int): int
    requires p.waveSize >= 1 && 0 <= w <= Total(p)
    decreases Total(p) - w
  {
    if w == Total(p) then 0
    else if !WaveFullyUpdated(v, p, w) then w
    else FirstOpenWave(v, p, w + 1)
  }

  // ---- The health gate ----

  datatype Verdict = Latched | ConfigHold | Decided(action: Action)

  predicate Promotes(v: Verdict) {
    v == Latched || v == Decided(GatePass)
  }

  datatype GateResult = GateResult(plan: Plan, verdict: Verdict)

  /** The timeout anchor is set once, when a wave's gate is first consulted. */
  function Anchored(p: Plan, wave: int, now: int): Plan {
    if p.evaluatingWave == Some(wave) then p
    else p.(evaluatingWave := Some(wave), gateStartedAt := Some(now))
  }

  predicate ReplyWf(gate: Option<HealthGate>, reply: Reply) {
    gate.Some? && reply.Replies? ==> |reply.replies| == |ResolvedQueries(gate.value)|
  }

  ghost function GateAction(p: Plan, gate: HealthGate, now: int, reply: Reply,
                            policy: Policy, lastGood: Option<LastGood>): Action
    requires reply.Replies? && |reply.replies| == |ResolvedQueries(gate)| && p.gateStartedAt.Some?
  {
    var qs := ResolvedQueries(gate);
    DecideGate(Reachable(qs, reply.replies), Healthy(qs, reply.replies),
               now - p.gateStartedAt.value >= Timeout(gate),
               policy == OnFailure, lastGood.Some? && lastGood.value.hash != p.hash)
  }

  ghost function EvalGate(p: Plan, gate: HealthGate, wave: int, now: int, reply: Reply,
                          policy: Policy, lastGood: Option<LastGood>): (r: GateResult)
    requires PlanWf(p) && ReplyWf(Some(gate), reply)
    ensures PlanWf(r.plan) && Key(r.plan) == Key(p)
  {
    if p.gatedWaves >= wave + 1 then GateResult(p, Latched)
    else
      var q := Anchored(p, wave, now);
      if reply.ConfigError? then GateResult(q, ConfigHold)
      else
        var action := GateAction(q, gate, now, reply, policy, lastGood);
        if action == GatePass
        then GateResult(q.(gatedWaves := wave + 1, evaluatingWave := None, gateStartedAt := None), Decided(action))
        else GateResult(q, Decided(action))
  }

  /**
    * What a consulted gate does to the plan: a pass raises the mark to one past its wave and clears the
    * anchor; a hold anchors its wave, now or where that wave is anchored already; nothing else moves.
    */
  lemma GateEffect(p: Plan, gate: HealthGate, wave: int, now: int, reply: Reply, policy: Policy,
      lastGood: Option<LastGood>)
    requires PlanWf(p) && ReplyWf(Some(gate), reply)
    ensures var r := EvalGate(p, gate, wave, now, reply, policy, lastGood);
            && PlanWf(r.plan) && Key(r.plan) == Key(p)
            && (r.verdict == Latched <==> p.gatedWaves > wave) && (r.verdict == Latched ==> r.plan == p)
            && r.plan.gatedWaves == (if r.verdict == Decided(GatePass) then wave + 1 else p.gatedWaves)
            && (r.verdict == Decided(GatePass) ==> r.plan.evaluatingWave.None?)
            && (!Promotes(r.verdict) ==>
                  && r.plan.evaluatingWave == Some(wave)
                  && r.plan.gateStartedAt.value
                     == if p.evaluatingWave == Some(wave) then p.gateStartedAt.value else now)
  {
  }

  // ---- A pass ----

  /** `reply` is what monitoring would answer if this pass consulted a gate. */
  datatype Input = Input(
    spec: Spec,
    gen: int,
    status: Status,
    ready: seq<Name>,
    pods: map<Name, Pod>,
    now: int,
    reply: Reply)

  /** Why a pass touches pods. */
  datatype Why = Untouched | RuleA | InWave(key: PlanKey, wave: int) | Adoption(key: PlanKey) | RollbackTo(hash: string)

  datatype Consult = Unasked | Asked(wave: int, verdict: Verdict)

  datatype Outcome = Outcome(status: Status, dels: set<Name>, ungs: set<Name>, consult: Consult, why: Why)

  predicate StatusWf(st: Status) {
    st.plan.Some? ==> PlanWf(st.plan.value)
  }

  predicate InputWf(i: Input) {
    StatusWf(i.status) && ReplyWf(i.spec.gate, i.reply)
  }

  /** The status as a pass first sees it: a rollback of another template is abandoned. */
  function Begin(st: Status, gen: int, cur: string): (r: Status)
    ensures r.rollback.Some? <==> st.rollback.Some? && st.rollback.value.fromHash == cur && st.lastGood.Some?
    ensures r.rollback.Some? ==> r.rollback == st.rollback
    ensures r.plan == st.plan && r.lastGood == st.lastGood
  {
    var active := st.rollback.Some? && st.rollback.value.fromHash == cur && st.lastGood.Some?;
    st.(observedGeneration := gen, rollback := if active then st.rollback else None)
  }

  /** A rollback from this hash is on, and there is something to go back to. */
  predicate RollingBackFrom(st: Status, h: string) {
    st.rollback.Some? && st.rollback.value.fromHash == h && st.lastGood.Some?
  }

  /** The DaemonSet runs the last-good template while rolling back from the spec's, and else the spec's. */
  ghost predicate FollowsSpec(hash: Hasher, spec: Spec, st: Status, ds: Template) {
    forall t :: AsksFor(spec, t) ==>
      if RollingBackFrom(st, hash(t)) then Deploys(ds, st.lastGood.value.template, st.lastGood.value.hash, spec)
      else Deploys(ds, t, hash(t), spec)
  }

  function DesiredBase(spec: Spec, st: Status): Template
    requires st.rollback.Some? ==> st.lastGood.Some?
  {
    if st.rollback.Some? then st.lastGood.value.template else RenderBaseTemplate(spec)
  }

  function DesiredHash(hash: Hasher, spec: Spec, st: Status): string
    requires st.rollback.Some? ==> st.lastGood.Some?
  {
    if st.rollback.Some? then st.lastGood.value.hash else CurrentHash(hash, spec)
  }

  /** The desired template, rendered, is what the spec and the status call for. */
  lemma DesiredFollowsSpec(hash: Hasher, spec: Spec, st: Status, gen: int)
    ensures var begun := Begin(st, gen, CurrentHash(hash, spec));
            FollowsSpec(hash, spec, st,
                        RenderedTemplate(DesiredBase(spec, begun), DesiredHash(hash, spec, begun), spec))
  {
    TheSpecsTemplate(hash, spec);
  }

  function BeginInput(hash: Hasher, i: Input): Status {
    Begin(i.status, i.gen, CurrentHash(hash, i.spec))
  }

  function ViewOf(hash: Hasher, i: Input): View {
    View(ToSet(i.ready), i.pods, DesiredHash(hash, i.spec, BeginInput(hash, i)))
  }

  /** Live pods of another template that are still gated: they run nothing, so all of them go. */
  function GatedStale(v: View): set<Name> {
    set n | n in v.pods && !v.pods[n].terminating && Stale(v, v.pods[n]) && PodGated(v.pods[n])
  }

  ghost function Pass(hash: Hasher, i: Input): Outcome
    requires InputWf(i)
  {
    var st := BeginInput(hash, i);
    var v := ViewOf(hash, i);
    if i.ready == [] then Outcome(st.(phase := Progressing), {}, {}, Unasked, Untouched)
    else if GatedStale(v) != {} then Outcome(st.(phase := Progressing), GatedStale(v), {}, Unasked, RuleA)
    else if st.rollback.Some? then RollbackPass(i.spec, st, i.ready, v)
    else ForwardPass(i, st, RenderBaseTemplate(i.spec), v)
  }

  // ---- Rollback ----

  /** The first `budget` replaceable nodes. */
  function TakeStale(v: View, nodes: seq<Name>, budget: int): seq<Name> {
    if nodes == [] || budget <= 0 then []
    else if Replaceable(v, nodes[0]) then [nodes[0]] + TakeStale(v, nodes[1..], budget - 1)
    else TakeStale(v, nodes[1..], budget)
  }

  function Releasable(v: View, nodes: seq<Name>): set<Name> {
    set n | n in nodes && n in v.pods && PodGatedOn(v.pods[n], v.hash)
  }

  function RollbackPass(spec: Spec, st: Status, ready: seq<Name>, v: View): Outcome
    requires ready != []
  {
    var size := ResolveWaveSize(spec.waveSize, |ready|);
    var ungs := Releasable(v, ready);
    var dels := ToSet(TakeStale(v, ready, size));
    var updated := |Of(v, ready, UpToDate)|;
    var phase := if ungs == {} && dels == {} && updated == |ready| then RolledBack else RollingBack;
    Outcome(st.(totalWaves := WaveCount(|ready|, size), updatedNodes := updated, phase := phase),
            dels, ungs, Unasked, RollbackTo(v.hash))
  }

  // ---- Forward ----

  /** The status after the plan is ensured and progress is derived. */
  function Progress(st: Status, p: Plan, v: View): Status
    requires p.waveSize >= 1
  {
    st.(plan := Some(p), totalWaves := Total(p),
        updatedNodes := |Of(v, p.nodes, UpToDate)|, skippedNodes := Of(v, p.nodes, Skipped))
  }

  function Hold(st: Status, p: Plan, verdict: Verdict, now: int): Status {
    var st' := st.(plan := Some(p));
    if verdict == Decided(GateRollback)
    then st'.(rollback := Some(Rollback(p.hash, p.image, now)), phase := RollingBack)
    else if verdict == Decided(GatePauseTimeout) then st'.(phase := Paused)
    else st'
  }

  function Finish(st: Status, p: Plan, lastGood: LastGood): Status
    requires p.waveSize >= 1
  {
    st.(plan := Some(p), phase := Done, currentWave := Total(p), lastGood := Some(lastGood))
  }

  /** Gated pods of the current template on Ready target nodes. */
  function Adoptable(v: View): set<Name> {
    set n | n in v.pods && n in v.ready && PodGatedOn(v.pods[n], v.hash)
  }

  function WaveStale(v: View, nodes: seq<Name>): set<Name> {
    set n | n in nodes && n in v.ready && Replaceable(v, n)
  }

  function WaveGated(v: View, nodes: seq<Name>): set<Name> {
    set n | n in nodes && n in v.ready && n in v.pods && !v.pods[n].terminating
            && !Replaceable(v, n) && PodGatedOn(v.pods[n], v.hash)
  }

  ghost function ForwardPass(i: Input, st: Status, base: Template, v: View): Outcome
    requires InputWf(i) && st.plan == i.status.plan && i.ready != []
  {
    var p := EnsurePlan(st.plan, i.spec, i.gen, base, v.hash, i.ready);
    var st' := Progress(st, p, v);
    if |Of(v, p.nodes, Pending)| == 0 then Complete(i, st', p, base, v) else Advance(i, st', p, v)
  }

  ghost function Complete(i: Input, st: Status, p: Plan, base: Template, v: View): Outcome
    requires InputWf(i) && PlanWf(p)
  {
    var lastGood := LastGood(v.hash, TemplateImage(i.spec, base), base);
    if i.spec.gate.None? then
      Outcome(Finish(st, p, lastGood), {}, Adoptable(v), Unasked, Adoption(Key(p)))
    else
      var wave := Total(p) - 1;
      var g := EvalGate(p, i.spec.gate.value, wave, i.now, i.reply, i.spec.policy, st.lastGood);
      if Promotes(g.verdict)
      then Outcome(Finish(st, g.plan, lastGood), {}, Adoptable(v), Asked(wave, g.verdict), Adoption(Key(p)))
      else Outcome(Hold(st, g.plan, g.verdict, i.now), {}, {}, Asked(wave, g.verdict), Untouched)
  }

  ghost function Advance(i: Input, st: Status, p: Plan, v: View): Outcome
    requires InputWf(i) && PlanWf(p)
  {
    FirstOpenInRange(v, p, 0);
    var cur := FirstOpenWave(v, p, 0);
    var st' := st.(currentWave := cur, phase := Progressing);
    if cur == 0 || i.spec.gate.None? then Act(st', p, cur, v, Unasked)
    else
      var g := EvalGate(p, i.spec.gate.value, cur - 1, i.now, i.reply, i.spec.policy, st.lastGood);
      if Promotes(g.verdict)
      then Act(st'.(plan := Some(g.plan)), p, cur, v, Asked(cur - 1, g.verdict))
      else Outcome(Hold(st', g.plan, g.verdict, i.now), {}, {}, Asked(cur - 1, g.verdict), Untouched)
  }

  function Act(st: Status, p: Plan, cur: int, v: View, consult: Consult): Outcome
    requires PlanWf(p) && 0 <= cur < Total(p)
  {
    var stale := WaveStale(v, Wave(p, cur));
    if stale != {} then Outcome(st, stale, {}, consult, InWave(Key(p), cur))
    else Outcome(st, {}, WaveGated(v, Wave(p, cur)), consult, InWave(Key(p), cur))
  }

  lemma TotalPositive(p: Plan)
    requires PlanWf(p)
    ensures Total(p) >= 1
  {
    CeilDivBounds(|p.nodes|, p.waveSize);
    assert Total(p) * p.waveSize >= 1;
  }

  lemma FirstOpenInRange(v: View, p: Plan, w: int)
    requires PlanWf(p) && 0 <= w <= Total(p)
    ensures Total(p) >= 1 && 0 <= FirstOpenWave(v, p, w) < Total(p)
    decreases Total(p) - w
  {
    TotalPositive(p);
  }
}
