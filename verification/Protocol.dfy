/**
  * The distributed protocol. A reconcile is a sequence of API calls that may be cut by a crash and is
  * interleaved with node flaps, the DaemonSet controller, the scheduler, evictions, the clock and spec
  * edits. The log is history: it records what was released, removed, passed and completed.
  */
module Protocol {
  import opened Prelude
  import opened Api
  import opened Templates
  import opened Waves
  import opened Gates
  import opened Engine
  import opened PassProperties
  import opened GateProperties

  // ---- State ----

  /** The reconcile in flight: the resource was read, the DaemonSet was written, or pods are being written. */
  datatype Job =
    | Idle
    | Fetched(spec: Spec, gen: int)
    | Synced(spec: Spec, gen: int)
    | Acting(input: Input, outcome: Outcome, dels: set<Name>, ungs: set<Name>)

  /** `input` is what the pass that caused the event observed. */
  datatype Event =
    | GatePassed(key: PlanKey, wave: int, input: Input)
    | Released(node: Name, pod: Pod, why: Why, input: Input)
    | Removed(node: Name, pod: Pod, why: Why, input: Input)
    | Latch(key: PlanKey, wave: int, input: Input)
    | Completed(key: PlanKey, gated: bool)
    | RollbackBegun(input: Input)

  datatype World = World(
    spec: Spec,
    gen: int,
    status: Status,
    ds: Option<Template>,
    nodes: map<Name, Node>,
    pods: map<Name, Pod>,
    clock: int,
    nextUid: nat,
    job: Job,
    log: seq<Event>)

  ghost predicate Initial(w: World) {
    && w.status == EMPTY_STATUS && w.ds.None? && w.pods == map[] && w.job == Idle && w.log == [] && "" !in w.nodes
  }

  // ---- Steps ----

  datatype Label =
    // the controller
    | Fetch
    | SyncDaemonSet
    | Observe(reply: Reply)
    | WriteDelete(node: Name)
    | WriteUngate(node: Name)
    | WriteStatus
    | Crash
    // everything else
    | SetNode(node: Name, info: Node)
    | DropNode(node: Name)
    | Evict(node: Name)
    | Vanish(node: Name)
    | Create(node: Name, before: seq<string>, after: seq<string>)
    | Regate(node: Name, gates: seq<string>)
    | Schedule(node: Name)
    | SetReady(node: Name, ready: bool)
    | Tick(elapsed: nat)
    | Edit(spec: Spec)

  ghost function Observation(w: World, reply: Reply): Input
    requires w.job.Synced?
  {
    Input(w.job.spec, w.job.gen, w.status, Order(ReadyTargets(w.nodes)), w.pods, w.clock, reply)
  }

  ghost predicate Enabled(w: World, l: Label) {
    match l
    case Fetch => w.job == Idle
    case SyncDaemonSet => w.job.Fetched?
    case Observe(reply) => w.job.Synced? && InputWf(Observation(w, reply))
    case WriteDelete(n) => w.job.Acting? && n in w.job.dels
    case WriteUngate(n) => w.job.Acting? && n in w.job.ungs
    case WriteStatus => w.job.Acting? && w.job.dels == {} && w.job.ungs == {}
    case Crash => true
    case SetNode(n, _) => n != ""
    case DropNode(n) => n in w.nodes
    case Evict(n) => n in w.pods
    case Vanish(n) => n in w.pods && w.pods[n].terminating
    // the DaemonSet controller makes at most one pod per node, from the current template; the template's
    // node selector knows only the match labels, so the node need not be a target
    case Create(n, _, _) => n in w.nodes && n !in w.pods && w.ds.Some?
    // others may change their own gates, never the wave gate, and only before scheduling
    case Regate(n, gates) => n in w.pods && !Scheduled(w.pods[n]) && (WAVE_GATE in gates <==> PodGated(w.pods[n]))
    // the scheduler binds no pod that still has a scheduling gate
    case Schedule(n) => n in w.pods && !Scheduled(w.pods[n]) && w.pods[n].gates == []
    case SetReady(n, _) => n in w.pods && Scheduled(w.pods[n])
    case Tick(_) => true
    case Edit(_) => true
  }

  /** The pass asked a gate, and it passed. */
  predicate PassesGate(o: Outcome) {
    o.consult.Asked? && o.consult.verdict == Decided(GatePass) && o.status.plan.Some?
  }

  /** What a pass adds to the history when it takes its decision. */
  ghost function PassLog(i: Input, o: Outcome): seq<Event> {
    if PassesGate(o) then [GatePassed(Key(o.status.plan.value), o.consult.wave, i)] else []
  }

  /** A gate pass is latched once the status of the pass that saw it is persisted. */
  ghost function LatchLog(i: Input, o: Outcome): seq<Event> {
    if PassesGate(o) then [Latch(Key(o.status.plan.value), o.consult.wave, i)] else []
  }

  ghost function CompletedLog(i: Input, o: Outcome): seq<Event> {
    if o.why.Adoption? then [Completed(o.why.key, i.spec.gate.Some?)] else []
  }

  ghost function RollbackLog(hash: Hasher, i: Input, o: Outcome): seq<Event> {
    if o.status.rollback.Some? && BeginInput(hash, i).rollback.None? then [RollbackBegun(i)] else []
  }

  /** What persisting a status adds to the history. */
  ghost function StatusLog(hash: Hasher, i: Input, o: Outcome): seq<Event> {
    LatchLog(i, o) + CompletedLog(i, o) + RollbackLog(hash, i, o)
  }

  predicate SamePod(w: World, i: Input, n: Name) {
    n in w.pods && n in i.pods && w.pods[n].uid == i.pods[n].uid
  }

  ghost function Next(hash: Hasher, w: World, l: Label): World
    requires Enabled(w, l)
  {
    match l
    case Fetch => w.(job := Fetched(w.spec, w.gen))
    case SyncDaemonSet =>
      var st := Begin(w.status, w.job.gen, CurrentHash(hash, w.job.spec));
      w.(ds := Some(RenderedTemplate(DesiredBase(w.job.spec, st), DesiredHash(hash, w.job.spec, st), w.job.spec)),
         job := Synced(w.job.spec, w.job.gen))
    case Observe(reply) =>
      var i := Observation(w, reply);
      var o := Pass(hash, i);
      w.(job := Acting(i, o, o.dels, o.ungs), log := w.log + PassLog(i, o))
    case WriteDelete(n) =>
      // deleting a pod that is gone is ignored
      var j := w.job;
      var rest := j.(dels := j.dels - {n});
      if !SamePod(w, j.input, n) then w.(job := rest)
      else w.(job := rest, pods := w.pods[n := Deleted(w.pods[n])],
              log := w.log + [Removed(n, w.pods[n], j.outcome.why, j.input)])
    case WriteUngate(n) =>
      // updating a pod that is gone is ignored; one that has changed is a conflict and ends the pass
      var j := w.job;
      var rest := j.(ungs := j.ungs - {n});
      if !SamePod(w, j.input, n) then w.(job := rest)
      else if w.pods[n] != j.input.pods[n] then w.(job := Idle)
      else w.(job := rest, pods := w.pods[n := Ungated(w.pods[n])],
              log := w.log + [Released(n, w.pods[n], j.outcome.why, j.input)])
    case WriteStatus =>
      // the update conflicts if the spec was edited meanwhile
      if w.gen != w.job.input.gen then w.(job := Idle)
      else w.(job := Idle, status := w.job.outcome.status,
              log := w.log + StatusLog(hash, w.job.input, w.job.outcome))
    case Crash => w.(job := Idle)
    case SetNode(n, info) => w.(nodes := w.nodes[n := info])
    case DropNode(n) => w.(nodes := w.nodes - {n})
    case Evict(n) => w.(pods := w.pods[n := Deleted(w.pods[n])])
    case Vanish(n) => w.(pods := w.pods - {n})
    case Create(n, before, after) =>
      w.(pods := w.pods[n := NewPod(w.ds.value, n, w.nextUid, before, after)], nextUid := w.nextUid + 1)
    case Regate(n, gates) => w.(pods := w.pods[n := w.pods[n].(gates := gates)])
    case Schedule(n) => w.(pods := w.pods[n := w.pods[n].(nodeName := n)])
    case SetReady(n, b) => w.(pods := w.pods[n := w.pods[n].(ready := b)])
    case Tick(elapsed) => w.(clock := w.clock + elapsed)
    case Edit(spec) => w.(spec := spec, gen := w.gen + 1)
  }

  // ---- History ----

  predicate HasPass(log: seq<Event>, key: PlanKey, wave: int) {
    exists e :: e in log && e.GatePassed? && e.key == key && e.wave == wave
  }

  predicate HasPassFrom(log: seq<Event>, key: PlanKey, wave: int) {
    exists e :: e in log && e.GatePassed? && e.key == key && e.wave >= wave
  }

  predicate HasLatch(log: seq<Event>, key: PlanKey, wave: int) {
    exists e :: e in log && e.Latch? && e.key == key && e.wave == wave
  }

  predicate HasCompleted(log: seq<Event>, h: string) {
    exists e :: e in log && e.Completed? && e.key.hash == h
  }

  predicate InWaveOf(key: PlanKey, w: int, n: Name) {
    key.waveSize >= 1 && 0 <= w < WaveCount(|key.nodes|, key.waveSize)
    && (WaveInRange(|key.nodes|, key.waveSize, w); n in WaveSlice(key.nodes, key.waveSize, w))
  }

  /** Every planned Ready node of the waves before `wave` was up to date. */
  predicate EarlierWavesUpdated(key: PlanKey, wave: int, v: View) {
    forall u, n :: 0 <= u < wave && InWaveOf(key, u, n) && n in v.ready ==> Updated(v, n)
  }

  /** The plan is for the template and the generation the pass observed. */
  predicate PlanOf(hash: Hasher, key: PlanKey, i: Input) {
    key.hash == CurrentHash(hash, i.spec) && key.gen == i.gen
  }

  /** Why the history allows a pass to touch pods for this reason. */
  ghost predicate Justified(hash: Hasher, log: seq<Event>, why: Why, i: Input) {
    var v, gated := ViewOf(hash, i), i.spec.gate.Some?;
    match why
    case Untouched => false
    case RuleA => true
    case InWave(key, w) =>
      && v.hash == key.hash && PlanOf(hash, key, i) && EarlierWavesUpdated(key, w, v)
      && (gated && w > 0 ==> HasPassFrom(log, key, w - 1))
    case Adoption(key) =>
      && v.hash == key.hash && PlanOf(hash, key, i) && key.waveSize >= 1
      && EarlierWavesUpdated(key, WaveCount(|key.nodes|, key.waveSize), v)
      && (gated ==> HasPass(log, key, WaveCount(|key.nodes|, key.waveSize) - 1))
    case RollbackTo(h) => v.hash == h && h != CurrentHash(hash, i.spec) && HasCompleted(log, h)
  }

  /** The mark the pass started from is one past the last latch of its plan, and it latches above it. */
  ghost predicate LatchOk(hash: Hasher, log: seq<Event>, key: PlanKey, wave: int, i: Input) {
    && InputWf(i) && GateWave(hash, i) == Some(wave)
    && Key(PassPlan(hash, i)) == key && AllPass(i.spec.gate.value, i.reply)
    && var mark := PassPlan(hash, i).gatedWaves;
    && 0 <= mark <= wave && (mark > 0 ==> HasLatch(log, key, mark - 1))
    && forall u :: HasLatch(log, key, u) ==> u < mark
  }

  ghost predicate EventOk(hash: Hasher, log: seq<Event>, e: Event) {
    match e
    case GatePassed(key, wave, i) =>
      && i.spec.gate.Some? && AllPass(i.spec.gate.value, i.reply)
      && ViewOf(hash, i).hash == key.hash && PlanOf(hash, key, i) && key.waveSize >= 1
      && 0 <= wave < WaveCount(|key.nodes|, key.waveSize)
      && EarlierWavesUpdated(key, wave + 1, ViewOf(hash, i))
    case Released(n, pod, why, i) =>
      && Justified(hash, log, why, i) && why != RuleA
      && n in i.pods && pod == i.pods[n] && PodHash(pod) == ViewOf(hash, i).hash && n in i.ready
      && (why.InWave? ==> InWaveOf(why.key, why.wave, n))
      && (why.Adoption? ==> n !in why.key.nodes)
    case Removed(n, pod, why, i) =>
      && Justified(hash, log, why, i) && !why.Adoption?
      && n in i.pods && pod.uid == i.pods[n].uid && PodHash(pod) != ViewOf(hash, i).hash
      && (why == RuleA ==> !Scheduled(pod))
      && (why != RuleA ==> n in i.ready)
      && (why.InWave? ==> InWaveOf(why.key, why.wave, n))
    case Latch(key, wave, i) => HasPass(log, key, wave) && LatchOk(hash, log, key, wave, i)
    case Completed(key, gated) =>
      key.waveSize >= 1 && (gated ==> HasPass(log, key, WaveCount(|key.nodes|, key.waveSize) - 1))
    case RollbackBegun(i) => InputWf(i) && RollbackDue(hash, i)
  }

  ghost predicate LogOk(hash: Hasher, log: seq<Event>) {
    forall k :: 0 <= k < |log| ==> EventOk(hash, log[..k], log[k])
  }

  // ---- Invariant ----

  ghost predicate PlanGood(p: Plan, now: int, log: seq<Event>) {
    && PlanWf(p) && Sorted(p.nodes) && p.waveSize <= |p.nodes|
    && 0 <= p.gatedWaves <= Total(p)
    && (p.evaluatingWave.Some? ==> p.gatedWaves <= p.evaluatingWave.value < Total(p) && p.gateStartedAt.value <= now)
    && (p.gatedWaves > 0 ==> HasPass(log, Key(p), p.gatedWaves - 1))
  }

  ghost predicate StatusGood(hash: Hasher, st: Status, now: int, log: seq<Event>) {
    && (st.plan.Some? ==> PlanGood(st.plan.value, now, log))
    && (st.rollback.Some? ==> st.lastGood.Some? && st.lastGood.value.hash != st.rollback.value.fromHash)
    && (st.rollback.Some? ==> st.plan.Some? && st.plan.value.gatedWaves < Total(st.plan.value))
    && (st.lastGood.Some? ==> hash(st.lastGood.value.template) == st.lastGood.value.hash)
  }

  /** The plan belongs to the current generation or to an older one. */
  predicate PlanOfGen(hash: Hasher, st: Status, gen: int, spec: Spec) {
    st.plan.Some? ==> st.plan.value.gen <= gen
                      && (st.plan.value.gen == gen ==> st.plan.value.hash == CurrentHash(hash, spec))
  }

  /** The persisted mark is one past the last latched wave of the persisted plan. */
  ghost predicate LatchesGood(st: Status, log: seq<Event>) {
    && (forall e :: e in log && e.Latch? ==>
          && st.plan.Some? && e.key.gen <= st.plan.value.gen
          && (e.key.gen == st.plan.value.gen ==> e.key == Key(st.plan.value) && e.wave < st.plan.value.gatedWaves))
    && (st.plan.Some? && st.plan.value.gatedWaves > 0 ==>
        HasLatch(log, Key(st.plan.value), st.plan.value.gatedWaves - 1))
  }

  ghost predicate RenderedOfSomeBase(hash: Hasher, t: Template) {
    exists base :: RenderedFrom(t, base, hash(base))
  }

  ghost predicate PodsGood(hash: Hasher, pods: map<Name, Pod>, nextUid: nat) {
    && PodsWf(pods)
    && forall n :: n in pods ==> pods[n].uid < nextUid && RenderedOfSomeBase(hash, pods[n].template)
                                 && (Scheduled(pods[n]) ==> pods[n].nodeName == n)
  }

  /** The live pod of that uid still has the template it had when observed. */
  ghost predicate StillThat(w: World, i: Input, o: Outcome, dels: set<Name>) {
    && (forall n :: n in i.pods ==> i.pods[n].uid < w.nextUid)
    && (forall n :: SamePod(w, i, n) ==>
          && w.pods[n].template == i.pods[n].template
          && (o.why == RuleA && n in dels ==> PodGated(w.pods[n])))
  }

  ghost predicate JobGen(w: World, spec: Spec, gen: int) {
    gen <= w.gen && (gen == w.gen ==> spec == w.spec)
    && (w.status.plan.Some? ==> w.status.plan.value.gen <= gen)
  }

  ghost predicate JobGood(hash: Hasher, w: World) {
    match w.job
    case Idle => true
    case Fetched(spec, gen) => JobGen(w, spec, gen)
    case Synced(spec, gen) => JobGen(w, spec, gen)
    case Acting(i, o, dels, ungs) =>
      && JobGen(w, i.spec, i.gen)
      && InputWf(i) && i.status == w.status && i.now <= w.clock && PodsWf(i.pods) && Sorted(i.ready)
      && o == Pass(hash, i) && dels <= o.dels && ungs <= o.ungs
      && StatusGood(hash, o.status, w.clock, w.log)
      && (dels + ungs != {} ==> Justified(hash, w.log, o.why, i))
      && (o.why.Adoption? ==> Justified(hash, w.log, o.why, i))
      && StillThat(w, i, o, dels)
  }

  ghost predicate Inv(hash: Hasher, w: World) {
    && StatusGood(hash, w.status, w.clock, w.log)
    && PlanOfGen(hash, w.status, w.gen, w.spec)
    && LatchesGood(w.status, w.log)
    && (w.status.lastGood.Some? ==> HasCompleted(w.log, w.status.lastGood.value.hash))
    && (w.ds.Some? ==> RenderedOfSomeBase(hash, w.ds.value))
    && "" !in w.nodes && PodsGood(hash, w.pods, w.nextUid)
    && JobGood(hash, w)
    && LogOk(hash, w.log)
  }

  lemma InitialInv(hash: Hasher, w: World)
    requires Initial(w)
    ensures Inv(hash, w)
  {
  }
}
