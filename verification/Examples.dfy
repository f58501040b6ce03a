/** Runs, from an initial world, of what the documentation does not lead one to expect. */
module Examples {
  import opened Prelude
  import opened Api
  import opened Templates
  import opened Waves
  import opened Gates
  import opened Engine
  import opened PassProperties
  import opened GateProperties
  import opened Protocol
  import opened Invariant
  import opened Runs
  import opened Atomic
  import opened Timeouts

  const UP_GATE := HealthGate("up", [], 0)

  function ExampleSpec(image: string, gate: Option<HealthGate>): Spec {
    Spec("fr", map[], image, None, IntVal(1), gate, OnFailure)
  }

  const HERE := Node(true, true)
  const AWAY := Node(false, true)

  function FirstWorld(spec: Spec, nodes: map<Name, Node>): World {
    World(spec, 1, EMPTY_STATUS, None, nodes, map[], 0, 0, Idle, [])
  }

  function Answer(r: QueryReply): Reply {
    Replies([r])
  }

  const UP := Vector([Sampled(Finite(1.0))])
  const DOWN := Vector([Sampled(Finite(0.0))])

  // ---- A fleet whose pods have not been created yet ----

  ghost predicate NoPodsYet(hash: Hasher, i: Input) {
    InputWf(i) && i.pods == map[] && i.ready != [] && BeginInput(hash, i).rollback.None?
  }

  /** The first planned node is Ready: the pass waits in wave 0 and asks nothing. */
  lemma WaitsInWaveZero(hash: Hasher, i: Input)
    requires NoPodsYet(hash, i) && PassPlan(hash, i).nodes[0] in i.ready
    ensures var o := Pass(hash, i);
            && o.dels == {} && o.ungs == {} && !PassesGate(o) && o.why.InWave?
            && o.status.plan == Some(PassPlan(hash, i)) && o.status.lastGood == i.status.lastGood
            && o.status.rollback.None?
  {
    var p, v := PassPlan(hash, i), ViewOf(hash, i);
    assert GatedStale(v) == {};
    NoneOf(v, p.nodes, Pending);
    assert Classify(v, p.nodes[0]) == Pending;
    TotalPositive(p);
    assert p.nodes[0] in Wave(p, 0);
    AdvanceCases(hash, i);
    AdvanceStatus(hash, i);
  }

  /** No planned node is Ready: nothing is pending and the final gate decides. */
  lemma NothingIsPending(hash: Hasher, i: Input)
    requires NoPodsYet(hash, i) && forall n :: n in PassPlan(hash, i).nodes ==> n !in i.ready
    ensures GoesForward(hash, i) && !HasPending(hash, i)
    ensures GateWave(hash, i) == if i.spec.gate.Some? then Some(Total(PassPlan(hash, i)) - 1) else None
    ensures Pass(hash, i).dels == {} && Pass(hash, i).ungs == {}
        && Pass(hash, i).status.plan == Some(PlanAfter(hash, i))
    ensures Pass(hash, i).status.updatedNodes == 0 && Pass(hash, i).consult == ConsultOf(hash, i)
  {
    var p, v := PassPlan(hash, i), ViewOf(hash, i);
    assert GatedStale(v) == {};
    NoneOf(v, p.nodes, Pending);
    NoneOf(v, p.nodes, UpToDate);
    CompleteCases(hash, i);
    CompleteReports(hash, i);
    if !Holds(hash, i) {
      AdoptionScope(hash, i);
      assert Adoptable(v) == {};
    }
  }

  // ---- Building runs ----

  /** A run from `first` to `w` in which no pod exists yet and the controller is idle. */
  ghost predicate QuietRun(hash: Hasher, first: World, ws: seq<World>, ls: seq<Label>, w: World) {
    RunFrom(hash, first, ws, ls, w) && Initial(first) && StatusWf(w.status) && w.job == Idle && w.pods == map[]
  }

  lemma StartRun(hash: Hasher, first: World)
    requires Initial(first)
    ensures QuietRun(hash, first, [first], [], first)
  {
  }

  /** One more step of the environment that creates no pod. */
  lemma EnvironmentStep(hash: Hasher, first: World, ws: seq<World>, ls: seq<Label>, w: World, l: Label)
    requires QuietRun(hash, first, ws, ls, w) && (l.SetNode? || l.Tick? || l.Edit?) && Enabled(w, l)
    ensures QuietRun(hash, first, ws + [Next(hash, w, l)], ls + [l], Next(hash, w, l))
  {
    AppendStep(hash, first, ws, ls, w, l);
  }

  /** The node names seen Ready are those of a set. */
  lemma ReadyIs(nodes: map<Name, Node>, s: set<Name>)
    requires forall n :: n in s <==> n in nodes && nodes[n].ready && nodes[n].target
    ensures ReadyTargets(nodes) == s && forall n :: n in Order(ReadyTargets(nodes)) <==> n in s
  {
    assert ToSet(Order(ReadyTargets(nodes))) == ReadyTargets(nodes);
    assert forall n :: n in Order(ReadyTargets(nodes)) <==> n in ToSet(Order(ReadyTargets(nodes)));
  }

  /** The world after a whole pass that writes no pod. */
  ghost function AfterPass(hash: Hasher, w: World, reply: Reply): World
    requires InputWf(PassInput(w, reply))
  {
    var i := PassInput(w, reply);
    var o := Pass(hash, i);
    w.(status := o.status, ds := Some(DesiredTemplate(hash, i)), log := w.log + PassLog(i, o) + StatusLog(hash, i, o))
  }

  /** The world in the middle of that pass, about to write the status. */
  ghost function MidPass(hash: Hasher, w: World, reply: Reply): World
    requires InputWf(PassInput(w, reply))
  {
    var i := PassInput(w, reply);
    var o := Pass(hash, i);
    w.(ds := Some(DesiredTemplate(hash, i)), log := w.log + PassLog(i, o), job := Acting(i, o, {}, {}))
  }

  lemma PassStep(hash: Hasher, first: World, ws: seq<World>, ls: seq<Label>, w: World, reply: Reply)
      returns (vs: seq<World>, ms: seq<Label>)
    requires QuietRun(hash, first, ws, ls, w) && ReplyWf(w.spec.gate, reply)
    requires InputWf(PassInput(w, reply))
    requires Pass(hash, PassInput(w, reply)).dels == {} && Pass(hash, PassInput(w, reply)).ungs == {}
    ensures QuietRun(hash, first, vs, ms, AfterPass(hash, w, reply))
    ensures |ms| == |ls| + 4 && ws <= vs && ls <= ms && vs[|ls| + 3] == MidPass(hash, w, reply)
        && ms[|ls| + 3] == WriteStatus
    ensures ms[|ls|] == Fetch && ms[|ls| + 1] == SyncDaemonSet && ms[|ls| + 2] == Observe(reply)
  {
    var w1 := Next(hash, w, Fetch);
    var w2 := Next(hash, w1, SyncDaemonSet);
    var us := [w, w1, w2, MidPass(hash, w, reply), AfterPass(hash, w, reply)];
    var ns := [Fetch, SyncDaemonSet, Observe(reply), WriteStatus];
    FourSteps(hash, w, reply);
    Chain(hash, first, ws, ls, w, us, ns, us[4]);
    vs, ms := ws + us[1..], ls + ns;
    PersistedStatusWf(hash, vs, ms, |ms|);
  }

  /** A pass that writes no pod takes four steps. */
  lemma FourSteps(hash: Hasher, w: World, reply: Reply)
    requires StatusWf(w.status) && w.job == Idle && ReplyWf(w.spec.gate, reply) && InputWf(PassInput(w, reply))
    requires Pass(hash, PassInput(w, reply)).dels == {} && Pass(hash, PassInput(w, reply)).ungs == {}
    ensures var w1 := Next(hash, w, Fetch);
            var w2 := Next(hash, w1, SyncDaemonSet);
            var us := [w, w1, w2, MidPass(hash, w, reply), AfterPass(hash, w, reply)];
            RunFrom(hash, w, us, [Fetch, SyncDaemonSet, Observe(reply), WriteStatus], us[4])
  {
    var w1 := Next(hash, w, Fetch);
    var w2 := Next(hash, w1, SyncDaemonSet);
    var us := [w, w1, w2, MidPass(hash, w, reply), AfterPass(hash, w, reply)];
    var ns := [Fetch, SyncDaemonSet, Observe(reply), WriteStatus];
    DecisionStep(hash, w2, w, reply);
    StatusStepOf(hash, w, reply);
    assert Stepped(hash, us, ns, 0) && Stepped(hash, us, ns, 1) && Stepped(hash, us, ns, 2) && Stepped(hash, us, ns, 3);
  }

  lemma DecisionStep(hash: Hasher, w2: World, w: World, reply: Reply)
    requires InputWf(PassInput(w, reply)) && w.job == Idle && w2 == Next(hash, Next(hash, w, Fetch), SyncDaemonSet)
    requires Pass(hash, PassInput(w, reply)).dels == {} && Pass(hash, PassInput(w, reply)).ungs == {}
    ensures Enabled(w2, Observe(reply)) && Next(hash, w2, Observe(reply)) == MidPass(hash, w, reply)
  {
    assert Observation(w2, reply) == PassInput(w, reply);
  }

  lemma StatusStepOf(hash: Hasher, w: World, reply: Reply)
    requires InputWf(PassInput(w, reply)) && w.job == Idle
    ensures Enabled(MidPass(hash, w, reply), WriteStatus)
    ensures Next(hash, MidPass(hash, w, reply), WriteStatus) == AfterPass(hash, w, reply)
  {
  }

  lemma PersistedStatusWf(hash: Hasher, ws: seq<World>, ls: seq<Label>, k: nat)
    requires IsRun(hash, ws, ls) && Initial(ws[0]) && k < |ws|
    ensures StatusWf(ws[k].status)
  {
    RunKeepsInv(hash, ws, ls, k);
  }

  /** A pass that asks nothing, completes nothing and starts no rollback adds nothing to the history. */
  lemma NothingLogged(hash: Hasher, i: Input, o: Outcome)
    requires !PassesGate(o) && !o.why.Adoption? && o.status.rollback.None?
    ensures PassLog(i, o) == [] && StatusLog(hash, i, o) == []
  {
  }

  /** From a world without pods and with a fresh plan to make: the plan is made and nothing else happens. */
  lemma PlanningPass(hash: Hasher, first: World, ws: seq<World>, ls: seq<Label>, w: World, reply: Reply,
      ready: set<Name>)
      returns (vs: seq<World>, ms: seq<Label>, w': World)
    requires QuietRun(hash, first, ws, ls, w) && ReplyWf(w.spec.gate, reply) && ready != {}
    requires forall n :: n in ready <==> n in w.nodes && w.nodes[n].ready && w.nodes[n].target
    requires !PlanCurrent(w.status.plan, CurrentHash(hash, w.spec), w.gen) && w.status.rollback.None?
    ensures QuietRun(hash, first, vs, ms, w') && ws <= vs && ls <= ms
    ensures w'.status.rollback.None? && w'.status.lastGood == w.status.lastGood && w'.status.plan.Some?
    ensures var p := w'.status.plan.value;
            && p.hash == CurrentHash(hash, w.spec) && p.gen == w.gen && p.gatedWaves == 0 && p.evaluatingWave.None?
            && ToSet(p.nodes) == ready && |p.nodes| == |ready|
                && p.waveSize == ResolveWaveSize(w.spec.waveSize, |ready|)
    ensures w' == w.(status := w'.status, ds := w'.ds)
  {
    var i := PassInput(w, reply);
    FreshPass(hash, w, reply, ready);
    vs, ms := PassStep(hash, first, ws, ls, w, reply);
    w' := AfterPass(hash, w, reply);
    NothingLogged(hash, i, Pass(hash, i));
    assert w.log + [] + [] == w.log;
  }

  lemma FreshPass(hash: Hasher, w: World, reply: Reply, ready: set<Name>)
    requires InputWf(PassInput(w, reply)) && w.pods == map[] && ready != {}
    requires forall n :: n in ready <==> n in w.nodes && w.nodes[n].ready && w.nodes[n].target
    requires !PlanCurrent(w.status.plan, CurrentHash(hash, w.spec), w.gen) && w.status.rollback.None?
    ensures var i := PassInput(w, reply);
            var o := Pass(hash, i);
            && i.ready != [] && ToSet(i.ready) == ready && |i.ready| == |ready| && PassPlan(hash, i).nodes == i.ready
            && o.dels == {} && o.ungs == {} && !PassesGate(o) && o.why.InWave? && o.status.rollback.None?
            && o.status.plan == Some(PassPlan(hash, i)) && o.status.lastGood == w.status.lastGood
  {
    var i := PassInput(w, reply);
    ReadyIs(w.nodes, ready);
    assert ToSet(i.ready) == ready;
    assert NoPodsYet(hash, i);
    WaitsInWaveZero(hash, i);
  }

  // ---- The mark skips a wave ----

  /** Two planned nodes have gone away again, and a third one is there. */
  lemma PlanThenLeave(hash: Hasher, spec: Spec) returns (ws: seq<World>, ls: seq<Label>, w: World)
    requires spec == ExampleSpec("img:v2", Some(UP_GATE))
    ensures ws != [] && QuietRun(hash, ws[0], ws, ls, w) && w.spec == spec && w.gen == 1 && w.log == []
        && w.status.rollback.None?
    ensures forall n :: n in w.nodes && w.nodes[n].ready && w.nodes[n].target <==> n == "c"
    ensures w.status.plan.Some?
    ensures var p := w.status.plan.value;
            && p.hash == CurrentHash(hash, spec) && p.gen == 1 && p.gatedWaves == 0 && p.waveSize == 1
            && |p.nodes| == 2 && "c" !in p.nodes
  {
    var first := FirstWorld(spec, map["a" := HERE, "b" := HERE]);
    StartRun(hash, first);
    ws, ls, w := PlanningPass(hash, first, [first], [], first, Answer(NoAnswer), {"a", "b"});
    assert forall n :: n in w.status.plan.value.nodes ==> n in ToSet(w.status.plan.value.nodes);
    ws, ls, w := SetOne(hash, first, ws, ls, w, "a", AWAY);
    ws, ls, w := SetOne(hash, first, ws, ls, w, "b", AWAY);
    ws, ls, w := SetOne(hash, first, ws, ls, w, "c", HERE);
  }

  lemma Move(hash: Hasher, first: World, ws: seq<World>, ls: seq<Label>, w: World, l: Label)
      returns (vs: seq<World>, ms: seq<Label>, w': World)
    requires QuietRun(hash, first, ws, ls, w) && (l.SetNode? || l.Tick? || l.Edit?) && Enabled(w, l)
    ensures w' == Next(hash, w, l) && vs == ws + [w'] && ms == ls + [l] && QuietRun(hash, first, vs, ms, w')
  {
    EnvironmentStep(hash, first, ws, ls, w, l);
    vs, ms, w' := ws + [Next(hash, w, l)], ls + [l], Next(hash, w, l);
  }

  lemma SetOne(hash: Hasher, first: World, ws: seq<World>, ls: seq<Label>, w: World, n: Name, info: Node)
      returns (vs: seq<World>, ms: seq<Label>, w': World)
    requires QuietRun(hash, first, ws, ls, w) && n != ""
    ensures w' == w.(nodes := w.nodes[n := info]) && vs == ws + [w'] && ms == ls + [SetNode(n, info)]
    ensures QuietRun(hash, first, vs, ms, w')
  {
    vs, ms, w' := Move(hash, first, ws, ls, w, SetNode(n, info));
  }

  lemma UpPasses()
    ensures ResolvedQueries(UP_GATE) == [ResolvedQuery("up", "gt", Finite(0.0), "query")]
    ensures AllPass(UP_GATE, Answer(UP)) && AnsweredFailing(UP_GATE, Answer(DOWN)) && NoData(UP_GATE, Answer(NoAnswer))
  {
    var q := ResolvedQueries(UP_GATE)[0];
    assert Good(q, UP.samples[0]) && Bad(q, DOWN.samples[0]);
    assert QueryPasses(q, UP) && QueryFails(q, DOWN) && !QueryAnswered(q, NoAnswer);
  }

  /**
    * A whole run after which the mark covers both waves of the plan although the gate of wave 0 never
    * passed, and Done is persisted with no node updated.
    */
  lemma LatchSkipsAWave(hash: Hasher) returns (ws: seq<World>, ls: seq<Label>)
    ensures IsRun(hash, ws, ls) && Initial(ws[0])
    ensures var st, log := ws[|ls|].status, ws[|ls|].log;
            && st.phase == Done && st.updatedNodes == 0 && st.plan.Some? && st.plan.value.waveSize >= 1
            && st.plan.value.gatedWaves == 2 == Total(st.plan.value)
            && HasLatch(log, Key(st.plan.value), 1)
            && !HasLatch(log, Key(st.plan.value), 0) && !HasPass(log, Key(st.plan.value), 0)
  {
    var spec := ExampleSpec("img:v2", Some(UP_GATE));
    var w;
    ws, ls, w := PlanThenLeave(hash, spec);
    var i := PassInput(w, Answer(UP));
    UpPasses();
    ReadyIs(w.nodes, {"c"});
    assert "c" in i.ready;
    assert NoPodsYet(hash, i) && PassPlan(hash, i) == w.status.plan.value;
    NothingIsPending(hash, i);
    FinalGatePasses(hash, i);
    ws, ls := PassStep(hash, ws[0], ws, ls, w, Answer(UP));
  }

  /** What a final gate that passes logs and persists. */
  lemma FinalGatePasses(hash: Hasher, i: Input)
    requires InputWf(i) && GoesForward(hash, i) && !HasPending(hash, i) && i.spec.gate.Some?
    requires GateWave(hash, i) == Some(Total(PassPlan(hash, i)) - 1) && PassPlan(hash, i).gatedWaves == 0
    requires Total(PassPlan(hash, i)) == 2 && AllPass(i.spec.gate.value, i.reply)
    ensures var o, log := Pass(hash, i), PassLog(i, Pass(hash, i)) + StatusLog(hash, i, Pass(hash, i));
            && o.status.phase == Done && o.status.plan.Some? && Key(o.status.plan.value) == Key(PassPlan(hash, i))
            && o.status.plan.value.gatedWaves == 2
            && HasLatch(log, Key(PassPlan(hash, i)), 1)
            && (forall e :: e in log && (e.Latch? || e.GatePassed?) ==> e.wave == 1)
  {
    var o := Pass(hash, i);
    GateVerdict(hash, i);
    ForwardCases(hash, i);
    CompleteStatus(hash, i);
    PassMark(hash, i);
    var log := PassLog(i, o) + StatusLog(hash, i, o);
    assert PassLog(i, o) == [GatePassed(Key(PassPlan(hash, i)), 1, i)];
    assert LatchLog(i, o) == [Latch(Key(PassPlan(hash, i)), 1, i)];
    assert log[1] == Latch(Key(PassPlan(hash, i)), 1, i);
    assert log[1] in log;
  }

  // ---- One failing answer after an outage ----

  const V2_GATE := Some(UP_GATE)

  /** The template v1 is recorded as good, v2 is being rolled out, and its only planned node is away. */
  lemma SecondRollout(hash: Hasher) returns (ws: seq<World>, ls: seq<Label>, w: World)
    requires CurrentHash(hash, ExampleSpec("img:v1", None)) != CurrentHash(hash, ExampleSpec("img:v2", V2_GATE))
    ensures ws != [] && QuietRun(hash, ws[0], ws, ls, w) && w.spec == ExampleSpec("img:v2", V2_GATE) && w.gen == 2
    ensures forall n :: n in w.nodes && w.nodes[n].ready && w.nodes[n].target <==> n == "a"
    ensures w.status.rollback.None? && w.status.lastGood.Some?
    ensures w.status.lastGood.value.hash == CurrentHash(hash, ExampleSpec("img:v1", None))
    ensures PlanFor(w, CurrentHash(hash, w.spec), "a") && w.status.plan.value.evaluatingWave.None?
  {
    ws, ls, w := FirstRollout(hash);
    var first := ws[0];
    ws, ls, w := Move(hash, first, ws, ls, w, Edit(ExampleSpec("img:v2", V2_GATE)));
    ws, ls, w := PlanningPass(hash, first, ws, ls, w, Answer(NoAnswer), {"c"});
    assert forall n :: n in w.status.plan.value.nodes ==> n in ToSet(w.status.plan.value.nodes);
    ws, ls, w := SetOne(hash, first, ws, ls, w, "c", AWAY);
    ws, ls, w := SetOne(hash, first, ws, ls, w, "a", HERE);
  }

  /** The plan of one node other than n, unlatched. */
  predicate PlanFor(w: World, h: string, n: Name) {
    && w.status.plan.Some?
    && var p := w.status.plan.value;
    && p.hash == h && p.gen == w.gen && p.gatedWaves == 0 && p.waveSize == 1 && |p.nodes| == 1 && n !in p.nodes
  }

  lemma FirstRollout(hash: Hasher) returns (ws: seq<World>, ls: seq<Label>, w: World)
    ensures ws != [] && QuietRun(hash, ws[0], ws, ls, w) && w.gen == 1
    ensures forall n :: n in w.nodes && w.nodes[n].ready && w.nodes[n].target <==> n == "c"
    ensures w.status.rollback.None? && w.status.lastGood.Some? && (w.status.plan.Some? ==> w.status.plan.value.gen == 1)
    ensures w.status.lastGood.value.hash == CurrentHash(hash, ExampleSpec("img:v1", None))
  {
    var first := FirstWorld(ExampleSpec("img:v1", None), map["a" := HERE]);
    StartRun(hash, first);
    ws, ls, w := PlanningPass(hash, first, [first], [], first, ConfigError, {"a"});
    assert forall n :: n in w.status.plan.value.nodes ==> n in ToSet(w.status.plan.value.nodes);
    ws, ls, w := SetOne(hash, first, ws, ls, w, "a", AWAY);
    ws, ls, w := SetOne(hash, first, ws, ls, w, "c", HERE);
    ws, ls, w := UngatedDone(hash, first, ws, ls, w);
  }

  lemma UngatedDone(hash: Hasher, first: World, ws: seq<World>, ls: seq<Label>, w: World)
      returns (vs: seq<World>, ms: seq<Label>, w': World)
    requires QuietRun(hash, first, ws, ls, w) && w.spec == ExampleSpec("img:v1", None) && w.status.rollback.None?
    requires forall n :: n in w.nodes && w.nodes[n].ready && w.nodes[n].target <==> n == "c"
    requires PlanFor(w, CurrentHash(hash, w.spec), "c")
    ensures QuietRun(hash, first, vs, ms, w') && w'.gen == w.gen && w'.nodes == w.nodes
    ensures w'.status.rollback.None? && w'.status.lastGood.Some? && w'.status.plan.Some?
        && w'.status.plan.value.gen == w.gen
    ensures w'.status.lastGood.value.hash == CurrentHash(hash, w.spec)
  {
    var i := PassInput(w, ConfigError);
    ReadyIs(w.nodes, {"c"});
    assert "c" in i.ready;
    assert NoPodsYet(hash, i) && PassPlan(hash, i) == w.status.plan.value;
    NothingIsPending(hash, i);
    UngatedCompletion(hash, i);
    vs, ms := PassStep(hash, first, ws, ls, w, ConfigError);
    w' := AfterPass(hash, w, ConfigError);
  }

  lemma UngatedCompletion(hash: Hasher, i: Input)
    requires InputWf(i) && GoesForward(hash, i) && !HasPending(hash, i) && i.spec.gate.None? && PodsWf(i.pods)
    ensures var st := Pass(hash, i).status;
            st.rollback.None? && st.lastGood.Some? && st.lastGood.value.hash == CurrentHash(hash, i.spec)
  {
    CompleteCases(hash, i);
    CompleteStatus(hash, i);
    DoneMeaning(hash, i);
  }

  /** The final gate gets no data: the pass anchors the timeout and waits. */
  lemma OutagePass(hash: Hasher, i: Input)
    requires InputWf(i) && GoesForward(hash, i) && !HasPending(hash, i)
    requires i.spec.gate == V2_GATE && i.reply == Answer(NoAnswer)
    requires GateWave(hash, i) == Some(0) && PassPlan(hash, i).gatedWaves == 0 && PassPlan(hash, i).evaluatingWave.None?
    ensures var o := Pass(hash, i);
            && AnchoredAt(o.status, Key(PassPlan(hash, i)), 0, i.now) && o.status.plan.value.gatedWaves == 0
            && o.status.rollback.None? && o.status.lastGood == i.status.lastGood && Questions(o, 0)
  {
    UpPasses();
    GateVerdict(hash, i);
    ForwardCases(hash, i);
    CompleteStatus(hash, i);
    PassGateEffect(hash, i);
  }

  /** The final gate gets a failing answer 300 seconds after the anchor: the pass begins a rollback. */
  lemma FailurePass(hash: Hasher, i: Input)
    requires InputWf(i) && GoesForward(hash, i) && !HasPending(hash, i)
    requires i.spec.gate == V2_GATE && i.spec.policy == OnFailure && i.reply == Answer(DOWN)
    requires GateWave(hash, i) == Some(0) && PassPlan(hash, i).gatedWaves == 0
    requires PassPlan(hash, i).evaluatingWave == Some(0) && PassPlan(hash, i).gateStartedAt.value + 300 <= i.now
    requires i.status.lastGood.Some? && i.status.lastGood.value.hash != CurrentHash(hash, i.spec)
    ensures RollbackDue(hash, i) && Pass(hash, i).status.rollback.Some?
  {
    UpPasses();
    RollbackStartsIff(hash, i);
  }

  /**
    * A whole run in which one failing answer is enough: the gate is asked during an outage, nothing is
    * persisted until the timeout has passed, and the next answer, a failing one, rolls back.
    */
  lemma OutageThenOneFailureRollsBack(hash: Hasher) returns (ws: seq<World>, ls: seq<Label>, q: nat, b: nat)
    requires CurrentHash(hash, ExampleSpec("img:v1", None)) != CurrentHash(hash, ExampleSpec("img:v2", V2_GATE))
    ensures IsRun(hash, ws, ls) && Initial(ws[0])
    ensures PersistsQuestion(ws, ls, q, 0) && NoData(UP_GATE, ws[q].job.input.reply)
    ensures q < b && RollsBackAt(ws, ls, b) && AnsweredFailing(UP_GATE, ws[b].job.input.reply)
    ensures forall k :: q < k < b ==> !Persists(ws, ls, k)
  {
    var vs, ms, w;
    vs, ms, w, q := OutageForTheTimeout(hash);
    ws, ls, b := FailureStep(hash, vs[0], vs, ms, w);
    QuestionStays(vs, ms, ws, ls, q);
    UpPasses();
    assert ls[q + 1] == ms[q + 1];
    forall k | q < k < b ensures !ls[k].WriteStatus? {
      assert k == q + 1 || k == q + 2 || k == q + 3 || k == q + 4;
    }
  }

  lemma QuestionStays(vs: seq<World>, ms: seq<Label>, ws: seq<World>, ls: seq<Label>, q: nat)
    requires vs <= ws && ms <= ls && PersistsQuestion(vs, ms, q, 0)
    ensures PersistsQuestion(ws, ls, q, 0) && ws[q].job.input == vs[q].job.input
  {
    assert ws[q] == vs[q] && ls[q] == ms[q];
  }

  lemma FailureOn(hash: Hasher, w: World)
    requires StatusWf(w.status) && w.pods == map[] && FailureIsDue(hash, w)
    ensures var i := PassInput(w, Answer(DOWN));
            && ReplyWf(w.spec.gate, i.reply) && InputWf(i)
            && Pass(hash, i).dels == {} && Pass(hash, i).ungs == {} && Pass(hash, i).status.rollback.Some?
  {
    var i := PassInput(w, Answer(DOWN));
    UpPasses();
    OneWaveIsAsked(hash, w, i);
    FailurePass(hash, i);
  }

  /** Step b persists a rollback that was not there. */
  predicate RollsBackAt(ws: seq<World>, ls: seq<Label>, b: nat) {
    Persists(ws, ls, b) && b + 1 < |ws| && ws[b].status.rollback.None? && ws[b + 1].status.rollback.Some?
  }

  /** One more pass: the failing answer comes, and the pass that saw it begins the rollback. */
  lemma FailureStep(hash: Hasher, first: World, ws: seq<World>, ls: seq<Label>, w: World)
      returns (vs: seq<World>, ms: seq<Label>, b: nat)
    requires QuietRun(hash, first, ws, ls, w) && FailureIsDue(hash, w)
    ensures IsRun(hash, vs, ms) && vs[0] == first && ws <= vs && ls <= ms && b == |ls| + 3 && |ms| == b + 1
    ensures RollsBackAt(vs, ms, b) && vs[b].job.input.reply == Answer(DOWN)
    ensures !ms[|ls|].WriteStatus? && !ms[|ls| + 1].WriteStatus? && !ms[|ls| + 2].WriteStatus?
  {
    FailureOn(hash, w);
    vs, ms := RollbackStartStep(hash, first, ws, ls, w, Answer(DOWN));
    b := |ls| + 3;
  }

  lemma RollbackStartStep(hash: Hasher, first: World, ws: seq<World>, ls: seq<Label>, w: World, reply: Reply)
      returns (vs: seq<World>, ms: seq<Label>)
    requires QuietRun(hash, first, ws, ls, w) && ReplyWf(w.spec.gate, reply) && InputWf(PassInput(w, reply))
    requires Pass(hash, PassInput(w, reply)).dels == {} && Pass(hash, PassInput(w, reply)).ungs == {}
    requires w.status.rollback.None? && Pass(hash, PassInput(w, reply)).status.rollback.Some?
    ensures IsRun(hash, vs, ms) && vs[0] == first && ws <= vs && ls <= ms && |ms| == |ls| + 4
    ensures RollsBackAt(vs, ms, |ls| + 3) && vs[|ls| + 3].job.input.reply == reply
    ensures !ms[|ls|].WriteStatus? && !ms[|ls| + 1].WriteStatus? && !ms[|ls| + 2].WriteStatus?
  {
    vs, ms := PassStep(hash, first, ws, ls, w, reply);
    PassStepRollsBack(hash, vs, ms, |ls| + 3, w, reply);
  }

  lemma PassStepRollsBack(hash: Hasher, vs: seq<World>, ms: seq<Label>, b: nat, w: World, reply: Reply)
    requires InputWf(PassInput(w, reply)) && w.status.rollback.None?
        && Pass(hash, PassInput(w, reply)).status.rollback.Some?
    requires b + 1 == |ms| && |vs| == |ms| + 1 && ms[b] == WriteStatus
    requires vs[b] == MidPass(hash, w, reply) && vs[b + 1] == AfterPass(hash, w, reply)
    ensures RollsBackAt(vs, ms, b) && vs[b].job.input.reply == reply
  {
  }

  /** The rollout of v2 waits for its only gate, whose timeout has elapsed. */
  ghost predicate FailureIsDue(hash: Hasher, w: World) {
    && w.spec == ExampleSpec("img:v2", V2_GATE)
    && (forall n :: n in w.nodes && w.nodes[n].ready && w.nodes[n].target <==> n == "a")
    && w.status.rollback.None? && w.status.lastGood.Some?
    && w.status.lastGood.value.hash != CurrentHash(hash, w.spec) && PlanFor(w, CurrentHash(hash, w.spec), "a")
    && AnchoredAt(w.status, Key(w.status.plan.value), 0, w.clock - 300)
  }

  /** The second rollout's gate is asked in an outage at step q, and then the timeout passes. */
  lemma OutageForTheTimeout(hash: Hasher) returns (ws: seq<World>, ls: seq<Label>, w: World, q: nat)
    requires CurrentHash(hash, ExampleSpec("img:v1", None)) != CurrentHash(hash, ExampleSpec("img:v2", V2_GATE))
    ensures ws != [] && QuietRun(hash, ws[0], ws, ls, w) && FailureIsDue(hash, w) && |ls| == q + 2
    ensures PersistsQuestion(ws, ls, q, 0) && NoData(UP_GATE, ws[q].job.input.reply) && ls[q + 1].Tick?
  {
    ws, ls, w := SecondRollout(hash);
    q := |ls| + 3;
    ws, ls, w := OutageStep(hash, ws[0], ws, ls, w);
    var before := ws;
    ws, ls, w := Move(hash, ws[0], ws, ls, w, Tick(300));
    assert ws[q] == before[q];
  }

  lemma OutageStep(hash: Hasher, first: World, ws: seq<World>, ls: seq<Label>, w: World)
      returns (vs: seq<World>, ms: seq<Label>, w': World)
    requires QuietRun(hash, first, ws, ls, w) && w.spec == ExampleSpec("img:v2", V2_GATE)
    requires forall n :: n in w.nodes && w.nodes[n].ready && w.nodes[n].target <==> n == "a"
    requires w.status.rollback.None? && PlanFor(w, CurrentHash(hash, w.spec), "a")
        && w.status.plan.value.evaluatingWave.None?
    ensures QuietRun(hash, first, vs, ms, w') && |ms| == |ls| + 4 && ws <= vs
    ensures PersistsQuestion(vs, ms, |ls| + 3, 0) && NoData(UP_GATE, vs[|ls| + 3].job.input.reply)
    ensures w'.spec == w.spec && w'.nodes == w.nodes && w'.clock == w.clock
    ensures w'.status.rollback.None? && w'.status.lastGood == w.status.lastGood
        && PlanFor(w', CurrentHash(hash, w.spec), "a")
    ensures AnchoredAt(w'.status, Key(w'.status.plan.value), 0, w.clock)
  {
    UpPasses();
    var i := PassInput(w, Answer(NoAnswer));
    OneWaveIsAsked(hash, w, i);
    OutagePass(hash, i);
    vs, ms := PassStep(hash, first, ws, ls, w, Answer(NoAnswer));
    w' := AfterPass(hash, w, Answer(NoAnswer));
  }

  lemma OneWaveIsAsked(hash: Hasher, w: World, i: Input)
    requires StatusWf(w.status) && w.pods == map[] && w.spec == ExampleSpec("img:v2", V2_GATE)
        && w.status.rollback.None?
    requires i == PassInput(w, i.reply) && ReplyWf(i.spec.gate, i.reply)
    requires forall n :: n in w.nodes && w.nodes[n].ready && w.nodes[n].target <==> n == "a"
    requires PlanFor(w, CurrentHash(hash, w.spec), "a")
    ensures InputWf(i) && GoesForward(hash, i) && !HasPending(hash, i) && GateWave(hash, i) == Some(0)
    ensures PassPlan(hash, i) == w.status.plan.value && Pass(hash, i).dels == {} && Pass(hash, i).ungs == {}
  {
    ReadyIs(w.nodes, {"a"});
    assert "a" in i.ready;
    assert NoPodsYet(hash, i);
    NothingIsPending(hash, i);
  }
}
