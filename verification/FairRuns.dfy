/**
  * Convergence over all runs of the protocol: whenever the passes of a run complete and the environment
  * cooperates between one observation and the next, the run persists Done, or RolledBack, within the bound.
  */
module FairRuns {
  import opened Prelude
  import opened Api
  import opened Templates
  import opened Engine
  import opened PassProperties
  import opened Protocol
  import opened Runs
  import opened Stability
  import opened Timeouts
  import opened Convergence

  // ---- A pass inside a run ----

  /** Step k takes the decision of a pass. */
  predicate Observes(ws: seq<World>, ls: seq<Label>, k: int) {
    |ws| == |ls| + 1 && 0 <= k < |ls| && ls[k].Observe? && ws[k].job.Synced?
  }

  ghost function Seen(ws: seq<World>, ls: seq<Label>, k: int): Input
    requires Observes(ws, ls, k)
  {
    Observation(ws[k], ls[k].reply)
  }

  /** No other decision is taken between a and c. */
  predicate Alone(ls: seq<Label>, a: int, c: int) {
    forall k :: a < k < c && 0 <= k < |ls| ==> !ls[k].Observe?
  }

  lemma DecisionStays(hash: Hasher, w: World, l: Label)
    requires Enabled(w, l) && !l.Observe? && Next(hash, w, l).job.Acting?
    ensures w.job.Acting? && Next(hash, w, l).job.input == w.job.input && Next(hash, w, l).job.outcome == w.job.outcome
  {
  }

  /** Until the next decision, a pass in flight is the one that observed at a. */
  lemma {:induction false} InFlight(hash: Hasher, ws: seq<World>, ls: seq<Label>, a: nat, k: nat)
    requires IsRun(hash, ws, ls) && Observes(ws, ls, a) && a < k < |ws| && Alone(ls, a, k) && ws[k].job.Acting?
    ensures ws[k].job.input == Seen(ws, ls, a)
    ensures InputWf(Seen(ws, ls, a)) && ws[k].job.outcome == Pass(hash, Seen(ws, ls, a))
    decreases k
  {
    assert Stepped(hash, ws, ls, k - 1);
    if k - 1 > a {
      DecisionStays(hash, ws[k - 1], ls[k - 1]);
      InFlight(hash, ws, ls, a, k - 1);
    }
  }

  lemma StaysPersisted(hash: Hasher, w: World, l: Label)
    requires Enabled(w, l) && !l.Observe? && !w.job.Acting?
    ensures !Next(hash, w, l).job.Acting? && Next(hash, w, l).status == w.status
  {
  }

  lemma {:induction false} PersistedUntil(hash: Hasher, ws: seq<World>, ls: seq<Label>, b: nat, c: nat)
    requires IsRun(hash, ws, ls) && b <= c < |ws| && !ws[b].job.Acting? && Alone(ls, b - 1, c)
    ensures ws[c].status == ws[b].status
    ensures !ws[c].job.Acting?
    decreases c
  {
    if b < c {
      PersistedUntil(hash, ws, ls, b, c - 1);
      assert Stepped(hash, ws, ls, c - 1);
      StaysPersisted(hash, ws[c - 1], ls[c - 1]);
    }
  }

  /** The pass that observed at a is persisted before c, and no other decision is taken before c. */
  ghost predicate Completes(ws: seq<World>, ls: seq<Label>, a: int, c: int) {
    && Observes(ws, ls, a) && c <= |ls| && Alone(ls, a, c)
    && exists b :: a < b < c && Persists(ws, ls, b)
  }

  lemma PersistStep(hash: Hasher, w: World)
    requires Enabled(w, WriteStatus) && w.job.input.gen == w.gen
    ensures Next(hash, w, WriteStatus).status == w.job.outcome.status && !Next(hash, w, WriteStatus).job.Acting?
  {
  }

  /** What a completed pass decided is the status from its write until the next decision. */
  lemma CompletedStatus(hash: Hasher, ws: seq<World>, ls: seq<Label>, a: nat, c: nat) returns (b: nat)
    requires IsRun(hash, ws, ls) && Completes(ws, ls, a, c)
    ensures a < b < c && Persists(ws, ls, b) && InputWf(Seen(ws, ls, a))
    ensures ws[b + 1].status == Pass(hash, Seen(ws, ls, a)).status == ws[c].status
    ensures Seen(ws, ls, a).gen == ws[b].gen
  {
    b :| a < b < c && Persists(ws, ls, b);
    InFlight(hash, ws, ls, a, b);
    assert Stepped(hash, ws, ls, b);
    PersistStep(hash, ws[b]);
    PersistedUntil(hash, ws, ls, b + 1, c);
  }

  // ---- All passes of a run ----

  /** Where the time of the m-th pass ends: at the next observation, or with the run. */
  function EndOf(ls: seq<Label>, at: seq<nat>, m: int): int
    requires 0 <= m < |at|
  {
    if m + 1 < |at| then at[m + 1] else |ls|
  }

  /** The observations at these steps follow one another, and every pass completes. */
  ghost predicate PassesComplete(ws: seq<World>, ls: seq<Label>, at: seq<nat>) {
    forall m :: 0 <= m < |at| ==> CompletesAt(ws, ls, at, m)
  }

  ghost predicate CompletesAt(ws: seq<World>, ls: seq<Label>, at: seq<nat>, m: int)
    requires 0 <= m < |at|
  {
    Completes(ws, ls, at[m], EndOf(ls, at, m))
  }

  ghost function SeenAll(ws: seq<World>, ls: seq<Label>, at: seq<nat>): (inputs: seq<Input>)
    requires PassesComplete(ws, ls, at)
    ensures |inputs| == |at|
    ensures forall m :: 0 <= m < |at| ==> Observes(ws, ls, at[m]) && inputs[m] == Seen(ws, ls, at[m])
  {
    assert forall m :: 0 <= m < |at| ==> CompletesAt(ws, ls, at, m) ==> Observes(ws, ls, at[m]);
    seq(|at|, m requires 0 <= m < |at| && CompletesAt(ws, ls, at, m) => Seen(ws, ls, at[m]))
  }

  /** The pods the environment made of a pass's writes by the next observation. */
  ghost predicate EnvironmentCooperates(hash: Hasher, i: Input, after: map<Name, Pod>, nodes: seq<Name>)
    requires InputWf(i)
  {
    Cooperates(ViewOf(hash, i).hash, Apply(i.pods, Pass(hash, i).dels, Pass(hash, i).ungs), after, nodes)
  }

  // ---- Forward ----

  /**
    * The spec is not edited after the first observation, which goes forward; every pass sees the planned
    * nodes Ready and settled and a gate that would pass; in between the environment cooperates.
    */
  ghost predicate FairForwardRun(hash: Hasher, ws: seq<World>, ls: seq<Label>, at: seq<nat>) {
    && PassesComplete(ws, ls, at) && at != []
    && var inputs := SeenAll(ws, ls, at);
    && at[0] < |ls| && ws[at[0]].gen == ws[|ls|].gen && BeginInput(hash, inputs[0]).rollback.None?
    && (forall m :: 0 <= m < |at| ==> FairInput(hash, inputs[m]))
    && (forall m, l :: 0 <= m && l == m + 1 && l < |at| ==>
          EnvironmentCooperates(hash, inputs[m], inputs[l].pods, PassPlan(hash, inputs[m]).nodes))
  }

  lemma {:induction false} Ordered(ws: seq<World>, ls: seq<Label>, at: seq<nat>, m: nat)
    requires PassesComplete(ws, ls, at) && m < |at|
    ensures at[0] <= at[m] < |ls|
  {
    assert CompletesAt(ws, ls, at, m);
    if m > 0 {
      Ordered(ws, ls, at, m - 1);
      assert CompletesAt(ws, ls, at, m - 1);
    }
  }

  /** Without edits, a completed pass observed the generation and the spec of the whole stretch. */
  lemma SeenIsCurrent(hash: Hasher, ws: seq<World>, ls: seq<Label>, at: seq<nat>, m: nat)
    requires IsRun(hash, ws, ls) && Initial(ws[0]) && PassesComplete(ws, ls, at) && m < |at|
    requires at[0] < |ls| && ws[at[0]].gen == ws[|ls|].gen
    ensures Observes(ws, ls, at[m]) && Seen(ws, ls, at[m]).gen == ws[|ls|].gen
        && Seen(ws, ls, at[m]).spec == ws[|ls|].spec
  {
    var a := at[m];
    Ordered(ws, ls, at, m);
    assert CompletesAt(ws, ls, at, m);
    var b := CompletedStatus(hash, ws, ls, a, EndOf(ls, at, m));
    GenerationRises(hash, ws, ls, at[0], a);
    GenerationRises(hash, ws, ls, a, b);
    GenerationRises(hash, ws, ls, b, |ls|);
    SeenSpec(hash, ws, ls, a);
    GenerationRises(hash, ws, ls, a, |ls|);
  }

  lemma SeenSpec(hash: Hasher, ws: seq<World>, ls: seq<Label>, a: nat)
    requires IsRun(hash, ws, ls) && Initial(ws[0]) && Observes(ws, ls, a) && Seen(ws, ls, a).gen == ws[a].gen
    ensures Seen(ws, ls, a).spec == ws[a].spec
  {
    RunKeepsInv(hash, ws, ls, a);
  }

  /** The status one observation sees is what the pass before it decided. */
  lemma StatusFlows(hash: Hasher, ws: seq<World>, ls: seq<Label>, at: seq<nat>, m: nat)
    requires IsRun(hash, ws, ls) && PassesComplete(ws, ls, at) && m + 1 < |at|
    ensures Observes(ws, ls, at[m]) && Observes(ws, ls, at[m + 1]) && InputWf(Seen(ws, ls, at[m]))
    ensures Seen(ws, ls, at[m + 1]).status == Pass(hash, Seen(ws, ls, at[m])).status
  {
    assert CompletesAt(ws, ls, at, m) && CompletesAt(ws, ls, at, m + 1);
    var b := CompletedStatus(hash, ws, ls, at[m], at[m + 1]);
  }

  lemma FairRunIsRounds(hash: Hasher, ws: seq<World>, ls: seq<Label>, at: seq<nat>)
    requires IsRun(hash, ws, ls) && Initial(ws[0]) && FairForwardRun(hash, ws, ls, at)
    ensures Rounds(hash, SeenAll(ws, ls, at))
  {
    var inputs := SeenAll(ws, ls, at);
    forall m, l | 0 <= m && l == m + 1 && l < |inputs| ensures NextRound(hash, inputs[m], inputs[l]) {
      SeenIsCurrent(hash, ws, ls, at, m);
      SeenIsCurrent(hash, ws, ls, at, l);
      StatusFlows(hash, ws, ls, at, m);
      assert EnvironmentCooperates(hash, inputs[m], inputs[l].pods, PassPlan(hash, inputs[m]).nodes);
    }
  }

  /**
    * Every run whose passes complete, with a cooperative environment in between, persists Done within two
    * passes per planned node plus two; the pass that decided it saw every planned node updated.
    */
  lemma EveryFairRunIsDone(hash: Hasher, ws: seq<World>, ls: seq<Label>, at: seq<nat>) returns (m: nat, b: nat)
    requires IsRun(hash, ws, ls) && Initial(ws[0]) && FairForwardRun(hash, ws, ls, at) && |at| >= 2
    requires |at| >= 2 * |PassPlan(hash, SeenAll(ws, ls, at)[1]).nodes| + 2
    ensures 1 <= m < |at| && at[m] < b < |ls| && Persists(ws, ls, b) && ws[b + 1].status.phase == Done
    ensures var i := SeenAll(ws, ls, at)[m];
            && ws[b + 1].status == Pass(hash, i).status
            && forall n :: n in PassPlan(hash, i).nodes ==> Updated(ViewOf(hash, i), n)
  {
    var inputs := SeenAll(ws, ls, at);
    FairRunIsRounds(hash, ws, ls, at);
    m := DoneRound(hash, inputs);
    assert CompletesAt(ws, ls, at, m);
    b := CompletedStatus(hash, ws, ls, at[m], EndOf(ls, at, m));
  }

  lemma DoneRound(hash: Hasher, inputs: seq<Input>) returns (m: nat)
    requires Rounds(hash, inputs) && |inputs| >= 2 && |inputs| >= 2 * |PassPlan(hash, inputs[1]).nodes| + 2
    ensures 1 <= m < |inputs| && Pass(hash, inputs[m]).status.phase == Done
    ensures forall n :: n in PassPlan(hash, inputs[m]).nodes ==> Updated(ViewOf(hash, inputs[m]), n)
  {
    ForwardConverges(hash, inputs);
    m :| 1 <= m < |inputs| && Pass(hash, inputs[m]).why.Adoption? && Pass(hash, inputs[m]).status.phase == Done
         && forall n :: n in PassPlan(hash, inputs[m]).nodes ==> Updated(ViewOf(hash, inputs[m]), n);
  }

  // ---- Back ----

  /**
    * The first observation is rolling back; the template's hash and the live nodes stay; every pass sees
    * the live nodes settled; in between the environment cooperates. Other edits of the spec are allowed.
    */
  ghost predicate FairRollbackRun(hash: Hasher, ws: seq<World>, ls: seq<Label>, at: seq<nat>) {
    && PassesComplete(ws, ls, at) && at != []
    && var inputs := SeenAll(ws, ls, at);
    && BeginInput(hash, inputs[0]).rollback.Some?
    && (forall m :: 0 <= m < |at| ==> FairRollbackInput(inputs[m]))
    && (forall m, l :: 0 <= m && l == m + 1 && l < |at| ==>
          && CurrentHash(hash, inputs[l].spec) == CurrentHash(hash, inputs[m].spec)
              && inputs[l].ready == inputs[m].ready
          && EnvironmentCooperates(hash, inputs[m], inputs[l].pods, inputs[m].ready))
  }

  lemma FairRunIsRollbackRounds(hash: Hasher, ws: seq<World>, ls: seq<Label>, at: seq<nat>)
    requires IsRun(hash, ws, ls) && FairRollbackRun(hash, ws, ls, at)
    ensures RollbackRounds(hash, SeenAll(ws, ls, at))
  {
    var inputs := SeenAll(ws, ls, at);
    forall m, l | 0 <= m && l == m + 1 && l < |inputs| ensures NextRollbackRound(hash, inputs[m], inputs[l]) {
      StatusFlows(hash, ws, ls, at, m);
      assert EnvironmentCooperates(hash, inputs[m], inputs[l].pods, inputs[m].ready);
    }
  }

  /**
    * In every such run, from the pass after two per live node on, each pass persists RolledBack and sees
    * every live target node updated on the template that was last-good at the start.
    */
  lemma EveryFairRunIsRolledBack(hash: Hasher, ws: seq<World>, ls: seq<Label>, at: seq<nat>, m: nat) returns (b: nat)
    requires IsRun(hash, ws, ls) && Initial(ws[0]) && FairRollbackRun(hash, ws, ls, at)
    requires 2 * |SeenAll(ws, ls, at)[0].ready| + 1 <= m < |at|
    ensures at[m] < b < |ls| && Persists(ws, ls, b) && ws[b + 1].status.phase == RolledBack
    ensures var first := SeenAll(ws, ls, at)[0];
            && first.status.lastGood.Some?
            && forall n :: n in first.ready ==>
                 Updated(View(ToSet(first.ready), SeenAll(ws, ls, at)[m].pods, first.status.lastGood.value.hash), n)
  {
    var inputs := SeenAll(ws, ls, at);
    FairRunIsRollbackRounds(hash, ws, ls, at);
    assert CompletesAt(ws, ls, at, m);
    SeenPods(hash, ws, ls, at[m]);
    RollbackConverges(hash, inputs, m);
    b := CompletedStatus(hash, ws, ls, at[m], EndOf(ls, at, m));
  }

  lemma SeenPods(hash: Hasher, ws: seq<World>, ls: seq<Label>, a: nat)
    requires IsRun(hash, ws, ls) && Initial(ws[0]) && Observes(ws, ls, a)
    ensures PodsWf(Seen(ws, ls, a).pods)
  {
    RunKeepsInv(hash, ws, ls, a);
  }
}
