/** The Kubernetes objects and the FleetRollout resource, as far as a reconcile pass reads them. */
module Api {
  import opened Prelude

  const AGENT_CONTAINER := "agent"
  const OWNER_LABEL := "fleetrollout.fleet.fleetrollout.io/owner"
  const HASH_LABEL := "fleetrollout.fleet.fleetrollout.io/template-hash"
  const WAVE_GATE := "fleetrollout.fleet.fleetrollout.io/wave"
  const OBJECT_NAME_FIELD := "metadata.name"
  const DEFAULT_TIMEOUT := 300

  // ---- Workload objects ----

  datatype Container = Container(name: string, image: string)

  /** `rest` stands for every pod-template field the controller neither reads nor writes. */
  datatype Template = Template(
    labels: map<string, string>,
    nodeSelector: map<string, string>,
    gates: seq<string>,
    containers: seq<Container>,
    rest: int)

  /** FNV-32a over the JSON of a template; nothing is assumed about it, not even injectivity. */
  type Hasher = Template -> string

  datatype FieldTerm = FieldTerm(key: string, values: seq<string>)

  /** `template` is what the pod was stamped from; it never changes during the pod's life. */
  datatype Pod = Pod(
    uid: nat,
    template: Template,
    nodeName: string,
    affinity: seq<seq<FieldTerm>>,
    gates: seq<string>,
    terminating: bool,
    ready: bool)

  datatype Node = Node(ready: bool, target: bool)

  // ---- FleetRollout spec ----

  datatype IntOrString = IntVal(i: int) | StrVal(s: string)

  /** An IEEE 754 double up to rounding. */
  datatype Float = NaN | NegInf | PosInf | Finite(r: real)

  datatype GateQuery = GateQuery(query: string, op: string, threshold: Option<Float>, name: string)

  datatype HealthGate = HealthGate(query: string, queries: seq<GateQuery>, timeoutSeconds: int)

  /** Any policy other than OnFailure disables automatic rollback. */
  datatype Policy = OnFailure | Never

  datatype Spec = Spec(
    name: string,
    matchLabels: map<string, string>,
    image: string,
    template: Option<Template>,
    waveSize: IntOrString,
    gate: Option<HealthGate>,
    policy: Policy)

  // ---- FleetRollout status ----

  datatype Phase = NoPhase | Progressing | Paused | RollingBack | RolledBack | Done

  datatype Plan = Plan(
    hash: string,
    image: string,
    gen: int,
    waveSize: int,
    nodes: seq<Name>,
    gatedWaves: int,
    evaluatingWave: Option<int>,
    gateStartedAt: Option<int>)

  datatype LastGood = LastGood(hash: string, image: string, template: Template)

  datatype Rollback = Rollback(fromHash: string, fromImage: string, startedAt: int)

  datatype Status = Status(
    phase: Phase,
    observedGeneration: int,
    currentWave: int,
    totalWaves: int,
    updatedNodes: int,
    skippedNodes: seq<Name>,
    lastGood: Option<LastGood>,
    rollback: Option<Rollback>,
    plan: Option<Plan>)

  const EMPTY_STATUS := Status(NoPhase, 0, 0, 0, 0, [], None, None, None)

  // ---- Pod predicates ----

  /** A missing label reads as the empty string. */
  function PodHash(p: Pod): string {
    if HASH_LABEL in p.template.labels then p.template.labels[HASH_LABEL] else ""
  }

  predicate PodGated(p: Pod) {
    WAVE_GATE in p.gates
  }

  predicate PodGatedOn(p: Pod, hash: string) {
    PodGated(p) && PodHash(p) == hash
  }

  predicate Scheduled(p: Pod) {
    p.nodeName != ""
  }

  /** spec.nodeName once scheduled, else the node-name term of the node affinity, else "". */
  function PodTargetNode(p: Pod): Name {
    if p.nodeName != "" then p.nodeName else TargetOfTerms(p.affinity)
  }

  function TargetOfTerms(terms: seq<seq<FieldTerm>>): Name {
    if terms == [] then ""
    else match TargetOfFields(terms[0])
      case Some(n) => n
      case None => TargetOfTerms(terms[1..])
  }

  function TargetOfFields(fields: seq<FieldTerm>): Option<Name> {
    if fields == [] then None
    else if fields[0].key == OBJECT_NAME_FIELD && |fields[0].values| == 1 then Some(fields[0].values[0])
    else TargetOfFields(fields[1..])
  }

  /** A field term that names one node. */
  predicate NamesNode(f: FieldTerm) {
    f.key == "metadata.name" && |f.values| == 1
  }

  predicate FieldNamesFirst(fields: seq<FieldTerm>, b: int) {
    0 <= b < |fields| && NamesNode(fields[b]) && forall c :: 0 <= c < b ==> !NamesNode(fields[c])
  }

  lemma {:induction false} FirstFieldDecides(fields: seq<FieldTerm>)
    ensures (forall b :: 0 <= b < |fields| ==> !NamesNode(fields[b])) ==> TargetOfFields(fields).None?
    ensures forall b :: FieldNamesFirst(fields, b) ==>
              TargetOfFields(fields) == Some(fields[b].values[0])
  {
    if fields != [] {
      FirstFieldDecides(fields[1..]);
      assert forall b :: 1 <= b < |fields| ==> fields[b] == fields[1..][b - 1];
      assert forall b :: 0 <= b < |fields[1..]| ==> fields[1..][b] == fields[b + 1];
      if !NamesNode(fields[0]) {
        forall b | FieldNamesFirst(fields, b) ensures TargetOfFields(fields) == Some(fields[b].values[0]) {
          assert FieldNamesFirst(fields[1..], b - 1);
        }
      }
    }
  }

  /** Some field of the term names one node. */
  predicate TermNames(term: seq<FieldTerm>) {
    exists b :: 0 <= b < |term| && NamesNode(term[b])
  }

  lemma {:induction false} FirstTermDecides(terms: seq<seq<FieldTerm>>)
    ensures (forall a :: 0 <= a < |terms| ==> !TermNames(terms[a])) ==> TargetOfTerms(terms) == ""
    ensures forall a :: 0 <= a < |terms| && TermNames(terms[a]) && (forall c :: 0 <= c < a ==> !TermNames(terms[c])) ==>
              Some(TargetOfTerms(terms)) == TargetOfFields(terms[a])
  {
    if terms != [] {
      FirstTermDecides(terms[1..]);
      NamingTermHasATarget(terms[0]);
      assert forall a :: 1 <= a < |terms| ==> terms[a] == terms[1..][a - 1];
      assert forall a :: 0 <= a < |terms[1..]| ==> terms[1..][a] == terms[a + 1];
      if !TermNames(terms[0]) {
        forall a | 0 <= a < |terms| && TermNames(terms[a]) && (forall c :: 0 <= c < a ==> !TermNames(terms[c]))
          ensures Some(TargetOfTerms(terms)) == TargetOfFields(terms[a])
        {
          assert TermNames(terms[1..][a - 1]);
          assert forall c :: 0 <= c < a - 1 ==> !TermNames(terms[1..][c]);
        }
      }
    }
  }

  lemma {:induction false} NamingTermHasATarget(term: seq<FieldTerm>)
    ensures TargetOfFields(term).Some? <==> TermNames(term)
  {
    if term != [] {
      NamingTermHasATarget(term[1..]);
      assert forall b :: 1 <= b < |term| ==> term[b] == term[1..][b - 1];
      assert forall b :: 0 <= b < |term[1..]| ==> term[1..][b] == term[b + 1];
      if TermNames(term[1..]) {
        var b :| 0 <= b < |term[1..]| && NamesNode(term[1..][b]);
        assert NamesNode(term[b + 1]);
      }
    }
  }

  /** Field b of term a names a node, no earlier field of the term does, and no earlier term has one. */
  predicate NamesFirst(terms: seq<seq<FieldTerm>>, a: int, b: int) {
    && 0 <= a < |terms| && FieldNamesFirst(terms[a], b)
    && (forall c :: 0 <= c < a ==> !TermNames(terms[c]))
  }

  /** A bound pod is at its node; any other aims at the first node its affinity names, or at none. */
  lemma TargetMeaning(p: Pod)
    ensures p.nodeName != "" ==> PodTargetNode(p) == p.nodeName
    ensures p.nodeName == "" && (forall a :: 0 <= a < |p.affinity| ==> !TermNames(p.affinity[a])) ==>
              PodTargetNode(p) == ""
    ensures p.nodeName == "" ==>
              forall a, b :: NamesFirst(p.affinity, a, b) ==> PodTargetNode(p) == p.affinity[a][b].values[0]
  {
    FirstTermDecides(p.affinity);
    if p.nodeName == "" {
      forall a, b | NamesFirst(p.affinity, a, b) ensures PodTargetNode(p) == p.affinity[a][b].values[0] {
        FirstFieldDecides(p.affinity[a]);
        assert TermNames(p.affinity[a]);
      }
    }
  }

  /** What the DaemonSet controller injects into a pod it creates for one node. */
  function NodeAffinity(n: Name): seq<seq<FieldTerm>> {
    [[FieldTerm(OBJECT_NAME_FIELD, [n])]]
  }

  /** Ready nodes that match the selector. */
  function ReadyTargets(nodes: map<Name, Node>): set<Name> {
    set n | n in nodes && nodes[n].ready && nodes[n].target
  }

  // ---- Effects of the controller's API calls ----

  /** The gate list without the wave gate. */
  function WithoutWaveGate(gates: seq<string>): (r: seq<string>)
    ensures WAVE_GATE !in r
    ensures forall g :: g != WAVE_GATE ==> multiset(r)[g] == multiset(gates)[g]
  {
    if gates == [] then []
    else
      assert gates == [gates[0]] + gates[1..];
      if gates[0] == WAVE_GATE then WithoutWaveGate(gates[1..])
      else [gates[0]] + WithoutWaveGate(gates[1..])
  }

  function Ungated(p: Pod): Pod {
    p.(gates := WithoutWaveGate(p.gates))
  }

  function Deleted(p: Pod): Pod {
    p.(terminating := true)
  }

  function Apply(pods: map<Name, Pod>, dels: set<Name>, ungs: set<Name>): map<Name, Pod> {
    map n | n in pods ::
      if n in dels then Deleted(pods[n]) else if n in ungs then Ungated(pods[n]) else pods[n]
  }

  /** Pods are indexed by the node they target, and a pod with any scheduling gate is unscheduled. */
  ghost predicate PodsWf(pods: map<Name, Pod>) {
    forall n :: n in pods ==>
      PodTargetNode(pods[n]) == n && n != "" && (pods[n].gates != [] ==> !Scheduled(pods[n]))
  }

  /** Ungating keeps the order of the gates it keeps. */
  lemma {:induction false} UngateKeepsOtherGates(gates: seq<string>, i: nat)
    requires i <= |gates|
    ensures WithoutWaveGate(gates) == WithoutWaveGate(gates[..i]) + WithoutWaveGate(gates[i..])
    ensures WAVE_GATE !in gates ==> WithoutWaveGate(gates) == gates
  {
    if gates != [] {
      if i > 0 {
        UngateKeepsOtherGates(gates[1..], i - 1);
        assert gates[..i][1..] == gates[1..][..i - 1] && gates[i..] == gates[1..][i - 1..];
      } else {
        UngateKeepsOtherGates(gates[1..], 0);
        assert gates[..0] == [] && gates[0..] == gates;
      }
      assert gates == [gates[0]] + gates[1..];
    } else {
      assert gates[..i] == [] && gates[i..] == [];
    }
  }
}
