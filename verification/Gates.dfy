/** Health gates: one query, all queries, and the decision taken on them. */
module Gates {
  import opened Prelude
  import opened Api

  // ---- compare ----

  /** IEEE order: nothing is ordered against NaN. */
  predicate FloatLess(a: Float, b: Float) {
    match (a, b)
    case (NaN, _) => false
    case (_, NaN) => false
    case (NegInf, _) => b != NegInf
    case (_, PosInf) => a != PosInf
    case (Finite(x), Finite(y)) => x < y
    case _ => false
  }

  predicate FloatEq(a: Float, b: Float) {
    a != NaN && a == b
  }

  /** `value op threshold`; an unknown operator is read as gt. */
  predicate Compare(value: Float, op: string, threshold: Float) {
    if op == "ge" then FloatLess(threshold, value) || FloatEq(value, threshold)
    else if op == "lt" then FloatLess(value, threshold)
    else if op == "le" then FloatLess(value, threshold) || FloatEq(value, threshold)
    else if op == "eq" then FloatEq(value, threshold)
    else if op == "ne" then !FloatEq(value, threshold)
    else FloatLess(threshold, value)
  }

  /** On numbers the six operators are the usual ones, any other is gt, and NaN satisfies `ne` alone. */
  lemma CompareMeaning(x: real, y: real, t: Float)
    ensures Compare(Finite(x), "ge", Finite(y)) <==> !Compare(Finite(x), "lt", Finite(y))
    ensures Compare(Finite(x), "le", Finite(y)) <==> !Compare(Finite(x), "gt", Finite(y))
    ensures Compare(Finite(x), "gt", Finite(y)) <==> x > y
    ensures Compare(Finite(x), "lt", Finite(y)) <==> x < y
    ensures Compare(Finite(x), "eq", Finite(y)) <==> x == y
    ensures Compare(Finite(x), "ne", Finite(y)) <==> x != y
    ensures forall op :: op !in ["gt", "ge", "lt", "le", "eq", "ne"] ==>
        (Compare(Finite(x), op, t) <==> Compare(Finite(x), "gt", t))
    ensures forall op :: Compare(NaN, op, t) <==> op == "ne"
  {
  }

  /** Every number lies strictly between the infinities. */
  lemma InfinitiesBoundNumbers(x: real)
    ensures Compare(NegInf, "lt", Finite(x)) && Compare(Finite(x), "lt", PosInf) && Compare(NegInf, "lt", PosInf)
    ensures Compare(PosInf, "eq", PosInf) && Compare(NegInf, "eq", NegInf)
  {
  }

  /** Apart from NaN, any two values compare in exactly one of three ways, and the operators agree. */
  lemma OneOfThree(a: Float, b: Float)
    requires a != NaN && b != NaN
    ensures Compare(a, "lt", b) || Compare(a, "eq", b) || Compare(a, "gt", b)
    ensures !(Compare(a, "lt", b) && Compare(a, "eq", b)) && !(Compare(a, "lt", b) && Compare(a, "gt", b))
    ensures !(Compare(a, "eq", b) && Compare(a, "gt", b))
    ensures Compare(a, "ge", b) <==> !Compare(a, "lt", b)
    ensures Compare(a, "le", b) <==> !Compare(a, "gt", b)
    ensures Compare(a, "ne", b) <==> !Compare(a, "eq", b)
    ensures Compare(a, "gt", b) <==> Compare(b, "lt", a)
  {
  }

  /** Nothing compares with a NaN threshold either, except by being different. */
  lemma NaNThreshold(a: Float, op: string)
    ensures Compare(a, op, NaN) <==> op == "ne"
  {
  }

  // ---- normalizeQueries ----

  datatype ResolvedQuery = ResolvedQuery(query: string, op: string, threshold: Float, name: string)

  function Resolve(q: GateQuery): ResolvedQuery {
    ResolvedQuery(q.query,
                  if q.op == "" then "gt" else q.op,
                  if q.threshold.None? then Finite(0.0) else q.threshold.value,
                  if q.name == "" then q.query else q.name)
  }

  function ResolvedQueries(gate: HealthGate): seq<ResolvedQuery> {
    if gate.query != "" then [ResolvedQuery(gate.query, "gt", Finite(0.0), "query")]
    else seq(|gate.queries|, i requires 0 <= i < |gate.queries| => Resolve(gate.queries[i]))
  }

  method NormalizeQueries(gate: HealthGate) returns (out: seq<ResolvedQuery>)
    ensures out == ResolvedQueries(gate)
    ensures gate.query != "" ==> out == [ResolvedQuery(gate.query, "gt", Finite(0.0), "query")]
    ensures gate.query == "" ==> |out| == |gate.queries|
    ensures gate.query == "" ==>
              forall i :: 0 <= i < |out| ==>
                && out[i].query == gate.queries[i].query
                && (gate.queries[i].op != "" ==> out[i].op == gate.queries[i].op)
                && (gate.queries[i].op == "" ==> out[i].op == "gt")
                && (gate.queries[i].threshold.Some? ==> out[i].threshold == gate.queries[i].threshold.value)
                && (gate.queries[i].threshold.None? ==> out[i].threshold == Finite(0.0))
  {
    if gate.query != "" {
      return [ResolvedQuery(gate.query, "gt", Finite(0.0), "query")];
    }
    out := [];
    for i := 0 to |gate.queries|
      invariant |out| == i
      invariant forall k :: 0 <= k < i ==> out[k] == Resolve(gate.queries[k])
    {
      var q := gate.queries[i];
      var op := q.op;
      if op == "" {
        op := "gt";
      }
      var threshold := Finite(0.0);
      if q.threshold.Some? {
        threshold := q.threshold.value;
      }
      var name := q.name;
      if name == "" {
        name := q.query;
      }
      out := out + [ResolvedQuery(q.query, op, threshold, name)];
    }
  }

  // ---- evalOneQuery ----

  /** One entry of the result vector; Malformed is any entry without a parsable value. */
  datatype Sample = Malformed | Sampled(value: Float)

  /** NoAnswer is a transport error, a bad status, or a body that cannot be read. */
  datatype QueryReply = NoAnswer | Vector(samples: seq<Sample>)

  datatype QueryResult = QueryResult(pass: bool, answered: bool)

  predicate Good(q: ResolvedQuery, s: Sample) {
    s.Sampled? && Compare(s.value, q.op, q.threshold)
  }

  predicate Bad(q: ResolvedQuery, s: Sample) {
    s.Sampled? && !Compare(s.value, q.op, q.threshold)
  }

  /** There is data, and every sample is well-formed and satisfies the query. */
  ghost predicate QueryPasses(q: ResolvedQuery, r: QueryReply) {
    r.Vector? && r.samples != [] && forall i :: 0 <= i < |r.samples| ==> Good(q, r.samples[i])
  }

  /** Some well-formed sample fails, and only satisfying samples come before it. */
  ghost predicate QueryFails(q: ResolvedQuery, r: QueryReply) {
    r.Vector? && exists k :: 0 <= k < |r.samples| && Bad(q, r.samples[k])
                             && forall i :: 0 <= i < k ==> Good(q, r.samples[i])
  }

  ghost predicate QueryAnswered(q: ResolvedQuery, r: QueryReply) {
    QueryPasses(q, r) || QueryFails(q, r)
  }

  method EvalOneQuery(q: ResolvedQuery, r: QueryReply) returns (res: QueryResult)
    ensures res.pass <==> QueryPasses(q, r)
    ensures res.answered <==> QueryAnswered(q, r)
  {
    if r.NoAnswer? {
      return QueryResult(false, false);
    }
    if |r.samples| == 0 {
      return QueryResult(false, false);
    }
    for i := 0 to |r.samples|
      invariant forall j :: 0 <= j < i ==> Good(q, r.samples[j])
    {
      match r.samples[i] {
        case Malformed =>
          assert !Good(q, r.samples[i]) && !Bad(q, r.samples[i]);
          return QueryResult(false, false);
        case Sampled(v) =>
          if !Compare(v, q.op, q.threshold) {
            assert Bad(q, r.samples[i]);
            return QueryResult(false, true);
          }
      }
    }
    return QueryResult(true, true);
  }

  /** A query never both passes and fails. */
  lemma PassExcludesFail(q: ResolvedQuery, r: QueryReply)
    requires QueryPasses(q, r)
    ensures !QueryFails(q, r)
  {
    forall k | 0 <= k < |r.samples| ensures !Bad(q, r.samples[k]) {
      assert Good(q, r.samples[k]);
    }
  }

  ghost predicate HasMalformed(r: QueryReply) {
    r.Vector? && exists i :: 0 <= i < |r.samples| && r.samples[i].Malformed?
  }

  ghost predicate HasBad(q: ResolvedQuery, r: QueryReply) {
    r.Vector? && exists i :: 0 <= i < |r.samples| && Bad(q, r.samples[i])
  }

  ghost predicate SameSamples(r: QueryReply, s: QueryReply) {
    r.Vector? && s.Vector? && multiset(r.samples) == multiset(s.samples)
  }

  /**
    * The first sample that does not satisfy the query decides, whatever follows it: a failing one is an
    * answer, and only a malformed one leaves the query unanswered. So "malformed means unanswered" is not
    * what the code does.
    */
  lemma FirstOtherSampleDecides(q: ResolvedQuery, good: seq<Sample>, s: Sample, rest: seq<Sample>)
    requires (forall i :: 0 <= i < |good| ==> Good(q, good[i])) && !Good(q, s)
    ensures var r := Vector(good + [s] + rest);
            && !QueryPasses(q, r) && (QueryFails(q, r) <==> Bad(q, s)) && (QueryAnswered(q, r) <==> !s.Malformed?)
  {
    var samples := good + [s] + rest;
    assert samples[|good|] == s;
    if Bad(q, s) {
      assert forall i :: 0 <= i < |good| ==> samples[i] == good[i];
      assert QueryFails(q, Vector(samples));
    } else {
      assert forall k :: 0 <= k < |good| ==> samples[k] == good[k];
      assert !Good(q, samples[|good|]);
      assert forall k :: 0 <= k < |samples| && Bad(q, samples[k]) ==> |good| < k;
    }
  }

  /** In particular a malformed sample after a failing one changes nothing. */
  lemma MalformedAfterFailureIsAnswered(q: ResolvedQuery, good: seq<Sample>, bad: Float, rest: seq<Sample>)
    requires (forall i :: 0 <= i < |good| ==> Good(q, good[i])) && !Compare(bad, q.op, q.threshold)
    ensures QueryFails(q, Vector(good + [Sampled(bad)] + ([Malformed] + rest)))
    ensures !QueryAnswered(q, Vector(good + [Malformed] + ([Sampled(bad)] + rest)))
  {
    FirstOtherSampleDecides(q, good, Sampled(bad), [Malformed] + rest);
    FirstOtherSampleDecides(q, good, Malformed, [Sampled(bad)] + rest);
  }

  lemma FirstBad(q: ResolvedQuery, r: QueryReply, k: nat)
    requires r.Vector? && k < |r.samples| && Bad(q, r.samples[k]) && !HasMalformed(r)
    ensures QueryFails(q, r)
  {
    if i :| 0 <= i < k && !Good(q, r.samples[i]) {
      assert !r.samples[i].Malformed?;
      FirstBad(q, r, i);
    }
  }

  lemma WithoutBothOrderIsIrrelevant(q: ResolvedQuery, r: QueryReply, s: QueryReply)
    requires SameSamples(r, s) && !(HasMalformed(r) && HasBad(q, r))
    ensures QueryFails(q, r) ==> QueryFails(q, s)
    ensures QueryPasses(q, r) ==> QueryPasses(q, s)
  {
    assert |r.samples| == |multiset(r.samples)| == |s.samples|;
    forall x ensures x in r.samples <==> x in s.samples {
      assert x in multiset(r.samples) <==> x in multiset(s.samples);
    }
    if QueryFails(q, r) {
      var k :| 0 <= k < |r.samples| && Bad(q, r.samples[k]);
      assert r.samples[k] in s.samples;
      SameKinds(q, r, s);
      var j :| 0 <= j < |s.samples| && s.samples[j] == r.samples[k];
      FirstBad(q, s, j);
    }
    if QueryPasses(q, r) {
      forall i | 0 <= i < |s.samples| ensures Good(q, s.samples[i]) {
        assert s.samples[i] in r.samples;
      }
    }
  }

  /**
    * The order in which Prometheus lists the samples is irrelevant to the verdict exactly when the
    * vector does not mix a malformed sample with a failing one.
    */
  lemma SampleOrderIrrelevantIff(q: ResolvedQuery, r: QueryReply)
    requires r.Vector?
    ensures (forall s :: SameSamples(r, s) ==>
               (QueryPasses(q, s) <==> QueryPasses(q, r)) && (QueryFails(q, s) <==> QueryFails(q, r)))
            <==> !(HasMalformed(r) && HasBad(q, r))
  {
    if HasMalformed(r) && HasBad(q, r) {
      var m :| 0 <= m < |r.samples| && r.samples[m].Malformed?;
      var b :| 0 <= b < |r.samples| && Bad(q, r.samples[b]);
      var s1 := MoveToFront(r.samples, m);
      var s2 := MoveToFront(r.samples, b);
      assert SameSamples(r, Vector(s1)) && SameSamples(r, Vector(s2));
      assert !Good(q, s1[0]) && !Bad(q, s1[0]);
      assert !QueryFails(q, Vector(s1));
      assert Bad(q, s2[0]) && QueryFails(q, Vector(s2));
    } else {
      forall s | SameSamples(r, s)
        ensures (QueryPasses(q, s) <==> QueryPasses(q, r)) && (QueryFails(q, s) <==> QueryFails(q, r))
      {
        WithoutBothOrderIsIrrelevant(q, r, s);
        SameKinds(q, r, s);
        WithoutBothOrderIsIrrelevant(q, s, r);
      }
    }
  }

  lemma SameKinds(q: ResolvedQuery, r: QueryReply, s: QueryReply)
    requires SameSamples(r, s)
    ensures HasMalformed(s) ==> HasMalformed(r)
    ensures HasBad(q, s) ==> HasBad(q, r)
  {
    forall i | 0 <= i < |s.samples|
      ensures exists j :: 0 <= j < |r.samples| && r.samples[j] == s.samples[i]
    {
      assert s.samples[i] in multiset(s.samples);
      assert s.samples[i] in r.samples;
    }
  }

  lemma MoveToFront<T>(s: seq<T>, k: nat) returns (t: seq<T>)
    requires k < |s|
    ensures multiset(t) == multiset(s) && |t| == |s| && t[0] == s[k]
  {
    t := [s[k]] + s[..k] + s[k + 1..];
    assert s == s[..k] + [s[k]] + s[k + 1..];
  }

  // ---- evalPromQL ----

  /** What monitoring says during one pass: the gate cannot be resolved, or one reply per query. */
  datatype Reply = ConfigError | Replies(replies: seq<QueryReply>)

  ghost predicate Reachable(qs: seq<ResolvedQuery>, rs: seq<QueryReply>)
    requires |rs| == |qs|
  {
    forall i :: 0 <= i < |qs| ==> QueryAnswered(qs[i], rs[i])
  }

  ghost predicate Healthy(qs: seq<ResolvedQuery>, rs: seq<QueryReply>)
    requires |rs| == |qs|
  {
    forall i :: 0 <= i < |qs| ==> QueryPasses(qs[i], rs[i])
  }

  /** The loop stops at the first unanswered query, yet the verdict depends on no order. */
  method EvalPromQL(qs: seq<ResolvedQuery>, rs: seq<QueryReply>) returns (healthy: bool, reachable: bool)
    requires |rs| == |qs|
    ensures reachable <==> Reachable(qs, rs)
    ensures healthy <==> Healthy(qs, rs)
  {
    var allPass := true;
    for i := 0 to |qs|
      invariant forall j :: 0 <= j < i ==> QueryAnswered(qs[j], rs[j])
      invariant allPass <==> forall j :: 0 <= j < i ==> QueryPasses(qs[j], rs[j])
    {
      var res := EvalOneQuery(qs[i], rs[i]);
      if !res.answered {
        assert !QueryPasses(qs[i], rs[i]);
        return false, false;
      }
      if !res.pass {
        allPass := false;
      }
    }
    return allPass, true;
  }

  /** Asking the queries in another order gives the same verdict. */
  lemma QueryOrderIrrelevant(qs: seq<ResolvedQuery>, rs: seq<QueryReply>, perm: seq<nat>,
                             qs': seq<ResolvedQuery>, rs': seq<QueryReply>)
    requires |rs| == |qs| == |qs'| == |rs'| == |perm|
    requires forall i :: 0 <= i < |perm| ==> perm[i] < |qs| && qs'[i] == qs[perm[i]] && rs'[i] == rs[perm[i]]
    requires forall k :: 0 <= k < |qs| ==> k in perm
    ensures Reachable(qs, rs) <==> Reachable(qs', rs')
    ensures Healthy(qs, rs) <==> Healthy(qs', rs')
  {
    if Reachable(qs', rs') {
      forall k | 0 <= k < |qs| ensures QueryAnswered(qs[k], rs[k]) {
        assert k in perm;
        var i :| 0 <= i < |perm| && perm[i] == k;
        assert QueryAnswered(qs'[i], rs'[i]);
      }
    }
    if Healthy(qs', rs') {
      forall k | 0 <= k < |qs| ensures QueryPasses(qs[k], rs[k]) {
        assert k in perm;
        var i :| 0 <= i < |perm| && perm[i] == k;
        assert QueryPasses(qs'[i], rs'[i]);
      }
    }
  }

  // ---- decideGate ----

  datatype Action = GatePass | GateWait | GateRollback | GatePauseTimeout

  function DecideGate(reachable: bool, healthy: bool, timedOut: bool, onFailure: bool, hasLastGood: bool): Action {
    if healthy then GatePass
    else if !reachable then GateWait
    else if !timedOut then GateWait
    else if onFailure && hasLastGood then GateRollback
    else GatePauseTimeout
  }

  function Timeout(gate: HealthGate): int {
    if gate.timeoutSeconds == 0 then DEFAULT_TIMEOUT else gate.timeoutSeconds
  }

  /** No usable data: the gate is misconfigured, or some query is unanswered. */
  ghost predicate NoData(gate: HealthGate, reply: Reply) {
    match reply
    case ConfigError => true
    case Replies(rs) => |rs| == |ResolvedQueries(gate)| && !Reachable(ResolvedQueries(gate), rs)
  }

  ghost predicate AllPass(gate: HealthGate, reply: Reply) {
    reply.Replies? && |reply.replies| == |ResolvedQueries(gate)|
    && Healthy(ResolvedQueries(gate), reply.replies)
  }

  /** Every query was answered, and at least one of them by a failing sample. */
  ghost predicate AnsweredFailing(gate: HealthGate, reply: Reply) {
    && reply.Replies? && |reply.replies| == |ResolvedQueries(gate)|
    && Reachable(ResolvedQueries(gate), reply.replies)
    && exists i :: 0 <= i < |reply.replies| && QueryFails(ResolvedQueries(gate)[i], reply.replies[i])
  }

  /** A well-formed reply is exactly one of: no data, all passing, answered with a failure. */
  lemma ReplyTrichotomy(gate: HealthGate, reply: Reply)
    requires reply.Replies? ==> |reply.replies| == |ResolvedQueries(gate)|
    ensures NoData(gate, reply) || AllPass(gate, reply) || AnsweredFailing(gate, reply)
    ensures !(NoData(gate, reply) && AllPass(gate, reply))
    ensures !(NoData(gate, reply) && AnsweredFailing(gate, reply))
    ensures !(AllPass(gate, reply) && AnsweredFailing(gate, reply))
  {
    if reply.Replies? {
      var qs := ResolvedQueries(gate);
      var rs := reply.replies;
      forall i | 0 <= i < |qs| && QueryPasses(qs[i], rs[i]) ensures !QueryFails(qs[i], rs[i]) {
        PassExcludesFail(qs[i], rs[i]);
      }
    }
  }

  // ---- The gate's verdict, in the fields of the spec ----

  /** The sample satisfies this query of the spec: its own operator, gt if unset, and threshold, 0 if unset. */
  predicate SatisfiesQuery(q: GateQuery, s: Sample) {
    && s.Sampled?
    && Compare(s.value, if q.op == "" then "gt" else q.op,
               if q.threshold.None? then Finite(0.0) else q.threshold.value)
  }

  ghost predicate AllSatisfy(q: GateQuery, r: QueryReply) {
    r.Vector? && r.samples != [] && forall k :: 0 <= k < |r.samples| ==> SatisfiesQuery(q, r.samples[k])
  }

  /** The first sample that does not satisfy the query is well-formed. */
  ghost predicate FailsFirst(q: GateQuery, r: QueryReply) {
    r.Vector? && exists k :: 0 <= k < |r.samples| && r.samples[k].Sampled? && !SatisfiesQuery(q, r.samples[k])
                             && forall j :: 0 <= j < k ==> SatisfiesQuery(q, r.samples[j])
  }

  lemma OneQueryInTheSpec(q: GateQuery, r: QueryReply)
    ensures QueryPasses(Resolve(q), r) <==> AllSatisfy(q, r)
    ensures QueryFails(Resolve(q), r) <==> FailsFirst(q, r)
  {
    forall s: Sample ensures Good(Resolve(q), s) <==> SatisfiesQuery(q, s) {
    }
    if QueryFails(Resolve(q), r) {
      var k :| 0 <= k < |r.samples| && Bad(Resolve(q), r.samples[k])
               && forall j :: 0 <= j < k ==> Good(Resolve(q), r.samples[j]);
      assert r.samples[k].Sampled? && !SatisfiesQuery(q, r.samples[k]);
    }
    if FailsFirst(q, r) {
      var k :| 0 <= k < |r.samples| && r.samples[k].Sampled? && !SatisfiesQuery(q, r.samples[k])
               && forall j :: 0 <= j < k ==> SatisfiesQuery(q, r.samples[j]);
      assert Bad(Resolve(q), r.samples[k]);
    }
  }

  /**
    * A list of queries: one reply for each of them, in order. The gate passes iff every query has data and
    * every sample satisfies it; it has no data iff for some query neither holds that nor does a well-formed
    * failing sample come first; and otherwise it is answered failing.
    */
  lemma QueryListVerdict(gate: HealthGate, rs: seq<QueryReply>)
    requires gate.query == ""
    ensures AllPass(gate, Replies(rs)) <==>
              |rs| == |gate.queries| && forall i :: 0 <= i < |rs| ==> AllSatisfy(gate.queries[i], rs[i])
    ensures NoData(gate, Replies(rs)) <==>
              |rs| == |gate.queries|
              && exists i :: 0 <= i < |rs| && !AllSatisfy(gate.queries[i], rs[i]) && !FailsFirst(gate.queries[i], rs[i])
    ensures AnsweredFailing(gate, Replies(rs)) <==>
              && |rs| == |gate.queries|
              && (forall i :: 0 <= i < |rs| ==>
                    AllSatisfy(gate.queries[i], rs[i]) || FailsFirst(gate.queries[i], rs[i]))
              && exists i :: 0 <= i < |rs| && FailsFirst(gate.queries[i], rs[i])
  {
    var qs := ResolvedQueries(gate);
    assert |qs| == |gate.queries|;
    if |rs| == |qs| {
      forall i | 0 <= i < |rs|
        ensures QueryPasses(qs[i], rs[i]) <==> AllSatisfy(gate.queries[i], rs[i])
        ensures QueryFails(qs[i], rs[i]) <==> FailsFirst(gate.queries[i], rs[i])
      {
        OneQueryInTheSpec(gate.queries[i], rs[i]);
      }
      ListVerdict(gate, qs, rs);
    }
  }

  /** From the verdicts on the queries to the verdict on the list. */
  lemma ListVerdict(gate: HealthGate, qs: seq<ResolvedQuery>, rs: seq<QueryReply>)
    requires qs == ResolvedQueries(gate) && gate.query == "" && |rs| == |qs| == |gate.queries|
    requires forall i :: 0 <= i < |rs| ==> (QueryPasses(qs[i], rs[i]) <==> AllSatisfy(gate.queries[i], rs[i]))
    requires forall i :: 0 <= i < |rs| ==> (QueryFails(qs[i], rs[i]) <==> FailsFirst(gate.queries[i], rs[i]))
    ensures AllPass(gate, Replies(rs)) <==> forall i :: 0 <= i < |rs| ==> AllSatisfy(gate.queries[i], rs[i])
    ensures NoData(gate, Replies(rs)) <==>
              exists i :: 0 <= i < |rs| && !AllSatisfy(gate.queries[i], rs[i]) && !FailsFirst(gate.queries[i], rs[i])
    ensures AnsweredFailing(gate, Replies(rs)) <==>
              && (forall i :: 0 <= i < |rs| ==>
                    AllSatisfy(gate.queries[i], rs[i]) || FailsFirst(gate.queries[i], rs[i]))
              && exists i :: 0 <= i < |rs| && FailsFirst(gate.queries[i], rs[i])
  {
    assert Reachable(qs, rs) <==>
        forall i :: 0 <= i < |rs| ==> AllSatisfy(gate.queries[i], rs[i]) || FailsFirst(gate.queries[i], rs[i]);
    assert Healthy(qs, rs) <==> forall i :: 0 <= i < |rs| ==> AllSatisfy(gate.queries[i], rs[i]);
    if i :| 0 <= i < |rs| && FailsFirst(gate.queries[i], rs[i]) {
      assert QueryFails(qs[i], rs[i]);
    }
  }

  /** A bare query is asked alone, whatever else is listed, and passes iff there is data and all of it is positive. */
  lemma BareQueryVerdict(gate: HealthGate, rs: seq<QueryReply>)
    requires gate.query != ""
    ensures var q := GateQuery(gate.query, "gt", Some(Finite(0.0)), "query");
            && (AllPass(gate, Replies(rs)) <==> |rs| == 1 && AllSatisfy(q, rs[0]))
            && (NoData(gate, Replies(rs)) <==> |rs| == 1 && !AllSatisfy(q, rs[0]) && !FailsFirst(q, rs[0]))
            && (AnsweredFailing(gate, Replies(rs)) <==> |rs| == 1 && FailsFirst(q, rs[0]))
    ensures forall s: Sample :: SatisfiesQuery(GateQuery(gate.query, "gt", Some(Finite(0.0)), "query"), s) <==>
              s.Sampled? && (s.value == PosInf || (s.value.Finite? && s.value.r > 0.0))
  {
    var q := GateQuery(gate.query, "gt", Some(Finite(0.0)), "query");
    var qs := ResolvedQueries(gate);
    assert |qs| == 1 && qs[0] == Resolve(q);
    if |rs| == 1 {
      OneQueryInTheSpec(q, rs[0]);
      assert Reachable(qs, rs) <==> AllSatisfy(q, rs[0]) || FailsFirst(q, rs[0]);
      PassAndFailExclude(q, rs[0]);
    }
  }

  lemma PassAndFailExclude(q: GateQuery, r: QueryReply)
    ensures !(AllSatisfy(q, r) && FailsFirst(q, r))
  {
  }

  /** The questions sent are those of the spec, one for each and in their order, under their own name or text. */
  lemma QueriesAreTheSpecs(gate: HealthGate)
    ensures gate.query != "" ==> |ResolvedQueries(gate)| == 1 && ResolvedQueries(gate)[0].query == gate.query
    ensures gate.query == "" ==>
              && |ResolvedQueries(gate)| == |gate.queries|
              && forall i :: 0 <= i < |gate.queries| ==>
                   && ResolvedQueries(gate)[i].query == gate.queries[i].query
                   && (gate.queries[i].name != "" ==> ResolvedQueries(gate)[i].name == gate.queries[i].name)
                   && (gate.queries[i].name == "" ==> ResolvedQueries(gate)[i].name == gate.queries[i].query)
  {
  }
}
