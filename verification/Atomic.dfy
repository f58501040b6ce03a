/** A whole pass, as the other modules use it, is one of the runs of the protocol. */
module Atomic {
  import opened Prelude
  import opened Api
  import opened Templates
  import opened Gates
  import opened Engine
  import opened PassProperties
  import opened Protocol
  import opened Invariant
  import opened Runs
  import opened Recovery

  ghost predicate RunFrom(hash: Hasher, w: World, ws: seq<World>, ls: seq<Label>, w': World) {
    IsRun(hash, ws, ls) && ws[0] == w && ws[|ls|] == w'
  }

  lemma Prepend(hash: Hasher, w: World, l: Label, ws: seq<World>, ls: seq<Label>, w': World)
    requires Enabled(w, l) && RunFrom(hash, Next(hash, w, l), ws, ls, w')
    ensures RunFrom(hash, w, [w] + ws, [l] + ls, w')
  {
    var vs, ms := [w] + ws, [l] + ls;
    forall k | 0 <= k < |ms| ensures Stepped(hash, vs, ms, k) {
      if k > 0 {
        assert Stepped(hash, ws, ls, k - 1);
      }
    }
  }

  /** Between the decision and the status write, with nobody else moving. */
  ghost predicate Midway(hash: Hasher, w: World) {
    && w.job.Acting? && InputWf(w.job.input) && w.job.outcome == Pass(hash, w.job.input)
    && var i, o := w.job.input, w.job.outcome;
    && w.job.dels <= o.dels && w.job.ungs <= o.ungs && o.dels !! o.ungs
    && o.dels <= i.pods.Keys && o.ungs <= i.pods.Keys
    && w.pods == Apply(i.pods, o.dels - w.job.dels, o.ungs - w.job.ungs)
  }

  lemma MidwayStep(hash: Hasher, w: World, l: Label)
    requires Midway(hash, w) && Enabled(w, l) && (l.WriteDelete? || l.WriteUngate?)
    ensures var w' := Next(hash, w, l);
            && Midway(hash, w') && w' == w.(pods := w'.pods, job := w'.job, log := w'.log)
            && w'.job.input == w.job.input
            && w'.job.dels == w.job.dels - {l.node} && w'.job.ungs == w.job.ungs - {l.node}
  {
    var i, o := w.job.input, w.job.outcome;
    var w' := Next(hash, w, l);
    assert SamePod(w, i, l.node);
    assert w.pods[l.node] == i.pods[l.node];
    assert w'.pods == Apply(i.pods, o.dels - w'.job.dels, o.ungs - w'.job.ungs);
  }

  /** Any part of the writes can go through, in some order, leaving exactly `d` and `u` undone. */
  lemma {:induction false} WritesRun(hash: Hasher, w: World, d: set<Name>, u: set<Name>)
      returns (ws: seq<World>, ls: seq<Label>, w': World)
    requires Midway(hash, w) && d <= w.job.dels && u <= w.job.ungs
    ensures RunFrom(hash, w, ws, ls, w') && Midway(hash, w')
    ensures w' == w.(pods := w'.pods, job := w'.job, log := w'.log)
    ensures w'.job.input == w.job.input && w'.job.dels == d && w'.job.ungs == u
    decreases |w.job.dels| + |w.job.ungs|
  {
    if w.job.dels == d && w.job.ungs == u {
      ws, ls, w' := [w], [], w;
    } else {
      var l := NextWrite(w, d, u);
      MidwayStep(hash, w, l);
      ws, ls, w' := WritesRun(hash, Next(hash, w, l), d, u);
      Prepend(hash, w, l, ws, ls, w');
      ws, ls := [w] + ws, [l] + ls;
    }
  }

  lemma NextWrite(w: World, d: set<Name>, u: set<Name>) returns (l: Label)
    requires w.job.Acting? && w.job.dels !! w.job.ungs
    requires d <= w.job.dels && u <= w.job.ungs && (w.job.dels != d || w.job.ungs != u)
    ensures Enabled(w, l) && (l.WriteDelete? || l.WriteUngate?) && l.node !in d + u
  {
    if w.job.dels != d {
      assert exists n :: n in w.job.dels && n !in d;
      var n :| n in w.job.dels && n !in d;
      l := WriteDelete(n);
    } else {
      assert exists n :: n in w.job.ungs && n !in u;
      var n :| n in w.job.ungs && n !in u;
      l := WriteUngate(n);
    }
  }

  lemma ObserveIsMidway(hash: Hasher, w: World, reply: Reply)
    requires w.job.Synced? && Enabled(w, Observe(reply))
    ensures Midway(hash, Next(hash, w, Observe(reply)))
  {
    var i := Observation(w, reply);
    var o := Pass(hash, i);
    PassTouchesTheRightPods(hash, i);
    assert o.dels - o.dels == {} && o.ungs - o.ungs == {};
    assert i.pods == Apply(i.pods, {}, {});
  }

  lemma WrittenPods(hash: Hasher, w: World)
    requires Midway(hash, w) && w.job.dels == {} && w.job.ungs == {}
    ensures w.pods == Apply(w.job.input.pods, w.job.outcome.dels, w.job.outcome.ungs)
  {
    assert w.job.outcome.dels - {} == w.job.outcome.dels && w.job.outcome.ungs - {} == w.job.outcome.ungs;
  }

  lemma SyncedRun(hash: Hasher, w: World, reply: Reply) returns (ws: seq<World>, ls: seq<Label>, w': World)
    requires w.job.Synced? && w.job.gen == w.gen && Enabled(w, Observe(reply))
    ensures RunFrom(hash, w, ws, ls, w')
    ensures var o := Pass(hash, Observation(w, reply));
            && w'.status == o.status && w'.pods == Apply(w.pods, o.dels, o.ungs) && w'.job == Idle
            && w' == w.(status := w'.status, pods := w'.pods, job := Idle, log := w'.log)
  {
    ObserveIsMidway(hash, w, reply);
    var w1 := Next(hash, w, Observe(reply));
    var w2;
    ws, ls, w2 := WritesRun(hash, w1, {}, {});
    WrittenPods(hash, w2);
    AppendStep(hash, w1, ws, ls, w2, WriteStatus);
    w' := Next(hash, w2, WriteStatus);
    ws, ls := ws + [w'], ls + [WriteStatus];
    Prepend(hash, w, Observe(reply), ws, ls, w');
    ws, ls := [w] + ws, [Observe(reply)] + ls;
  }

  /** What a pass that starts now observes. */
  ghost function PassInput(w: World, reply: Reply): Input {
    Input(w.spec, w.gen, w.status, Order(ReadyTargets(w.nodes)), w.pods, w.clock, reply)
  }

  ghost function DesiredTemplate(hash: Hasher, i: Input): Template {
    RenderedTemplate(DesiredBase(i.spec, BeginInput(hash, i)), DesiredHash(hash, i.spec, BeginInput(hash, i)), i.spec)
  }

  /** Fetching and syncing, in front of a run that starts with the observation. */
  lemma FetchAndSync(hash: Hasher, w: World, ws: seq<World>, ls: seq<Label>, w': World)
    requires w.job == Idle
    requires RunFrom(hash, Next(hash, Next(hash, w, Fetch), SyncDaemonSet), ws, ls, w')
    ensures var w1 := Next(hash, w, Fetch);
            RunFrom(hash, w, [w] + ([w1] + ws), [Fetch] + ([SyncDaemonSet] + ls), w')
  {
    var w1 := Next(hash, w, Fetch);
    Prepend(hash, w1, SyncDaemonSet, ws, ls, w');
    Prepend(hash, w, Fetch, [w1] + ws, [SyncDaemonSet] + ls, w');
  }

  /** From an idle, reachable world: fetch, sync, observe, all pod writes, and the status write. */
  lemma PassIsARun(hash: Hasher, w: World, reply: Reply) returns (ws: seq<World>, ls: seq<Label>, w': World)
    requires Inv(hash, w) && w.job == Idle && ReplyWf(w.spec.gate, reply)
    ensures RunFrom(hash, w, ws, ls, w')
    ensures var i := PassInput(w, reply);
            && InputWf(i)
            && w'.status == Pass(hash, i).status && w'.pods == Apply(w.pods, Pass(hash, i).dels, Pass(hash, i).ungs)
            && w' == w.(status := w'.status, pods := w'.pods, log := w'.log, ds := Some(DesiredTemplate(hash, i)))
  {
    var w1 := Next(hash, w, Fetch);
    var w2 := Next(hash, w1, SyncDaemonSet);
    assert Observation(w2, reply) == PassInput(w, reply);
    ws, ls, w' := SyncedRun(hash, w2, reply);
    FetchAndSync(hash, w, ws, ls, w');
    ws, ls := [w] + ([w1] + ws), [Fetch] + ([SyncDaemonSet] + ls);
  }

  lemma PartlyWritten(hash: Hasher, w: World, d: set<Name>, u: set<Name>)
    requires Midway(hash, w) && w.job.dels == w.job.outcome.dels - d && w.job.ungs == w.job.outcome.ungs - u
    ensures w.pods == Apply(w.job.input.pods, d * w.job.outcome.dels, u * w.job.outcome.ungs)
  {
    var o := w.job.outcome;
    assert o.dels - (o.dels - d) == d * o.dels && o.ungs - (o.ungs - u) == u * o.ungs;
  }

  lemma CutRun(hash: Hasher, w: World, reply: Reply, d: set<Name>, u: set<Name>)
      returns (ws: seq<World>, ls: seq<Label>, w': World)
    requires w.job.Synced? && Enabled(w, Observe(reply))
    ensures RunFrom(hash, w, ws, ls, w')
    ensures var o := Pass(hash, Observation(w, reply));
            && w'.pods == Apply(w.pods, d * o.dels, u * o.ungs)
            && w' == w.(pods := w'.pods, job := Idle, log := w'.log)
  {
    ObserveIsMidway(hash, w, reply);
    var w1 := Next(hash, w, Observe(reply));
    var w2;
    ws, ls, w2 := WritesRun(hash, w1, w1.job.outcome.dels - d, w1.job.outcome.ungs - u);
    PartlyWritten(hash, w2, d, u);
    AppendStep(hash, w1, ws, ls, w2, Crash);
    w' := Next(hash, w2, Crash);
    ws, ls := ws + [w'], ls + [Crash];
    Prepend(hash, w, Observe(reply), ws, ls, w');
    ws, ls := [w] + ws, [Observe(reply)] + ls;
  }

  /** And so is a pass cut by a crash after any part of its pod writes, with its status lost. */
  lemma CutPassIsARun(hash: Hasher, w: World, reply: Reply, d: set<Name>, u: set<Name>)
      returns (ws: seq<World>, ls: seq<Label>, w': World)
    requires Inv(hash, w) && w.job == Idle && ReplyWf(w.spec.gate, reply)
    ensures RunFrom(hash, w, ws, ls, w')
    ensures var i := PassInput(w, reply);
            && InputWf(i) && PassInput(w', reply) == Cut(hash, i, d, u) && w'.job == Idle
  {
    var w1 := Next(hash, w, Fetch);
    var w2 := Next(hash, w1, SyncDaemonSet);
    assert Observation(w2, reply) == PassInput(w, reply);
    ws, ls, w' := CutRun(hash, w2, reply, d, u);
    FetchAndSync(hash, w, ws, ls, w');
    ws, ls := [w] + ([w1] + ws), [Fetch] + ([SyncDaemonSet] + ls);
  }

  lemma AppendStep(hash: Hasher, w: World, ws: seq<World>, ls: seq<Label>, w': World, l: Label)
    requires RunFrom(hash, w, ws, ls, w') && Enabled(w', l)
    ensures RunFrom(hash, w, ws + [Next(hash, w', l)], ls + [l], Next(hash, w', l))
  {
    var vs, ms := ws + [Next(hash, w', l)], ls + [l];
    forall k | 0 <= k < |ms| ensures Stepped(hash, vs, ms, k) {
      if k < |ls| {
        assert Stepped(hash, ws, ls, k);
      }
    }
  }

  /** One run after another. */
  lemma Chain(hash: Hasher, w: World, ws: seq<World>, ls: seq<Label>, mid: World,
              vs: seq<World>, ms: seq<Label>, w': World)
    requires RunFrom(hash, w, ws, ls, mid) && RunFrom(hash, mid, vs, ms, w')
    ensures RunFrom(hash, w, ws + vs[1..], ls + ms, w')
  {
    var us, ns := ws + vs[1..], ls + ms;
    assert forall k :: |ls| <= k < |us| ==> us[k] == vs[k - |ls|];
    forall k | 0 <= k < |ns| ensures Stepped(hash, us, ns, k) {
      if k < |ls| {
        assert Stepped(hash, ws, ls, k);
      } else {
        assert Stepped(hash, vs, ms, k - |ls|);
      }
    }
  }

  lemma {:induction false} RunFromKeepsInv(hash: Hasher, w: World, ws: seq<World>, ls: seq<Label>, w': World)
    requires RunFrom(hash, w, ws, ls, w') && Inv(hash, w)
    ensures Inv(hash, w')
    decreases |ls|
  {
    if ls != [] {
      var k := |ls| - 1;
      assert Stepped(hash, ws, ls, k);
      RunPrefix(hash, w, ws, ls, w');
      RunFromKeepsInv(hash, w, ws[..|ws| - 1], ls[..k], ws[k]);
      StepKeepsInv(hash, ws[k], ls[k]);
    }
  }

  lemma RunPrefix(hash: Hasher, w: World, ws: seq<World>, ls: seq<Label>, w': World)
    requires RunFrom(hash, w, ws, ls, w') && ls != []
    ensures RunFrom(hash, w, ws[..|ws| - 1], ls[..|ls| - 1], ws[|ls| - 1])
  {
    var vs, ms := ws[..|ws| - 1], ls[..|ls| - 1];
    forall k | 0 <= k < |ms| ensures Stepped(hash, vs, ms, k) {
      assert Stepped(hash, ws, ls, k);
    }
  }
}
