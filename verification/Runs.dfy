/** What holds in every run from an initial world, under every interleaving and every crash. */
module Runs {
  import opened Prelude
  import opened Api
  import opened Templates
  import opened Waves
  import opened Gates
  import opened Engine
  import opened Protocol
  import opened Invariant

  ghost predicate IsRun(hash: Hasher, ws: seq<World>, ls: seq<Label>) {
    |ws| == |ls| + 1
    && forall k :: 0 <= k < |ls| ==> Stepped(hash, ws, ls, k)
  }

  ghost predicate Stepped(hash: Hasher, ws: seq<World>, ls: seq<Label>, k: int)
    requires |ws| == |ls| + 1 && 0 <= k < |ls|
  {
    Enabled(ws[k], ls[k]) && ws[k + 1] == Next(hash, ws[k], ls[k])
  }

  /** The reachable-state invariant: every world of every run satisfies it. */
  lemma {:induction false} RunKeepsInv(hash: Hasher, ws: seq<World>, ls: seq<Label>, k: nat)
    requires IsRun(hash, ws, ls) && Initial(ws[0]) && k < |ws|
    ensures Inv(hash, ws[k])
  {
    if k == 0 {
      InitialInv(hash, ws[0]);
    } else {
      RunKeepsInv(hash, ws, ls, k - 1);
      assert Stepped(hash, ws, ls, k - 1);
      StepKeepsInv(hash, ws[k - 1], ls[k - 1]);
    }
  }

  /** With a well-formed reply, a pass can always take its decision: nothing in the status is in the way. */
  lemma ObserveIsNeverStuck(hash: Hasher, ws: seq<World>, ls: seq<Label>, k: nat, reply: Reply)
    requires IsRun(hash, ws, ls) && Initial(ws[0]) && k < |ws|
    requires ws[k].job.Synced? && ReplyWf(ws[k].job.spec.gate, reply)
    ensures Enabled(ws[k], Observe(reply))
  {
    RunKeepsInv(hash, ws, ls, k);
  }

  // ---- Release safety ----

  /** A passed gate: every query was answered and satisfied, with every wave up to it updated. */
  ghost predicate TrueGatePass(hash: Hasher, e: Event, key: PlanKey, atLeast: int) {
    && e.GatePassed? && e.key == key && e.wave >= atLeast && PlanOf(hash, key, e.input)
    && e.input.spec.gate.Some? && AllPass(e.input.spec.gate.value, e.input.reply)
    && ViewOf(hash, e.input).hash == key.hash && EarlierWavesUpdated(key, e.wave + 1, ViewOf(hash, e.input))
  }

  /** log[j] is preceded by a true pass of this plan's gate for wave `atLeast` or a later one. */
  ghost predicate PassedBefore(hash: Hasher, log: seq<Event>, j: int, key: PlanKey, atLeast: int)
    requires 0 <= j <= |log|
  {
    exists k :: 0 <= k < j && TrueGatePass(hash, log[k], key, atLeast)
  }

  /** A rollout of this template that earned its place: with a gate, the final one had truly passed. */
  ghost predicate TrueCompletion(hash: Hasher, log: seq<Event>, k: int, h: string)
    requires 0 <= k < |log|
  {
    && log[k].Completed? && log[k].key.hash == h && log[k].key.waveSize >= 1
    && var key := log[k].key;
    log[k].gated ==> PassedBefore(hash, log, k, key, WaveCount(|key.nodes|, key.waveSize) - 1)
  }

  ghost predicate CompletedBefore(hash: Hasher, log: seq<Event>, j: int, h: string)
    requires 0 <= j <= |log|
  {
    exists k :: 0 <= k < j && TrueCompletion(hash, log, k, h)
  }

  /**
    * A pass may touch a node in wave w of a plan: the plan is for the template and the generation the
    * pass observed, every earlier wave was up to date and, with a gate configured and w > 0, a gate of
    * this very plan (same template, generation, size and nodes) truly passed before, for wave w - 1 or
    * a later one.
    */
  ghost predicate WaveAllowed(hash: Hasher, log: seq<Event>, j: int, key: PlanKey, w: int, n: Name, i: Input)
    requires 0 <= j <= |log|
  {
    && InWaveOf(key, w, n) && PlanOf(hash, key, i) && ViewOf(hash, i).hash == key.hash
    && EarlierWavesUpdated(key, w, ViewOf(hash, i))
    && (w == 0 || i.spec.gate.None? || PassedBefore(hash, log, j, key, w - 1))
  }

  /** The node is outside the plan, nothing planned and Ready was pending, and the final gate passed. */
  ghost predicate AdoptionAllowed(hash: Hasher, log: seq<Event>, j: int, key: PlanKey, n: Name, i: Input)
    requires 0 <= j <= |log|
  {
    && key.waveSize >= 1 && n !in key.nodes && PlanOf(hash, key, i) && ViewOf(hash, i).hash == key.hash
    && EarlierWavesUpdated(key, WaveCount(|key.nodes|, key.waveSize), ViewOf(hash, i))
    && (i.spec.gate.None? || PassedBefore(hash, log, j, key, WaveCount(|key.nodes|, key.waveSize) - 1))
  }

  /** The desired template is another than the spec's, and a rollout that truly completed recorded it before. */
  ghost predicate RollbackAllowed(hash: Hasher, log: seq<Event>, j: int, h: string, i: Input)
    requires 0 <= j <= |log|
  {
    ViewOf(hash, i).hash == h && h != CurrentHash(hash, i.spec) && CompletedBefore(hash, log, j, h)
  }

  lemma PassedBeforeFromLog(hash: Hasher, log: seq<Event>, j: int, key: PlanKey, wave: int)
    requires LogOk(hash, log) && 0 <= j <= |log| && HasPassFrom(log[..j], key, wave)
    ensures PassedBefore(hash, log, j, key, wave)
  {
    var e :| e in log[..j] && e.GatePassed? && e.key == key && e.wave >= wave;
    var i :| 0 <= i < j && log[..j][i] == e;
    assert log[i] == e && EventOk(hash, log[..i], log[i]);
    assert TrueGatePass(hash, log[i], key, wave);
  }

  lemma CompletedBeforeFromLog(hash: Hasher, log: seq<Event>, j: int, h: string)
    requires LogOk(hash, log) && 0 <= j <= |log| && HasCompleted(log[..j], h)
    ensures CompletedBefore(hash, log, j, h)
  {
    var c :| c in log[..j] && c.Completed? && c.key.hash == h;
    var k :| 0 <= k < j && log[..j][k] == c;
    assert log[k] == c && EventOk(hash, log[..k], log[k]);
    if c.gated {
      PassedBeforeFromLog(hash, log, k, c.key, WaveCount(|c.key.nodes|, c.key.waveSize) - 1);
    }
    assert TrueCompletion(hash, log, k, h);
  }

  /** What the history justified is allowed. */
  lemma JustifiedIsAllowed(hash: Hasher, log: seq<Event>, j: int, why: Why, n: Name, i: Input)
    requires LogOk(hash, log) && 0 <= j <= |log| && Justified(hash, log[..j], why, i)
    ensures why.InWave? && InWaveOf(why.key, why.wave, n) ==> WaveAllowed(hash, log, j, why.key, why.wave, n, i)
    ensures why.Adoption? && n !in why.key.nodes ==> AdoptionAllowed(hash, log, j, why.key, n, i)
    ensures why.RollbackTo? ==> RollbackAllowed(hash, log, j, why.hash, i)
  {
    match why {
      case InWave(key, w) =>
        if i.spec.gate.Some? && w > 0 {
          PassedBeforeFromLog(hash, log, j, key, w - 1);
        }
      case Adoption(key) =>
        if i.spec.gate.Some? {
          PassedBeforeFromLog(hash, log, j, key, WaveCount(|key.nodes|, key.waveSize) - 1);
        }
      case RollbackTo(h) =>
        CompletedBeforeFromLog(hash, log, j, h);
      case _ =>
    }
  }

  /**
    * The three reasons a pod may be released: in its wave, by adoption, or going back. The pod is as the
    * pass observed it: a release never overwrites a change made in between.
    */
  ghost predicate ReleaseAllowed(hash: Hasher, log: seq<Event>, j: int, e: Event)
    requires 0 <= j <= |log| && e.Released?
  {
    && e.node in e.input.ready && PodHash(e.pod) == ViewOf(hash, e.input).hash
    && e.node in e.input.pods && e.pod == e.input.pods[e.node]
    && match e.why
       case InWave(key, w) => WaveAllowed(hash, log, j, key, w, e.node, e.input)
       case Adoption(key) => AdoptionAllowed(hash, log, j, key, e.node, e.input)
       case RollbackTo(h) => RollbackAllowed(hash, log, j, h, e.input)
       case _ => false
  }

  lemma ReleaseSafety(hash: Hasher, ws: seq<World>, ls: seq<Label>, k: nat, j: nat)
    requires IsRun(hash, ws, ls) && Initial(ws[0]) && k < |ws|
    requires j < |ws[k].log| && ws[k].log[j].Released?
    ensures ReleaseAllowed(hash, ws[k].log, j, ws[k].log[j])
  {
    RunKeepsInv(hash, ws, ls, k);
    var log := ws[k].log;
    var e := log[j];
    assert EventOk(hash, log[..j], e);
    JustifiedIsAllowed(hash, log, j, e.why, e.node, e.input);
  }

  /**
    * What may be removed: only pods of another template than the desired one; a pod removed because it
    * is still gated runs nothing; any other removal is on a Ready node, for the reasons of a release.
    */
  ghost predicate RemovalAllowed(hash: Hasher, log: seq<Event>, j: int, e: Event)
    requires 0 <= j <= |log| && e.Removed?
  {
    && PodHash(e.pod) != ViewOf(hash, e.input).hash
    && e.node in e.input.pods && e.pod.uid == e.input.pods[e.node].uid
    && match e.why
       case RuleA => !Scheduled(e.pod)
       case InWave(key, w) => e.node in e.input.ready && WaveAllowed(hash, log, j, key, w, e.node, e.input)
       case RollbackTo(h) => e.node in e.input.ready && RollbackAllowed(hash, log, j, h, e.input)
       case _ => false
  }

  lemma RemovalSafety(hash: Hasher, ws: seq<World>, ls: seq<Label>, k: nat, j: nat)
    requires IsRun(hash, ws, ls) && Initial(ws[0]) && k < |ws|
    requires j < |ws[k].log| && ws[k].log[j].Removed?
    ensures RemovalAllowed(hash, ws[k].log, j, ws[k].log[j])
  {
    RunKeepsInv(hash, ws, ls, k);
    var log := ws[k].log;
    var e := log[j];
    assert EventOk(hash, log[..j], e);
    JustifiedIsAllowed(hash, log, j, e.why, e.node, e.input);
  }

  // ---- Nothing runs unreleased ----

  /** The same pod, stamped from the same template. */
  predicate SameIdentity(p: Pod, q: Pod) {
    p.uid == q.uid && p.template == q.template
  }

  predicate HasRelease(log: seq<Event>, n: Name, p: Pod) {
    exists e :: e in log && e.Released? && e.node == n && SameIdentity(e.pod, p)
  }

  ghost predicate GatedOrReleased(w: World) {
    forall n :: n in w.pods ==> PodGated(w.pods[n]) || HasRelease(w.log, n, w.pods[n])
  }

  lemma LogGrows(hash: Hasher, w: World, l: Label)
    requires Enabled(w, l)
    ensures w.log <= Next(hash, w, l).log
  {
  }

  lemma PrefixGrows(log: seq<Event>, log': seq<Event>)
    requires log <= log'
    ensures Grows(log, log')
  {
    assert forall e :: e in log ==> e in log'[..|log|];
  }

  lemma CreateIsGated(hash: Hasher, w: World, l: Label)
    requires Inv(hash, w) && Enabled(w, l) && l.Create?
    ensures PodGated(Next(hash, w, l).pods[l.node])
  {
    var t := w.ds.value;
    assert t.gates == [WAVE_GATE];
    assert (l.before + t.gates + l.after)[|l.before|] == WAVE_GATE;
  }

  /** Every pod either is new and gated, or was there before, gated then only if it still is. */
  ghost predicate KeepsGates(w: World, w': World) {
    forall n :: n in w'.pods ==>
      PodGated(w'.pods[n])
      || (n in w.pods && SameIdentity(w.pods[n], w'.pods[n]) && !PodGated(w.pods[n]))
      || HasRelease(w'.log, n, w'.pods[n])
  }

  lemma KeepsGatesKeeps(w: World, w': World)
    requires GatedOrReleased(w) && KeepsGates(w, w') && Grows(w.log, w'.log)
    ensures GatedOrReleased(w')
  {
  }

  lemma UngateKeepsGates(hash: Hasher, w: World, n: Name)
    requires Enabled(w, WriteUngate(n))
    ensures KeepsGates(w, Next(hash, w, WriteUngate(n)))
  {
    var w' := Next(hash, w, WriteUngate(n));
    if w'.pods != w.pods {
      var e := w'.log[|w.log|];
      assert e in w'.log && e.Released? && e.node == n && SameIdentity(e.pod, w'.pods[n]);
      assert HasRelease(w'.log, n, w'.pods[n]);
    }
  }

  lemma CreateKeepsGates(hash: Hasher, w: World, l: Label)
    requires Inv(hash, w) && Enabled(w, l) && l.Create?
    ensures KeepsGates(w, Next(hash, w, l))
  {
    CreateIsGated(hash, w, l);
  }

  lemma OtherStepKeepsGates(hash: Hasher, w: World, l: Label)
    requires Enabled(w, l) && !l.WriteUngate? && !l.Create?
    ensures KeepsGates(w, Next(hash, w, l))
  {
  }

  lemma StepKeepsGatedOrReleased(hash: Hasher, w: World, l: Label)
    requires Inv(hash, w) && Enabled(w, l) && GatedOrReleased(w)
    ensures GatedOrReleased(Next(hash, w, l))
  {
    LogGrows(hash, w, l);
    PrefixGrows(w.log, Next(hash, w, l).log);
    if l.WriteUngate? {
      UngateKeepsGates(hash, w, l.node);
    } else if l.Create? {
      CreateKeepsGates(hash, w, l);
    } else {
      OtherStepKeepsGates(hash, w, l);
    }
    KeepsGatesKeeps(w, Next(hash, w, l));
  }

  lemma {:induction false} RunKeepsGatedOrReleased(hash: Hasher, ws: seq<World>, ls: seq<Label>, k: nat)
    requires IsRun(hash, ws, ls) && Initial(ws[0]) && k < |ws|
    ensures GatedOrReleased(ws[k])
  {
    if k > 0 {
      RunKeepsGatedOrReleased(hash, ws, ls, k - 1);
      RunKeepsInv(hash, ws, ls, k - 1);
      assert Stepped(hash, ws, ls, k - 1);
      StepKeepsGatedOrReleased(hash, ws[k - 1], ls[k - 1]);
    }
  }

  /**
    * Waves cannot be bypassed, not on first deploy, not by a node that joins, not across crashes: a pod
    * bound to a node was released by the controller for an allowed reason, and it runs the template its
    * label names.
    */
  lemma EveryRunningPodWasReleased(hash: Hasher, ws: seq<World>, ls: seq<Label>, k: nat, n: Name)
    requires IsRun(hash, ws, ls) && Initial(ws[0]) && k < |ws|
    requires n in ws[k].pods && Scheduled(ws[k].pods[n])
    ensures exists j :: 0 <= j < |ws[k].log| && ws[k].log[j].Released? && ws[k].log[j].node == n
                        && SameIdentity(ws[k].log[j].pod, ws[k].pods[n])
                        && ReleaseAllowed(hash, ws[k].log, j, ws[k].log[j])
    ensures var p := ws[k].pods[n];
            exists base :: RenderedFrom(p.template, base, hash(base)) && PodHash(p) == hash(base)
  {
    RunKeepsInv(hash, ws, ls, k);
    RunKeepsGatedOrReleased(hash, ws, ls, k);
    var j := ReleaseOfScheduled(hash, ws[k], n);
    ReleaseSafety(hash, ws, ls, k, j);
    var base :| RenderedFrom(ws[k].pods[n].template, base, hash(base));
    assert PodHash(ws[k].pods[n]) == hash(base);
  }

  lemma ReleaseOfScheduled(hash: Hasher, w: World, n: Name) returns (j: nat)
    requires PodsGood(hash, w.pods, w.nextUid) && GatedOrReleased(w) && n in w.pods && Scheduled(w.pods[n])
    ensures j < |w.log| && w.log[j].Released? && w.log[j].node == n && SameIdentity(w.log[j].pod, w.pods[n])
    ensures RenderedOfSomeBase(hash, w.pods[n].template)
  {
    assert w.pods[n].gates == [];
    var e :| e in w.log && e.Released? && e.node == n && SameIdentity(e.pod, w.pods[n]);
    j :| 0 <= j < |w.log| && w.log[j] == e;
  }
}
