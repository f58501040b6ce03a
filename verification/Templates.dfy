/** internal/controller/template.go */
module Templates {
  import opened Prelude
  import opened Api

  /** The user's template, or the one-container expansion of spec.image. */
  function RenderBaseTemplate(spec: Spec): Template {
    match spec.template
    case Some(t) => t
    case None => Template(map[], map[], [], [Container(AGENT_CONTAINER, spec.image)], 0)
  }

  function CurrentHash(hash: Hasher, spec: Spec): string {
    hash(RenderBaseTemplate(spec))
  }

  function TemplateImage(spec: Spec, base: Template): string {
    if spec.image != "" then spec.image
    else if |base.containers| > 0 then base.containers[0].image
    else ""
  }

  /** What the spec asks for: the user's template, or one container with the user's image and nothing else. */
  ghost predicate AsksFor(spec: Spec, t: Template) {
    && (spec.template.Some? ==> t == spec.template.value)
    && (spec.template.None? ==>
          && |t.containers| == 1 && t.containers[0].name == "agent" && t.containers[0].image == spec.image
          && t.labels == map[] && t.nodeSelector == map[] && t.gates == [] && t.rest == 0)
  }

  /** The DaemonSet runs that: its containers, its other fields and its labels, and the hash of all of it. */
  ghost predicate Deploys(ds: Template, t: Template, h: string, spec: Spec) {
    && ds.containers == t.containers && ds.rest == t.rest
    && ds.nodeSelector == spec.matchLabels && ds.gates == [WAVE_GATE]
    && HASH_LABEL in ds.labels && ds.labels[HASH_LABEL] == h
    && OWNER_LABEL in ds.labels && ds.labels[OWNER_LABEL] == spec.name
    && forall k :: k != HASH_LABEL && k != OWNER_LABEL ==>
         (k in ds.labels <==> k in t.labels) && (k in t.labels ==> ds.labels[k] == t.labels[k])
  }

  /** Every spec asks for exactly one template, and its hash is the one the controller compares. */
  lemma TheSpecsTemplate(hash: Hasher, spec: Spec)
    ensures AsksFor(spec, RenderBaseTemplate(spec))
    ensures forall t :: AsksFor(spec, t) ==> t == RenderBaseTemplate(spec) && CurrentHash(hash, spec) == hash(t)
  {
    forall t | AsksFor(spec, t) ensures t == RenderBaseTemplate(spec) {
      if spec.template.None? {
        assert t.containers == [t.containers[0]];
      }
    }
  }

  /** The image shown is spec.image, else that of the first container, else none. */
  lemma ImageShown(spec: Spec, t: Template)
    ensures spec.image != "" ==> TemplateImage(spec, t) == spec.image
    ensures spec.image == "" && t.containers != [] ==> TemplateImage(spec, t) == t.containers[0].image
    ensures spec.image == "" && t.containers == [] ==> TemplateImage(spec, t) == ""
  {
  }

  /** What a rendered DaemonSet template must be, field by field. */
  ghost predicate RenderedFrom(t: Template, base: Template, hash: string) {
    && t.gates == [WAVE_GATE]
    && HASH_LABEL in t.labels && t.labels[HASH_LABEL] == hash
    && OWNER_LABEL in t.labels
    && t.containers == base.containers && t.rest == base.rest
    && forall k :: k != HASH_LABEL && k != OWNER_LABEL ==>
         (k in t.labels <==> k in base.labels) && (k in base.labels ==> t.labels[k] == base.labels[k])
  }

  function RenderedTemplate(base: Template, hash: string, spec: Spec): (t: Template)
    ensures RenderedFrom(t, base, hash)
    ensures t.labels[OWNER_LABEL] == spec.name && t.nodeSelector == spec.matchLabels
    ensures Deploys(t, base, hash, spec)
  {
    Template(base.labels[OWNER_LABEL := spec.name][HASH_LABEL := hash],
             spec.matchLabels, [WAVE_GATE], base.containers, base.rest)
  }

  method RenderDSTemplate(base: Template, hash: string, spec: Spec) returns (t: Template)
    ensures t == RenderedTemplate(base, hash, spec)
  {
    t := base;
    t := t.(labels := t.labels[OWNER_LABEL := spec.name]);
    t := t.(labels := t.labels[HASH_LABEL := hash]);
    t := t.(nodeSelector := spec.matchLabels);
    t := t.(gates := [WAVE_GATE]);
  }

  /** The pod the DaemonSet controller creates for a node; admission may add gates around its own. */
  function NewPod(t: Template, n: Name, uid: nat, before: seq<string>, after: seq<string>): Pod {
    Pod(uid, t, "", NodeAffinity(n), before + t.gates + after, false, false)
  }

  /** Every created pod is gated, unscheduled, aimed at its node and labelled with the hash of what it runs. */
  lemma PodsAreBornGated(hash: Hasher, base: Template, spec: Spec, n: Name, uid: nat,
                         before: seq<string>, after: seq<string>)
    ensures var p := NewPod(RenderedTemplate(base, hash(base), spec), n, uid, before, after);
            && PodGatedOn(p, hash(base)) && !Scheduled(p) && PodTargetNode(p) == n
            && p.template.containers == base.containers && p.template.rest == base.rest
  {
    var t := RenderedTemplate(base, hash(base), spec);
    var p := NewPod(t, n, uid, before, after);
    assert p.gates[|before|] == WAVE_GATE;
    BornAtTarget(t, n, uid, before, after);
  }

  lemma BornAtTarget(t: Template, n: Name, uid: nat, before: seq<string>, after: seq<string>)
    ensures PodTargetNode(NewPod(t, n, uid, before, after)) == n
  {
    assert TargetOfFields(NodeAffinity(n)[0]) == Some(n);
  }
}
