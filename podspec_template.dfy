/**
 The pod-template builder. A `Modification` is one of the closures the builder hands
 out; each, when run, edits one field or list of a pod template in place. `New` runs a
 list of them, in order, on a zero template; `Apply` bundles a list of them into one.

 The closures are described by the `Modification` datatype (what each one captured),
 specified by the pure function `Step`, and carried out in place by the methods of the
 class `PodTemplateSpec`, each proved to leave the template equal to what `Step` says.
 Every place where the Go closure would crash (nil dereference, index out of range) is
 a precondition: `CanStep`.
 */
module PodSpecTemplate {
  import opened KubeTypes

  /** The sentinel the name lookup returns when no container has the name. */
  const NotFound: int := -1

  /** A caller-supplied container editor (Go: `func(*corev1.Container)`). */
  type Editor = Container -> Container

  /**
   What each builder function captures in the closure it returns. Only this
   package's builders are here; modifications written by callers are not.
   */
  datatype Modification =
    | Noop
    | Apply(mods: seq<Modification>)
    | WithContainer(name: string, edit: Editor)
    | WithContainerByIndex(index: int, edits: seq<Editor>)
    | WithInitContainer(name: string, edit: Editor)
    | WithInitContainerByIndex(index: int, edits: seq<Editor>)
    | WithPodLabels(labels: Option<StringMap>)
    | WithServiceAccount(serviceAccountName: string)
    | WithVolume(volume: Volume)
    | WithTerminationGracePeriodSeconds(seconds: int)
    | WithFsGroup(fsGroup: int)
    | WithImagePullSecrets(secretName: string)
    | WithTopologyKey(topologyKey: string, index: int)
    | WithAffinity(stsName: string, antiAffinityLabelKey: string, weight: int)
    | WithNodeAffinity(nodeAffinity: Option<NodeAffinity>)
    | WithPodAffinity(podAffinity: Option<PodAffinity>)
    | WithTolerations(tolerations: seq<Toleration>)
    | WithAnnotations(annotations: Option<StringMap>)

  // ---------------------------------------------------------------------------
  // Specification functions
  // ---------------------------------------------------------------------------

  /** Position of the first container called `name`, or `NotFound`. */
  function IndexOfName(containers: seq<Container>, name: string): (idx: int)
    ensures idx == NotFound || 0 <= idx < |containers|
    ensures idx == NotFound <==> forall j :: 0 <= j < |containers| ==> containers[j].name != name
    ensures idx != NotFound ==> containers[idx].name == name
    ensures forall j :: 0 <= j < idx ==> containers[j].name != name
    decreases |containers|
  {
    if containers == [] then NotFound
    else if containers[0].name == name then 0
    else
      var rest := IndexOfName(containers[1..], name);
      if rest == NotFound then NotFound else rest + 1
  }

  /**
   By-name upsert: the first container called `name` is passed through `edit`; when
   there is none, an empty container is appended and that one is passed through `edit`.
   */
  function Upsert(containers: seq<Container>, name: string, edit: Editor): seq<Container>
  {
    var idx := IndexOfName(containers, name);
    if idx == NotFound then containers + [edit(EmptyContainer())]
    else containers[idx := edit(containers[idx])]
  }

  /** `c` passed through every editor of `edits`, first to last. */
  function ApplyEdits(c: Container, edits: seq<Editor>): Container
    decreases |edits|
  {
    if edits == [] then c else edits[|edits| - 1](ApplyEdits(c, edits[..|edits| - 1]))
  }

  /** The by-index edit does not crash: `index` is valid once the list has (maybe) grown by one. */
  predicate CanGrowAndEdit(containers: seq<Container>, grow: bool, index: int)
  {
    0 <= index < |containers| + (if grow then 1 else 0)
  }

  /**
   By-index edit: when `grow` holds, an empty container is appended first; then the
   container at `index` is passed through `edits`, in order.
   */
  function GrowAndEdit(containers: seq<Container>, grow: bool, index: int, edits: seq<Editor>): seq<Container>
    requires CanGrowAndEdit(containers, grow, index)
  {
    var grown := if grow then containers + [EmptyContainer()] else containers;
    grown[index := ApplyEdits(grown[index], edits)]
  }

  predicate HasVolumeNamed(volumes: seq<Volume>, name: string)
  {
    exists j :: 0 <= j < |volumes| && volumes[j].name == name
  }

  /** First write wins: a volume is appended only if no volume has its name yet. */
  function AddVolume(volumes: seq<Volume>, volume: Volume): seq<Volume>
  {
    if HasVolumeNamed(volumes, volume.name) then volumes else volumes + [volume]
  }

  /** The security context `WithFsGroup` installs: the group and nothing else. */
  function FsGroupOnly(fsGroup: int): PodSecurityContext
  {
    PodSecurityContext(Some(fsGroup), None, None)
  }

  /**
   The affinity `WithAffinity` installs: one preferred anti-affinity term with the given
   weight, selecting pods labelled `labelKey: stsName`, with an empty topology key.
   */
  function AntiAffinity(stsName: string, labelKey: string, weight: int): Affinity
  {
    var term := PodAffinityTerm(Some(LabelSelector(map[labelKey := stsName])), "");
    Affinity(None, None, Some(PodAntiAffinity([], [WeightedPodAffinityTerm(weight, term)])))
  }

  /** The affinity exists, has an anti-affinity, and that has a preferred term at `index`. */
  predicate HasPreferredTerm(affinity: Option<Affinity>, index: int)
  {
    && affinity.Some?
    && affinity.value.podAntiAffinity.Some?
    && 0 <= index < |affinity.value.podAntiAffinity.value.preferred|
  }

  /** `affinity` with the topology key of preferred anti-affinity term `index` replaced. */
  function SetTopologyKey(affinity: Affinity, topologyKey: string, index: int): Affinity
    requires HasPreferredTerm(Some(affinity), index)
  {
    var anti := affinity.podAntiAffinity.value;
    var term := anti.preferred[index];
    var term' := term.(podAffinityTerm := term.podAffinityTerm.(topologyKey := topologyKey));
    affinity.(podAntiAffinity := Some(anti.(preferred := anti.preferred[index := term'])))
  }

  /** Running `m` on `t` does not crash. */
  predicate CanStep(t: PodTemplate, m: Modification)
    decreases m, 0
  {
    match m
    case Apply(mods) => CanRunAll(t, mods)
    case WithContainerByIndex(index, _) =>
      CanGrowAndEdit(t.containers, index >= |t.containers|, index)
    case WithInitContainerByIndex(index, _) =>
      CanGrowAndEdit(t.initContainers, index >= |t.containers|, index)
    case WithTopologyKey(_, index) => HasPreferredTerm(t.affinity, index)
    case WithNodeAffinity(_) => t.affinity.Some?
    case WithPodAffinity(_) => t.affinity.Some?
    case _ => true
  }

  /** Running `mods` on `t`, first to last, does not crash. */
  predicate CanRunAll(t: PodTemplate, mods: seq<Modification>)
    decreases mods, 0
  {
    mods == [] || (CanStep(t, mods[0]) && CanRunAll(Step(t, mods[0]), mods[1..]))
  }

  /** The template after running `m` on `t`. */
  function Step(t: PodTemplate, m: Modification): PodTemplate
    requires CanStep(t, m)
    decreases m, 1
  {
    match m
    case Noop => t
    case Apply(mods) => RunAll(t, mods)
    case WithContainer(name, edit) =>
      t.(containers := Upsert(t.containers, name, edit))
    case WithContainerByIndex(index, edits) =>
      t.(containers := GrowAndEdit(t.containers, index >= |t.containers|, index, edits))
    case WithInitContainer(name, edit) =>
      t.(initContainers := Upsert(t.initContainers, name, edit))
    case WithInitContainerByIndex(index, edits) =>
      // the decision to grow looks at `containers`, not `initContainers`
      t.(initContainers := GrowAndEdit(t.initContainers, index >= |t.containers|, index, edits))
    case WithPodLabels(labels) => t.(labels := Some(labels.GetOr(map[])))
    case WithServiceAccount(name) => t.(serviceAccountName := name)
    case WithVolume(volume) => t.(volumes := AddVolume(t.volumes, volume))
    case WithTerminationGracePeriodSeconds(seconds) =>
      t.(terminationGracePeriodSeconds := Some(seconds))
    case WithFsGroup(fsGroup) => t.(securityContext := Some(FsGroupOnly(fsGroup)))
    case WithImagePullSecrets(name) =>
      t.(imagePullSecrets := t.imagePullSecrets + [LocalObjectReference(name)])
    case WithTopologyKey(topologyKey, index) =>
      t.(affinity := Some(SetTopologyKey(t.affinity.value, topologyKey, index)))
    case WithAffinity(stsName, labelKey, weight) =>
      t.(affinity := Some(AntiAffinity(stsName, labelKey, weight)))
    case WithNodeAffinity(nodeAffinity) =>
      t.(affinity := Some(t.affinity.value.(nodeAffinity := nodeAffinity)))
    case WithPodAffinity(podAffinity) =>
      t.(affinity := Some(t.affinity.value.(podAffinity := podAffinity)))
    case WithTolerations(tolerations) => t.(tolerations := tolerations)
    case WithAnnotations(annotations) => t.(annotations := Some(annotations.GetOr(map[])))
  }

  /** The template after running `mods` on `t`, first to last. */
  function RunAll(t: PodTemplate, mods: seq<Modification>): PodTemplate
    requires CanRunAll(t, mods)
    decreases mods, 1
  {
    if mods == [] then t else RunAll(Step(t, mods[0]), mods[1..])
  }

  // ---------------------------------------------------------------------------
  // The builder, in place
  // ---------------------------------------------------------------------------

  /** Name lookup over a container list: a forward scan that stops at the first match. */
  method FindIndexByName(name: string, containers: seq<Container>) returns (idx: int)
    ensures idx == IndexOfName(containers, name)
  {
    idx := 0;
    while idx < |containers|
      invariant 0 <= idx <= |containers|
      invariant forall j :: 0 <= j < idx ==> containers[j].name != name
    {
      if containers[idx].name == name {
        return;
      }
      idx := idx + 1;
    }
    idx := NotFound;
  }

  /** A pod template under construction; each method is the body of one closure. */
  class PodTemplateSpec {
    var labels: Option<StringMap>
    var annotations: Option<StringMap>
    var containers: seq<Container>
    var initContainers: seq<Container>
    var serviceAccountName: string
    var volumes: seq<Volume>
    var terminationGracePeriodSeconds: Option<int>
    var securityContext: Option<PodSecurityContext>
    var imagePullSecrets: seq<LocalObjectReference>
    var affinity: Option<Affinity>
    var tolerations: seq<Toleration>

    /** The template's current value. */
    function Value(): PodTemplate
      reads this
    {
      PodTemplate(labels, annotations, containers, initContainers, serviceAccountName, volumes,
                  terminationGracePeriodSeconds, securityContext, imagePullSecrets, affinity, tolerations)
    }

    /** `corev1.PodTemplateSpec{}`. */
    constructor ()
      ensures Value() == Zero()
    {
      labels, annotations := None, None;
      containers, initContainers := [], [];
      serviceAccountName := "";
      volumes := [];
      terminationGracePeriodSeconds, securityContext := None, None;
      imagePullSecrets := [];
      affinity := None;
      tolerations := [];
    }

    method WithContainer(name: string, edit: Editor)
      modifies this
      ensures Value() == old(Value()).(containers := Upsert(old(containers), name, edit))
    {
      var idx := FindIndexByName(name, containers);
      if idx == NotFound {
        containers := containers + [EmptyContainer()];
        idx := |containers| - 1;
      }
      containers := containers[idx := edit(containers[idx])];
    }

    method WithContainerByIndex(index: int, edits: seq<Editor>)
      requires CanGrowAndEdit(containers, index >= |containers|, index)
      modifies this
      ensures Value() == old(Value()).(containers :=
                GrowAndEdit(old(containers), index >= |old(containers)|, index, edits))
    {
      if index >= |containers| {
        containers := containers + [EmptyContainer()];
      }
      ghost var grown := containers;
      var i := 0;
      while i < |edits|
        invariant 0 <= i <= |edits|
        invariant containers == grown[index := ApplyEdits(grown[index], edits[..i])]
        invariant Value() == old(Value()).(containers := containers)
      {
        assert edits[..i + 1][..i] == edits[..i];
        containers := containers[index := edits[i](containers[index])];
        i := i + 1;
      }
      assert edits[..i] == edits;
    }

    method WithInitContainer(name: string, edit: Editor)
      modifies this
      ensures Value() == old(Value()).(initContainers := Upsert(old(initContainers), name, edit))
    {
      var idx := FindIndexByName(name, initContainers);
      if idx == NotFound {
        initContainers := initContainers + [EmptyContainer()];
        idx := |initContainers| - 1;
      }
      initContainers := initContainers[idx := edit(initContainers[idx])];
    }

    /** Grows `initContainers` when `index` is at or past the end of `containers` (sic). */
    method WithInitContainerByIndex(index: int, edits: seq<Editor>)
      requires CanGrowAndEdit(initContainers, index >= |containers|, index)
      modifies this
      ensures Value() == old(Value()).(initContainers :=
                GrowAndEdit(old(initContainers), index >= |old(containers)|, index, edits))
    {
      if index >= |containers| {
        initContainers := initContainers + [EmptyContainer()];
      }
      ghost var grown := initContainers;
      var i := 0;
      while i < |edits|
        invariant 0 <= i <= |edits|
        invariant initContainers == grown[index := ApplyEdits(grown[index], edits[..i])]
        invariant Value() == old(Value()).(initContainers := initContainers)
      {
        assert edits[..i + 1][..i] == edits[..i];
        initContainers := initContainers[index := edits[i](initContainers[index])];
        i := i + 1;
      }
      assert edits[..i] == edits;
    }

    method WithPodLabels(newLabels: Option<StringMap>)
      modifies this
      ensures Value() == old(Value()).(labels := Some(newLabels.GetOr(map[])))
    {
      labels := Some(if newLabels.None? then map[] else newLabels.value);
    }

    method WithServiceAccount(name: string)
      modifies this
      ensures Value() == old(Value()).(serviceAccountName := name)
    {
      serviceAccountName := name;
    }

    method WithVolume(volume: Volume)
      modifies this
      ensures Value() == old(Value()).(volumes := AddVolume(old(volumes), volume))
    {
      var i := 0;
      while i < |volumes|
        invariant 0 <= i <= |volumes|
        invariant Value() == old(Value())
        invariant forall j :: 0 <= j < i ==> volumes[j].name != volume.name
      {
        if volumes[i].name == volume.name {
          return;
        }
        i := i + 1;
      }
      volumes := volumes + [volume];
    }

    method WithTerminationGracePeriodSeconds(seconds: int)
      modifies this
      ensures Value() == old(Value()).(terminationGracePeriodSeconds := Some(seconds))
    {
      terminationGracePeriodSeconds := Some(seconds);
    }

    method WithFsGroup(fsGroup: int)
      modifies this
      ensures Value() == old(Value()).(securityContext := Some(FsGroupOnly(fsGroup)))
    {
      securityContext := Some(PodSecurityContext(Some(fsGroup), None, None));
    }

    method WithImagePullSecrets(name: string)
      modifies this
      ensures Value() == old(Value()).(imagePullSecrets := old(imagePullSecrets) + [LocalObjectReference(name)])
    {
      imagePullSecrets := imagePullSecrets + [LocalObjectReference(name)];
    }

    method WithTopologyKey(topologyKey: string, index: int)
      requires HasPreferredTerm(affinity, index)
      modifies this
      ensures Value() == old(Value()).(affinity := Some(SetTopologyKey(old(affinity).value, topologyKey, index)))
    {
      var anti := affinity.value.podAntiAffinity.value;
      var term := anti.preferred[index];
      term := term.(podAffinityTerm := term.podAffinityTerm.(topologyKey := topologyKey));
      anti := anti.(preferred := anti.preferred[index := term]);
      affinity := Some(affinity.value.(podAntiAffinity := Some(anti)));
    }

    method WithAffinity(stsName: string, antiAffinityLabelKey: string, weight: int)
      modifies this
      ensures Value() == old(Value()).(affinity := Some(AntiAffinity(stsName, antiAffinityLabelKey, weight)))
    {
      var selector := LabelSelector(map[antiAffinityLabelKey := stsName]);
      var term := WeightedPodAffinityTerm(weight, PodAffinityTerm(Some(selector), ""));
      affinity := Some(Affinity(None, None, Some(PodAntiAffinity([], [term]))));
    }

    method WithNodeAffinity(nodeAffinity: Option<NodeAffinity>)
      requires affinity.Some?
      modifies this
      ensures Value() == old(Value()).(affinity := Some(old(affinity).value.(nodeAffinity := nodeAffinity)))
    {
      affinity := Some(affinity.value.(nodeAffinity := nodeAffinity));
    }

    method WithPodAffinity(podAffinity: Option<PodAffinity>)
      requires affinity.Some?
      modifies this
      ensures Value() == old(Value()).(affinity := Some(old(affinity).value.(podAffinity := podAffinity)))
    {
      affinity := Some(affinity.value.(podAffinity := podAffinity));
    }

    method WithTolerations(newTolerations: seq<Toleration>)
      modifies this
      ensures Value() == old(Value()).(tolerations := newTolerations)
    {
      tolerations := newTolerations;
    }

    method WithAnnotations(newAnnotations: Option<StringMap>)
      modifies this
      ensures Value() == old(Value()).(annotations := Some(newAnnotations.GetOr(map[])))
    {
      annotations := Some(if newAnnotations.None? then map[] else newAnnotations.value);
    }

    /** Runs the closure `m` describes; `Apply` runs its list first to last. */
    method Run(m: Modification)
      requires CanStep(Value(), m)
      modifies this
      ensures Value() == Step(old(Value()), m)
      decreases m
    {
      match m
      case Noop =>
      case Apply(mods) =>
        var i := 0;
        while i < |mods|
          invariant 0 <= i <= |mods|
          invariant CanRunAll(Value(), mods[i..])
          invariant RunAll(Value(), mods[i..]) == RunAll(old(Value()), mods)
        {
          assert mods[i..][1..] == mods[i + 1..];
          Run(mods[i]);
          i := i + 1;
        }
      case WithContainer(name, edit) => this.WithContainer(name, edit);
      case WithContainerByIndex(index, edits) => this.WithContainerByIndex(index, edits);
      case WithInitContainer(name, edit) => this.WithInitContainer(name, edit);
      case WithInitContainerByIndex(index, edits) => this.WithInitContainerByIndex(index, edits);
      case WithPodLabels(l) => this.WithPodLabels(l);
      case WithServiceAccount(name) => this.WithServiceAccount(name);
      case WithVolume(volume) => this.WithVolume(volume);
      case WithTerminationGracePeriodSeconds(seconds) => this.WithTerminationGracePeriodSeconds(seconds);
      case WithFsGroup(fsGroup) => this.WithFsGroup(fsGroup);
      case WithImagePullSecrets(name) => this.WithImagePullSecrets(name);
      case WithTopologyKey(topologyKey, index) => this.WithTopologyKey(topologyKey, index);
      case WithAffinity(stsName, labelKey, weight) => this.WithAffinity(stsName, labelKey, weight);
      case WithNodeAffinity(nodeAffinity) => this.WithNodeAffinity(nodeAffinity);
      case WithPodAffinity(podAffinity) => this.WithPodAffinity(podAffinity);
      case WithTolerations(ts) => this.WithTolerations(ts);
      case WithAnnotations(a) => this.WithAnnotations(a);
    }
  }

  /** A zero template with every modification of `mods` run on it, first to last. */
  method New(mods: seq<Modification>) returns (template: PodTemplateSpec)
    requires CanRunAll(Zero(), mods)
    ensures fresh(template)
    ensures template.Value() == RunAll(Zero(), mods)
  {
    template := new PodTemplateSpec();
    var i := 0;
    while i < |mods|
      invariant 0 <= i <= |mods|
      invariant fresh(template)
      invariant CanRunAll(template.Value(), mods[i..])
      invariant RunAll(template.Value(), mods[i..]) == RunAll(Zero(), mods)
    {
      assert mods[i..][1..] == mods[i + 1..];
      template.Run(mods[i]);
      i := i + 1;
    }
  }
}
