/**
 What the pod-template builder promises, proved about its specification (`Step`,
 `RunAll`). The in-place methods of `PodTemplateSpec` and `New` are proved equal to
 these functions, so every lemma here holds of them as well.
 */
module PodSpecTemplateProperties {
  import opened KubeTypes
  import opened PodSpecTemplate

  // ---------------------------------------------------------------------------
  // Ordered application: New, Apply, NOOP
  // ---------------------------------------------------------------------------

  /** Running `a + b` is running `a`, then `b`; it crashes exactly when one of the two does. */
  lemma {:induction false} RunAllConcat(t: PodTemplate, a: seq<Modification>, b: seq<Modification>)
    ensures CanRunAll(t, a + b) <==> CanRunAll(t, a) && CanRunAll(RunAll(t, a), b)
    ensures CanRunAll(t, a + b) ==> RunAll(t, a + b) == RunAll(RunAll(t, a), b)
    decreases a
  {
    if a == [] {
      assert a + b == b;
    } else {
      assert (a + b)[0] == a[0];
      assert (a + b)[1..] == a[1..] + b;
      if CanStep(t, a[0]) {
        RunAllConcat(Step(t, a[0]), a[1..], b);
      }
    }
  }

  /** A two-element list is one step, then the other. */
  lemma RunAllPair(t: PodTemplate, a: Modification, b: Modification)
    ensures CanRunAll(t, [a, b]) <==> CanStep(t, a) && CanStep(Step(t, a), b)
    ensures CanRunAll(t, [a, b]) ==> RunAll(t, [a, b]) == Step(Step(t, a), b)
  {
    assert [a, b][0] == a && [a, b][1..] == [b];
    if CanStep(t, a) {
      var u := Step(t, a);
      assert [b][0] == b && [b][1..] == [];
      assert CanRunAll(u, [b]) <==> CanStep(u, b);
      if CanStep(u, b) {
        assert RunAll(u, [b]) == RunAll(Step(u, b), []) == Step(u, b);
      }
    }
  }

  /** `Apply(mods)` anywhere in a list behaves as `mods` spliced in at that place. */
  lemma ApplyInlines(t: PodTemplate, pre: seq<Modification>, mods: seq<Modification>, post: seq<Modification>)
    ensures CanRunAll(t, pre + [Apply(mods)] + post) <==> CanRunAll(t, pre + mods + post)
    ensures CanRunAll(t, pre + mods + post) ==>
              RunAll(t, pre + [Apply(mods)] + post) == RunAll(t, pre + mods + post)
  {
    assert pre + [Apply(mods)] + post == pre + ([Apply(mods)] + post);
    assert pre + mods + post == pre + (mods + post);
    RunAllConcat(t, pre, [Apply(mods)] + post);
    RunAllConcat(t, pre, mods + post);
    if CanRunAll(t, pre) {
      var u := RunAll(t, pre);
      assert ([Apply(mods)] + post)[0] == Apply(mods);
      assert ([Apply(mods)] + post)[1..] == post;
      RunAllConcat(u, mods, post);
    }
  }

  /** `New(Apply(a, b))` is `New(a, b)`. */
  lemma NewApplyPair(a: Modification, b: Modification)
    ensures CanRunAll(Zero(), [Apply([a, b])]) <==> CanRunAll(Zero(), [a, b])
    ensures CanRunAll(Zero(), [a, b]) ==> RunAll(Zero(), [Apply([a, b])]) == RunAll(Zero(), [a, b])
  {
    ApplyInlines(Zero(), [], [a, b], []);
    assert [] + [Apply([a, b])] + [] == [Apply([a, b])];
    assert [] + [a, b] + [] == [a, b];
  }

  /** A `Noop` anywhere in a list can be dropped. */
  lemma NoopDrops(t: PodTemplate, pre: seq<Modification>, post: seq<Modification>)
    ensures CanRunAll(t, pre + [Noop] + post) <==> CanRunAll(t, pre + post)
    ensures CanRunAll(t, pre + post) ==> RunAll(t, pre + [Noop] + post) == RunAll(t, pre + post)
  {
    assert pre + [Noop] + post == pre + ([Noop] + post);
    RunAllConcat(t, pre, [Noop] + post);
    RunAllConcat(t, pre, post);
    assert ([Noop] + post)[1..] == post;
  }

  /** Order matters: of two writes to the service account, the later one wins. */
  lemma LaterWriteWins(t: PodTemplate, first: string, second: string)
    ensures CanRunAll(t, [WithServiceAccount(first), WithServiceAccount(second)])
    ensures RunAll(t, [WithServiceAccount(first), WithServiceAccount(second)])
              == t.(serviceAccountName := second)
  {
    RunAllPair(t, WithServiceAccount(first), WithServiceAccount(second));
  }

  /** `New(WithPodLabels(nil), WithServiceAccount("svc"))`: empty labels, the account, the rest zero. */
  lemma NewLabelsAndServiceAccount()
    ensures CanRunAll(Zero(), [WithPodLabels(None), WithServiceAccount("svc")])
    ensures RunAll(Zero(), [WithPodLabels(None), WithServiceAccount("svc")])
              == Zero().(labels := Some(map[]), serviceAccountName := "svc")
  {
    RunAllPair(Zero(), WithPodLabels(None), WithServiceAccount("svc"));
  }

  // ---------------------------------------------------------------------------
  // Containers by name
  // ---------------------------------------------------------------------------

  /**
   By-name upsert on the container list: the first match is edited in place and
   nothing else moves; with no match exactly one edited empty container is appended.
   The init containers and every other field are untouched.
   */
  lemma WithContainerUpserts(t: PodTemplate, name: string, edit: Editor)
    ensures CanStep(t, WithContainer(name, edit))
    ensures Step(t, WithContainer(name, edit)).(containers := t.containers) == t
    ensures var cs, cs' := t.containers, Step(t, WithContainer(name, edit)).containers;
            var i := IndexOfName(cs, name);
            && (i != NotFound ==> |cs'| == |cs| && cs'[i] == edit(cs[i])
                                  && forall j :: 0 <= j < |cs| && j != i ==> cs'[j] == cs[j])
            && (i == NotFound ==> |cs'| == |cs| + 1 && cs'[..|cs|] == cs && cs'[|cs|] == edit(EmptyContainer()))
  {
  }

  /** The same upsert on the init-container list; the containers are untouched. */
  lemma WithInitContainerUpserts(t: PodTemplate, name: string, edit: Editor)
    ensures CanStep(t, WithInitContainer(name, edit))
    ensures Step(t, WithInitContainer(name, edit)).(initContainers := t.initContainers) == t
    ensures var cs, cs' := t.initContainers, Step(t, WithInitContainer(name, edit)).initContainers;
            var i := IndexOfName(cs, name);
            && (i != NotFound ==> |cs'| == |cs| && cs'[i] == edit(cs[i])
                                  && forall j :: 0 <= j < |cs| && j != i ==> cs'[j] == cs[j])
            && (i == NotFound ==> |cs'| == |cs| + 1 && cs'[..|cs|] == cs && cs'[|cs|] == edit(EmptyContainer()))
  {
  }

  /**
   The upsert does not name the container it appends: with an editor that leaves the
   name alone, the appended container is `edit` of the empty container, its name is
   empty, and a non-empty `name` is still not found afterwards.
   */
  lemma UpsertLeavesNewContainerUnnamed(cs: seq<Container>, name: string, edit: Editor)
    requires forall j :: 0 <= j < |cs| ==> cs[j].name != name
    requires forall c :: edit(c).name == c.name
    ensures |Upsert(cs, name, edit)| == |cs| + 1
    ensures Upsert(cs, name, edit)[|cs|] == edit(EmptyContainer())
    ensures Upsert(cs, name, edit)[|cs|].name == ""
    ensures name != "" ==> IndexOfName(Upsert(cs, name, edit), name) == NotFound
  {
    var r := Upsert(cs, name, edit);
    assert r == cs + [edit(EmptyContainer())];
    assert edit(EmptyContainer()).name == EmptyContainer().name;
    assert forall j :: 0 <= j < |r| ==> r[j].name != name || name == "" by {
      forall j | 0 <= j < |r| ensures r[j].name != name || name == "" {
        if j < |cs| { assert r[j] == cs[j]; }
      }
    }
  }

  // ---------------------------------------------------------------------------
  // Containers by index
  // ---------------------------------------------------------------------------

  /** Editing with `f` and then with `g` is editing with `f + g`. */
  lemma {:induction false} ApplyEditsConcat(c: Container, f: seq<Editor>, g: seq<Editor>)
    ensures ApplyEdits(c, f + g) == ApplyEdits(ApplyEdits(c, f), g)
    decreases |g|
  {
    if g == [] {
      assert f + g == f;
    } else {
      var n := |g| - 1;
      assert (f + g)[..|f + g| - 1] == f + g[..n];
      assert (f + g)[|f + g| - 1] == g[n];
      ApplyEditsConcat(c, f, g[..n]);
    }
  }

  /**
   The by-index edit crashes exactly when `index` is negative or more than one past the
   end; at one past the end it appends one container, below that it edits in place.
   */
  lemma WithContainerByIndexEdits(t: PodTemplate, index: int, edits: seq<Editor>)
    ensures CanStep(t, WithContainerByIndex(index, edits)) <==> 0 <= index <= |t.containers|
    ensures 0 <= index <= |t.containers| ==>
      var cs, cs' := t.containers, Step(t, WithContainerByIndex(index, edits)).containers;
      && Step(t, WithContainerByIndex(index, edits)).(containers := cs) == t
      && (index < |cs| ==> |cs'| == |cs| && cs'[index] == ApplyEdits(cs[index], edits)
                           && forall j :: 0 <= j < |cs| && j != index ==> cs'[j] == cs[j])
      && (index == |cs| ==> |cs'| == |cs| + 1 && cs'[..|cs|] == cs
                            && cs'[index] == ApplyEdits(EmptyContainer(), edits))
  {
  }

  /** Passing `f + g` in one by-index edit equals two by-index edits, `f` then `g`. */
  lemma WithContainerByIndexSplits(t: PodTemplate, index: int, f: seq<Editor>, g: seq<Editor>)
    requires 0 <= index <= |t.containers|
    ensures CanRunAll(t, [WithContainerByIndex(index, f), WithContainerByIndex(index, g)])
    ensures RunAll(t, [WithContainerByIndex(index, f), WithContainerByIndex(index, g)])
              == Step(t, WithContainerByIndex(index, f + g))
  {
    RunAllPair(t, WithContainerByIndex(index, f), WithContainerByIndex(index, g));
    var u := Step(t, WithContainerByIndex(index, f));
    assert |u.containers| == |t.containers| + (if index == |t.containers| then 1 else 0);
    ApplyEditsConcat(if index < |t.containers| then t.containers[index] else EmptyContainer(), f, g);
  }

  /**
   Init containers by index decide whether to grow by looking at `containers`: when
   there are more containers than init containers, the index one past the end
   of the init containers crashes instead of appending.
   */
  lemma InitByIndexCrashesAtEnd(t: PodTemplate, edits: seq<Editor>)
    requires |t.initContainers| < |t.containers|
    ensures !CanStep(t, WithInitContainerByIndex(|t.initContainers|, edits))
  {
  }

  /**
   When `index` is at or past the end of `containers` but inside the init containers,
   init containers by index edit the init container at `index` in place and also append
   an empty init container.
   */
  lemma InitByIndexAppendsStray(t: PodTemplate, index: int, edits: seq<Editor>)
    requires |t.containers| <= index < |t.initContainers|
    ensures CanStep(t, WithInitContainerByIndex(index, edits))
    ensures Step(t, WithInitContainerByIndex(index, edits)).initContainers
              == t.initContainers[index := ApplyEdits(t.initContainers[index], edits)] + [EmptyContainer()]
  {
    var ics := t.initContainers;
    var r := Step(t, WithInitContainerByIndex(index, edits)).initContainers;
    assert r == (ics + [EmptyContainer()])[index := ApplyEdits(ics[index], edits)];
    assert (ics + [EmptyContainer()])[index := ApplyEdits(ics[index], edits)]
        == ics[index := ApplyEdits(ics[index], edits)] + [EmptyContainer()];
  }

  /**
   When the two lists have the same length, the init-container edit behaves on the init
   containers as the container edit does on the containers.
   */
  lemma InitByIndexMatchesWhenLengthsAgree(t: PodTemplate, index: int, edits: seq<Editor>)
    requires |t.containers| == |t.initContainers|
    ensures CanStep(t, WithInitContainerByIndex(index, edits)) <==> 0 <= index <= |t.initContainers|
    ensures 0 <= index <= |t.initContainers| ==>
              Step(t, WithInitContainerByIndex(index, edits)).initContainers
                == Step(t.(containers := t.initContainers), WithContainerByIndex(index, edits)).containers
  {
  }

  // ---------------------------------------------------------------------------
  // Volumes
  // ---------------------------------------------------------------------------

  predicate UniqueVolumeNames(volumes: seq<Volume>)
  {
    forall i, j :: 0 <= i < j < |volumes| ==> volumes[i].name != volumes[j].name
  }

  /**
   First write wins: a volume whose name is taken changes nothing; otherwise it is
   appended after the existing volumes, whose order is kept.
   */
  lemma WithVolumeFirstWriteWins(t: PodTemplate, volume: Volume)
    ensures CanStep(t, WithVolume(volume))
    ensures HasVolumeNamed(t.volumes, volume.name) ==> Step(t, WithVolume(volume)) == t
    ensures !HasVolumeNamed(t.volumes, volume.name) ==>
              Step(t, WithVolume(volume)) == t.(volumes := t.volumes + [volume])
  {
  }

  /** Adding the same volume twice is adding it once. */
  lemma WithVolumeIdempotent(t: PodTemplate, volume: Volume)
    ensures CanRunAll(t, [WithVolume(volume), WithVolume(volume)])
    ensures RunAll(t, [WithVolume(volume), WithVolume(volume)]) == Step(t, WithVolume(volume))
  {
    var vs := Step(t, WithVolume(volume)).volumes;
    if !HasVolumeNamed(t.volumes, volume.name) {
      assert vs[|vs| - 1] == volume;
    }
    assert HasVolumeNamed(vs, volume.name);
    RunAllPair(t, WithVolume(volume), WithVolume(volume));
  }

  /** One modification never introduces two volumes with the same name. */
  lemma {:induction false} StepKeepsVolumeNamesUnique(t: PodTemplate, m: Modification)
    requires CanStep(t, m) && UniqueVolumeNames(t.volumes)
    ensures UniqueVolumeNames(Step(t, m).volumes)
    decreases m
  {
    match m
    case Apply(mods) => RunAllKeepsVolumeNamesUnique(t, mods);
    case WithVolume(volume) =>
      if !HasVolumeNamed(t.volumes, volume.name) {
        var vs := t.volumes + [volume];
        forall i, j | 0 <= i < j < |vs| ensures vs[i].name != vs[j].name {
          if j == |t.volumes| {
            assert vs[i] == t.volumes[i];
          }
        }
      }
    case _ =>
  }

  /** Any list of modifications keeps the volume names unique. */
  lemma {:induction false} RunAllKeepsVolumeNamesUnique(t: PodTemplate, mods: seq<Modification>)
    requires CanRunAll(t, mods) && UniqueVolumeNames(t.volumes)
    ensures UniqueVolumeNames(RunAll(t, mods).volumes)
    decreases mods
  {
    if mods != [] {
      StepKeepsVolumeNamesUnique(t, mods[0]);
      RunAllKeepsVolumeNamesUnique(Step(t, mods[0]), mods[1..]);
    }
  }

  /** `New(WithVolume(v1), WithVolume(v1'), WithVolume(v2))` keeps v1 and v2, in that order. */
  lemma NewDuplicateVolume(v1: Volume, v1': Volume, v2: Volume)
    requires v1.name == v1'.name && v1.name != v2.name
    ensures CanRunAll(Zero(), [WithVolume(v1), WithVolume(v1'), WithVolume(v2)])
    ensures RunAll(Zero(), [WithVolume(v1), WithVolume(v1'), WithVolume(v2)]).volumes == [v1, v2]
  {
    var mods := [WithVolume(v1), WithVolume(v1'), WithVolume(v2)];
    assert mods[1..] == [WithVolume(v1'), WithVolume(v2)];
    RunAllPair(Step(Zero(), WithVolume(v1)), WithVolume(v1'), WithVolume(v2));
    assert [v1][0].name == v1'.name;
    assert !HasVolumeNamed([v1], v2.name);
    assert [] + [v1] == [v1] && [v1] + [v2] == [v1, v2];
  }

  // ---------------------------------------------------------------------------
  // Image-pull secrets
  // ---------------------------------------------------------------------------

  /** Image-pull secrets are not de-duplicated: adding the same name twice adds two entries. */
  lemma WithImagePullSecretsAppendsEveryTime(t: PodTemplate, name: string)
    ensures CanRunAll(t, [WithImagePullSecrets(name), WithImagePullSecrets(name)])
    ensures RunAll(t, [WithImagePullSecrets(name), WithImagePullSecrets(name)])
              == t.(imagePullSecrets := t.imagePullSecrets + [LocalObjectReference(name), LocalObjectReference(name)])
  {
    RunAllPair(t, WithImagePullSecrets(name), WithImagePullSecrets(name));
    assert t.imagePullSecrets + [LocalObjectReference(name)] + [LocalObjectReference(name)]
        == t.imagePullSecrets + [LocalObjectReference(name), LocalObjectReference(name)];
  }

  // ---------------------------------------------------------------------------
  // Labels and annotations
  // ---------------------------------------------------------------------------

  /**
   Labels are never left nil: a nil map becomes the empty map, any other map replaces
   the previous labels wholesale; nothing else changes.
   */
  lemma WithPodLabelsNormalises(t: PodTemplate, given: Option<StringMap>)
    ensures Step(t, WithPodLabels(given)).(labels := t.labels) == t
    ensures var l := Step(t, WithPodLabels(given)).labels;
            l.Some? && (given.None? ==> |l.value| == 0) && (given.Some? ==> l == given)
  {
  }

  /** The same for annotations. */
  lemma WithAnnotationsNormalises(t: PodTemplate, given: Option<StringMap>)
    ensures Step(t, WithAnnotations(given)).(annotations := t.annotations) == t
    ensures var a := Step(t, WithAnnotations(given)).annotations;
            a.Some? && (given.None? ==> |a.value| == 0) && (given.Some? ==> a == given)
  {
  }

  // ---------------------------------------------------------------------------
  // Security context and affinity
  // ---------------------------------------------------------------------------

  /**
   `WithFsGroup` replaces the whole security context: the result holds the group, no
   other setting, and does not depend on the security context before.
   */
  lemma WithFsGroupDiscardsRest(t: PodTemplate, other: Option<PodSecurityContext>, fsGroup: int)
    ensures var sc := Step(t, WithFsGroup(fsGroup)).securityContext;
            sc.Some? && sc.value.fsGroup == Some(fsGroup)
            && sc.value.runAsUser.None? && sc.value.runAsNonRoot.None?
    ensures Step(t.(securityContext := other), WithFsGroup(fsGroup)) == Step(t, WithFsGroup(fsGroup))
    ensures Step(t, WithFsGroup(fsGroup)).(securityContext := t.securityContext) == t
  {
  }

  /**
   `WithAffinity` replaces the whole affinity with one preferred anti-affinity term of
   the given weight, selecting `{labelKey: stsName}`, with an empty topology key; node
   and pod affinity are gone, and the result does not depend on the affinity before.
   */
  lemma WithAffinityReplaces(t: PodTemplate, other: Option<Affinity>, stsName: string, labelKey: string, weight: int)
    ensures var a := Step(t, WithAffinity(stsName, labelKey, weight)).affinity;
            && a.Some? && a.value.nodeAffinity.None? && a.value.podAffinity.None?
            && a.value.podAntiAffinity.Some?
            && a.value.podAntiAffinity.value.required == []
            && |a.value.podAntiAffinity.value.preferred| == 1
            && a.value.podAntiAffinity.value.preferred[0].weight == weight
            && a.value.podAntiAffinity.value.preferred[0].podAffinityTerm.labelSelector
                 == Some(LabelSelector(map[labelKey := stsName]))
            && a.value.podAntiAffinity.value.preferred[0].podAffinityTerm.topologyKey == ""
    ensures Step(t.(affinity := other), WithAffinity(stsName, labelKey, weight))
              == Step(t, WithAffinity(stsName, labelKey, weight))
    ensures Step(t, WithAffinity(stsName, labelKey, weight)).(affinity := t.affinity) == t
  {
  }

  /**
   The topology-key setter crashes unless the affinity, its anti-affinity and preferred
   term `index` exist; it then changes that term's topology key and nothing else.
   */
  lemma WithTopologyKeyOnlyChangesKey(t: PodTemplate, topologyKey: string, index: int)
    ensures CanStep(t, WithTopologyKey(topologyKey, index)) <==> HasPreferredTerm(t.affinity, index)
    ensures HasPreferredTerm(t.affinity, index) ==>
      var r := Step(t, WithTopologyKey(topologyKey, index));
      var a, a' := t.affinity.value, r.affinity.value;
      var ps, ps' := a.podAntiAffinity.value.preferred, a'.podAntiAffinity.value.preferred;
      && r.(affinity := t.affinity) == t
      && a'.nodeAffinity == a.nodeAffinity && a'.podAffinity == a.podAffinity
      && a'.podAntiAffinity.Some?
      && a'.podAntiAffinity.value.required == a.podAntiAffinity.value.required
      && |ps'| == |ps|
      && ps'[index].weight == ps[index].weight
      && ps'[index].podAffinityTerm.labelSelector == ps[index].podAffinityTerm.labelSelector
      && ps'[index].podAffinityTerm.topologyKey == topologyKey
      && forall j :: 0 <= j < |ps| && j != index ==> ps'[j] == ps[j]
  {
  }

  /** `WithAffinity` then `WithTopologyKey(k, 0)` never crashes and sets the key of the one term. */
  lemma AffinityThenTopologyKey(t: PodTemplate, stsName: string, labelKey: string, weight: int, topologyKey: string)
    ensures CanRunAll(t, [WithAffinity(stsName, labelKey, weight), WithTopologyKey(topologyKey, 0)])
    ensures RunAll(t, [WithAffinity(stsName, labelKey, weight), WithTopologyKey(topologyKey, 0)]).affinity
      == Some(Affinity(None, None, Some(PodAntiAffinity([], [WeightedPodAffinityTerm(weight,
           PodAffinityTerm(Some(LabelSelector(map[labelKey := stsName])), topologyKey))]))))
  {
    RunAllPair(t, WithAffinity(stsName, labelKey, weight), WithTopologyKey(topologyKey, 0));
    var selector := Some(LabelSelector(map[labelKey := stsName]));
    var before := WeightedPodAffinityTerm(weight, PodAffinityTerm(selector, ""));
    var after := WeightedPodAffinityTerm(weight, PodAffinityTerm(selector, topologyKey));
    assert [before][0 := after] == [after];
  }

  /**
   Node and pod affinity crash on a nil affinity; otherwise each sets its own sub-field
   and leaves the other two and the rest of the template alone.
   */
  lemma NodeAndPodAffinitySetOwnField(t: PodTemplate, na: Option<NodeAffinity>, pa: Option<PodAffinity>)
    ensures CanStep(t, WithNodeAffinity(na)) <==> t.affinity.Some?
    ensures CanStep(t, WithPodAffinity(pa)) <==> t.affinity.Some?
    ensures t.affinity.Some? ==>
      var rn, rp := Step(t, WithNodeAffinity(na)), Step(t, WithPodAffinity(pa));
      && rn.(affinity := t.affinity) == t && rp.(affinity := t.affinity) == t
      && rn.affinity == Some(Affinity(na, t.affinity.value.podAffinity, t.affinity.value.podAntiAffinity))
      && rp.affinity == Some(Affinity(t.affinity.value.nodeAffinity, pa, t.affinity.value.podAntiAffinity))
  {
  }
}
