# Pod-template builder, modelled in Dafny

The Go package `podtemplatespec` builds Kubernetes pod templates from small
"modifications": closures that each edit one field or list of a
`corev1.PodTemplateSpec` in place. `New` runs a list of modifications, in
order, on a zero template; `Apply` bundles a list into one modification;
`NOOP` does nothing. The other builders upsert containers and init containers
by name, edit them by index, replace the labels, annotations, service account,
grace period, security context, affinity and tolerations, and append volumes
(de-duplicated by name) and image-pull secrets (not de-duplicated).

The project has three files:

- `kube_types.dfy` (module `KubeTypes`): the parts of the Kubernetes object
  model the builder touches, as value records. `PodTemplate` is the value of a
  pod template. It holds `metadata.labels`, `metadata.annotations` and the
  `spec` fields the builder writes. A Go nil map or nil `*T` field is `None`.
  `Zero()` is `corev1.PodTemplateSpec{}`.
- `podspec_template.dfy` (module `PodSpecTemplate`): the builder.
  - `Modification` has one constructor per builder function. It records what
    that function's closure captures. Caller-supplied container editors are
    function values `Container -> Container`.
  - `Step` and `RunAll` are the pure specification of running one
    modification or a list of them.
  - `CanStep` and `CanRunAll` say when a run does not crash. Each Go panic
    (nil dereference, index out of range) is a precondition here.
  - The class `PodTemplateSpec` holds the template's fields. It has one
    method per closure body, and each method updates the fields in place.
    Every method is proved to leave `Value()` equal to what `Step` gives.
    `Run` dispatches a modification, and its `Apply` case loops over the
    bundled list. `New` allocates a zero template and loops over the list.
  - `FindIndexByName` is the forward scan of the Go lookup. It is proved equal
    to `IndexOfName`.
- `podspec_template_properties.dfy` (module `PodSpecTemplateProperties`):
  lemmas about `Step` and `RunAll`. These cover ordered application, the upsert
  and by-index edits, first-write-wins volumes, nil-map normalisation, the
  destructive setters, and the crash conditions of the affinity-dependent
  setters.

Notes on the code:

- The name lookup returns the first container with the name.
- `WithInitContainerByIndex` decides whether to append an init container by
  comparing the index with the length of `Containers`, not of
  `InitContainers` (`podspec_template.go:74`). The model keeps this.
  `InitByIndexCrashesAtEnd` shows that index `|initContainers|` crashes when
  there are more containers than init containers. `InitByIndexAppendsStray`
  shows that an index at or past the end of `containers` but inside the init
  containers edits in place and also appends an empty init container.
- `WithTopologyKey`, `WithNodeAffinity` and `WithPodAffinity` crash on a zero
  template, so `New` requires `CanRunAll(Zero(), mods)`.

## Model

| member | source | states |
|---|---|---|
| `PodSpecTemplate.IndexOfName` | pkg/kube/podtemplatespec/podspec_template.go:110-117 | The result is `NotFound` (-1) exactly when no container has the name. Otherwise it is a valid index whose container has the name, and no earlier container has it. |
| `PodSpecTemplate.FindIndexByName` | pkg/kube/podtemplatespec/podspec_template.go:110-117 | The forward scan that stops at the first match returns `IndexOfName`: the smallest matching index, or -1. |
| `PodSpecTemplate.New` | pkg/kube/podtemplatespec/podspec_template.go:14-20 | Returns a fresh template whose value is the zero template with every modification run on it, in list order. |
| `PodSpecTemplate.PodTemplateSpec.constructor` | pkg/kube/podtemplatespec/podspec_template.go:15 | A new template is the zero `PodTemplateSpec`: nil maps, nil `*T` fields, empty lists. |
| `PodSpecTemplate.PodTemplateSpec.Run` | pkg/kube/podtemplatespec/podspec_template.go:22-32 | Running a modification in place gives `Step` of the old value. `Apply` runs its list in order, and `NOOP` changes nothing. |
| `PodSpecTemplate.PodTemplateSpec.WithContainer` | pkg/kube/podtemplatespec/podspec_template.go:34-45 | Only `containers` changes, and it becomes the by-name upsert of the old list. |
| `PodSpecTemplate.PodTemplateSpec.WithContainerByIndex` | pkg/kube/podtemplatespec/podspec_template.go:47-57 | Requires `0 <= index` and `index` at most the length of `containers`. Only `containers` changes: it grows by one empty container when `index` is at least the length of `containers`, then element `index` is passed through the editors in order. |
| `PodSpecTemplate.PodTemplateSpec.WithInitContainer` | pkg/kube/podtemplatespec/podspec_template.go:59-70 | Only `initContainers` changes, and it becomes the by-name upsert of the old list. |
| `PodSpecTemplate.PodTemplateSpec.WithInitContainerByIndex` | pkg/kube/podtemplatespec/podspec_template.go:72-82 | Only `initContainers` changes. It grows by one when `index` is at least the length of `containers` (the container list), then element `index` is passed through the editors. Requires `index` to be valid after that growth. |
| `PodSpecTemplate.PodTemplateSpec.WithPodLabels` | pkg/kube/podtemplatespec/podspec_template.go:84-91 | Only the labels change. They become the given map, or the empty map for nil. |
| `PodSpecTemplate.PodTemplateSpec.WithServiceAccount` | pkg/kube/podtemplatespec/podspec_template.go:93-97 | Only the service account name changes, and it becomes the given name. |
| `PodSpecTemplate.PodTemplateSpec.WithVolume` | pkg/kube/podtemplatespec/podspec_template.go:99-108 | Only `volumes` changes. The volume is appended when no volume has its name yet. Otherwise the list is kept. |
| `PodSpecTemplate.PodTemplateSpec.WithTerminationGracePeriodSeconds` | pkg/kube/podtemplatespec/podspec_template.go:119-124 | Only the grace period changes, and it becomes the given number of seconds. |
| `PodSpecTemplate.PodTemplateSpec.WithFsGroup` | pkg/kube/podtemplatespec/podspec_template.go:126-134 | Only the security context changes. It becomes a context holding just the fsGroup. |
| `PodSpecTemplate.PodTemplateSpec.WithImagePullSecrets` | pkg/kube/podtemplatespec/podspec_template.go:136-142 | Only the image-pull secrets change: a reference to the name is appended. |
| `PodSpecTemplate.PodTemplateSpec.WithTopologyKey` | pkg/kube/podtemplatespec/podspec_template.go:144-148 | Requires an affinity with an anti-affinity that has preferred term `index`. Only that term's topology key changes. |
| `PodSpecTemplate.PodTemplateSpec.WithAffinity` | pkg/kube/podtemplatespec/podspec_template.go:150-164 | Only the affinity changes. It becomes a single preferred anti-affinity term with the given weight and selector `{labelKey: stsName}`. |
| `PodSpecTemplate.PodTemplateSpec.WithNodeAffinity` | pkg/kube/podtemplatespec/podspec_template.go:166-170 | Requires a non-nil affinity. Only its node affinity changes. |
| `PodSpecTemplate.PodTemplateSpec.WithPodAffinity` | pkg/kube/podtemplatespec/podspec_template.go:172-176 | Requires a non-nil affinity. Only its pod affinity changes. |
| `PodSpecTemplate.PodTemplateSpec.WithTolerations` | pkg/kube/podtemplatespec/podspec_template.go:178-182 | Only the tolerations change, and they become the given list. |
| `PodSpecTemplate.PodTemplateSpec.WithAnnotations` | pkg/kube/podtemplatespec/podspec_template.go:184-191 | Only the annotations change. They become the given map, or the empty map for nil. |
| `PodSpecTemplateProperties.RunAllConcat` | pkg/kube/podtemplatespec/podspec_template.go:14-28 | Running `a + b` is running `a` and then `b`. It crashes exactly when one of the two does. |
| `PodSpecTemplateProperties.ApplyInlines` | pkg/kube/podtemplatespec/podspec_template.go:22-28 | `Apply(mods)` anywhere in a list has the same crash condition and result as `mods` spliced in at that place. |
| `PodSpecTemplateProperties.NewApplyPair` | pkg/kube/podtemplatespec/podspec_template.go:14-28 | `New(Apply(a, b))` equals `New(a, b)`, including when it crashes. |
| `PodSpecTemplateProperties.NoopDrops` | pkg/kube/podtemplatespec/podspec_template.go:30-32 | A `NOOP` anywhere in a list can be removed without changing the crash condition or the result. |
| `PodSpecTemplateProperties.LaterWriteWins` | pkg/kube/podtemplatespec/podspec_template.go:14-20 | The order of the list matters: of two service-account writes, the later one is kept. |
| `PodSpecTemplateProperties.NewLabelsAndServiceAccount` | pkg/kube/podtemplatespec/podspec_template.go:84-97 | `New(WithPodLabels(nil), WithServiceAccount("svc"))` gives empty labels, account `svc`, and every other field zero. |
| `PodSpecTemplateProperties.WithContainerUpserts` | pkg/kube/podtemplatespec/podspec_template.go:34-45 | If the name is present, the length is kept and only the first match becomes `edit(old)`. If it is absent, exactly `edit(empty container)` is appended. Init containers and every other field are unchanged. |
| `PodSpecTemplateProperties.WithInitContainerUpserts` | pkg/kube/podtemplatespec/podspec_template.go:59-70 | The same upsert on the init containers. Containers and every other field are unchanged. |
| `PodSpecTemplateProperties.UpsertLeavesNewContainerUnnamed` | pkg/kube/podtemplatespec/podspec_template.go:34-45 | The upsert does not name the container it appends. With an editor that keeps the name, the appended element is that editor applied to the empty container, so its name is empty and a non-empty name is still not found. |
| `PodSpecTemplateProperties.ApplyEditsConcat` | pkg/kube/podtemplatespec/podspec_template.go:53-55 | Passing a container through the editors `f + g` is passing it through `f`, then `g`. |
| `PodSpecTemplateProperties.WithContainerByIndexEdits` | pkg/kube/podtemplatespec/podspec_template.go:47-57 | Crashes exactly unless `0 <= index` and `index` at most the length of `containers`. Below the end, only element `index` changes. At the end, one edited empty container is appended. Nothing else changes. |
| `PodSpecTemplateProperties.WithContainerByIndexSplits` | pkg/kube/podtemplatespec/podspec_template.go:47-57 | One by-index edit with editors `f + g` equals a by-index edit with `f` followed by one with `g`, at the same index. |
| `PodSpecTemplateProperties.InitByIndexCrashesAtEnd` | pkg/kube/podtemplatespec/podspec_template.go:72-82 | With more containers than init containers, the init index one past the end crashes instead of appending. |
| `PodSpecTemplateProperties.InitByIndexAppendsStray` | pkg/kube/podtemplatespec/podspec_template.go:72-82 | For an index at or past the end of the containers but inside the init containers, the init container is edited in place and an empty init container is also appended. |
| `PodSpecTemplateProperties.InitByIndexMatchesWhenLengthsAgree` | pkg/kube/podtemplatespec/podspec_template.go:72-82 | When both lists have the same length, the init-container edit crashes and grows exactly as the container edit does. |
| `PodSpecTemplateProperties.WithVolumeFirstWriteWins` | pkg/kube/podtemplatespec/podspec_template.go:99-108 | A volume whose name is taken leaves the template unchanged. Otherwise it is appended after the existing volumes, in order, and nothing else changes. |
| `PodSpecTemplateProperties.WithVolumeIdempotent` | pkg/kube/podtemplatespec/podspec_template.go:99-108 | Adding the same volume twice equals adding it once. |
| `PodSpecTemplateProperties.StepKeepsVolumeNamesUnique` | pkg/kube/podtemplatespec/podspec_template.go:99-108 | No modification of this package, including a nested `Apply` of them, creates two volumes with the same name. |
| `PodSpecTemplateProperties.RunAllKeepsVolumeNamesUnique` | pkg/kube/podtemplatespec/podspec_template.go:14-20 | Running any list of this package's modifications keeps volume names unique, so `New` on such a list never yields duplicate volume names. |
| `PodSpecTemplateProperties.NewDuplicateVolume` | pkg/kube/podtemplatespec/podspec_template.go:99-108 | `New(WithVolume(v1), WithVolume(v1'), WithVolume(v2))`, where `v1` and `v1'` share a name, gives volumes `[v1, v2]`. |
| `PodSpecTemplateProperties.WithImagePullSecretsAppendsEveryTime` | pkg/kube/podtemplatespec/podspec_template.go:136-142 | Image-pull secrets are not de-duplicated: the same name added twice gives two new entries. |
| `PodSpecTemplateProperties.WithPodLabelsNormalises` | pkg/kube/podtemplatespec/podspec_template.go:84-91 | Labels are never nil afterwards. A nil argument gives an empty map, and a map replaces the old labels wholesale. Nothing else changes. |
| `PodSpecTemplateProperties.WithAnnotationsNormalises` | pkg/kube/podtemplatespec/podspec_template.go:184-191 | The same for annotations. |
| `PodSpecTemplateProperties.WithFsGroupDiscardsRest` | pkg/kube/podtemplatespec/podspec_template.go:126-134 | The security context holds the group and no other setting. The result does not depend on the earlier security context, and nothing else changes. |
| `PodSpecTemplateProperties.WithAffinityReplaces` | pkg/kube/podtemplatespec/podspec_template.go:150-164 | The affinity becomes one preferred anti-affinity term with weight `w`, selector `{key: sts}` and an empty topology key, with nil node and pod affinity. The result does not depend on the earlier affinity. |
| `PodSpecTemplateProperties.WithTopologyKeyOnlyChangesKey` | pkg/kube/podtemplatespec/podspec_template.go:144-148 | Crashes exactly unless affinity, anti-affinity and term `index` exist. Then only that term's topology key changes; its weight, its selector and the other terms stay. |
| `PodSpecTemplateProperties.AffinityThenTopologyKey` | pkg/kube/podtemplatespec/podspec_template.go:144-164 | `WithAffinity` followed by `WithTopologyKey(k, 0)` never crashes. It yields the single term with the given weight and selector and topology key `k`. |
| `PodSpecTemplateProperties.NodeAndPodAffinitySetOwnField` | pkg/kube/podtemplatespec/podspec_template.go:166-176 | Both crash exactly on a nil affinity. Otherwise each sets only its own sub-field, keeping the other two sub-fields and the rest of the template. |

## Left out

- The Kubernetes types are reduced to the fields the builder reads or writes.
  Container details, volume sources, tolerations and node/pod affinity are
  opaque values. The security context keeps `fsGroup` and two other settings
  to stand for the rest.
- Aliasing is not modelled. The Go code stores caller-supplied label maps,
  toleration slices and node or pod affinity references without copying them.
  Two closures also share storage they own across every run: one
  `WithTerminationGracePeriodSeconds` modification stores a reference to the
  same captured `int64` in every template it runs on, and one
  `WithPodLabels(nil)` or `WithAnnotations(nil)` modification installs the
  same empty map each time. A value model cannot observe later mutation
  through any of these shared references.
- Nil and empty slices are not distinguished, because both are `seq` values.
  Nil and empty maps are distinguished (`None` and `Some(map[])`).
- `PodSpecTemplate.PodTemplateSpec.WithAffinity`: stores `weight` as an
  unbounded integer. It does not model the truncation of Go's `int32(weight)`
  for weights outside the 32-bit range.
- `PodSpecTemplate.PodTemplateSpec.WithTerminationGracePeriodSeconds`: the
  `int` to `int64` conversion is the identity on 64-bit platforms. Narrower
  Go `int` widths are not modelled.
- `PodSpecTemplate.PodTemplateSpec.WithFsGroup`: the same `int` to `int64`
  conversion is not modelled.
- The crashes themselves are not modelled. Each nil dereference and
  out-of-range index is a precondition (`CanStep`, `CanRunAll`) instead.
- Closures are not first-class here. A modification is a `Modification` value
  that `Run` dispatches to the method holding the closure's body.
  `WithPodLabels` and `WithAnnotations` replace a nil map when the closure
  runs. Go replaces it when the closure is created. The resulting values are
  the same; the sharing of that one map is covered by the aliasing line above.
- Modifications written by callers are not modelled. In Go a `Modification` is
  any `func(*corev1.PodTemplateSpec)`, and `New` and `Apply` run any such
  function. The `Modification` datatype holds only this package's builders,
  so the volume-uniqueness lemmas hold of lists built from those alone.
- Container editors are total functions on container values. An editor that
  panics or touches anything beyond its container is not modelled.
