/**
 The slice of the Kubernetes core/v1 and meta/v1 object model that the pod-template
 builder reads or writes. Every record keeps only the fields the builder touches;
 the rest of each foreign type is folded into an opaque field. A Go nil `*T` field or
 nil map is `None`; a Go slice is a `seq` (nil and empty slices are not told apart).
 */
module KubeTypes {

  datatype Option<+T> = None | Some(value: T) {
    function GetOr(default: T): T {
      match this
      case Some(v) => v
      case None => default
    }
  }

  type StringMap = map<string, string>

  /** corev1.Container: identified by `name`; every other field is opaque. */
  datatype Container = Container(name: string, details: StringMap)

  /** The zero value `corev1.Container{}`: empty name, no other field set. */
  function EmptyContainer(): Container
  {
    Container("", map[])
  }

  /** corev1.Volume: identified by `name`; the volume source is opaque. */
  datatype Volume = Volume(name: string, source: StringMap)

  /** corev1.PodSecurityContext: `fsGroup` plus two of the other settings it carries. */
  datatype PodSecurityContext = PodSecurityContext(
    fsGroup: Option<int>,
    runAsUser: Option<int>,
    runAsNonRoot: Option<bool>)

  /** corev1.LocalObjectReference, as used for image-pull secrets. */
  datatype LocalObjectReference = LocalObjectReference(name: string)

  /** metav1.LabelSelector: only `matchLabels` is used. */
  datatype LabelSelector = LabelSelector(matchLabels: StringMap)

  /** corev1.PodAffinityTerm: a label selector and a topology key. */
  datatype PodAffinityTerm = PodAffinityTerm(labelSelector: Option<LabelSelector>, topologyKey: string)

  /** corev1.WeightedPodAffinityTerm. */
  datatype WeightedPodAffinityTerm = WeightedPodAffinityTerm(weight: int, podAffinityTerm: PodAffinityTerm)

  /** corev1.PodAntiAffinity: required and preferred scheduling terms. */
  datatype PodAntiAffinity = PodAntiAffinity(
    required: seq<PodAffinityTerm>,
    preferred: seq<WeightedPodAffinityTerm>)

  /** corev1.NodeAffinity and corev1.PodAffinity are opaque to the builder. */
  datatype NodeAffinity = NodeAffinity(rules: seq<StringMap>)
  datatype PodAffinity = PodAffinity(rules: seq<StringMap>)

  /** corev1.Affinity: three optional sub-structures. */
  datatype Affinity = Affinity(
    nodeAffinity: Option<NodeAffinity>,
    podAffinity: Option<PodAffinity>,
    podAntiAffinity: Option<PodAntiAffinity>)

  /** corev1.Toleration is opaque to the builder. */
  datatype Toleration = Toleration(fields: StringMap)

  /**
   The value of a corev1.PodTemplateSpec, restricted to the fields the builder
   touches: `metadata.labels`, `metadata.annotations` and the `spec.*` fields below.
   */
  datatype PodTemplate = PodTemplate(
    labels: Option<StringMap>,
    annotations: Option<StringMap>,
    containers: seq<Container>,
    initContainers: seq<Container>,
    serviceAccountName: string,
    volumes: seq<Volume>,
    terminationGracePeriodSeconds: Option<int>,
    securityContext: Option<PodSecurityContext>,
    imagePullSecrets: seq<LocalObjectReference>,
    affinity: Option<Affinity>,
    tolerations: seq<Toleration>)

  /** The zero value `corev1.PodTemplateSpec{}`: nil maps, nil `*T` fields, empty lists. */
  function Zero(): PodTemplate
  {
    PodTemplate(None, None, [], [], "", [], None, None, [], None, [])
  }
}
