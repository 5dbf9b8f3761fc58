/**
 * The Kubernetes objects the generators build (backend/converters/kubernetes/types.go),
 * reduced to the fields the generators set, and the generator options.
 */
module Kubernetes {
  import opened Wrappers

  datatype Metadata = Metadata(name: string, namespace: string, labels: map<string, string>)

  datatype ContainerPort = ContainerPort(containerPort: int, protocol: string)

  datatype EnvVar = EnvVar(name: string, value: string)

  /** A pod volume; the generators only build host-path volumes. */
  datatype Volume = Volume(name: string, hostPath: string)

  datatype VolumeMount = VolumeMount(name: string, mountPath: string, readOnly: bool)

  /** An exec probe with its timing fields (zero means unset). */
  datatype Probe = Probe(command: seq<string>, timeoutSeconds: int, periodSeconds: int, failureThreshold: int)

  datatype ResourceRequirements = ResourceRequirements(limits: map<string, string>, requests: map<string, string>)

  /** The three optional fields the generator fills; Go leaves them nil when unset. */
  datatype SecurityContext = SecurityContext(runAsUser: Option<int>, privileged: Option<bool>, readOnlyRootFilesystem: Option<bool>)

  datatype Container = Container(
    name: string,
    image: string,
    command: seq<string>,
    args: seq<string>,
    workingDir: string,
    ports: seq<ContainerPort>,
    env: seq<EnvVar>,
    resources: Option<ResourceRequirements>,
    volumeMounts: seq<VolumeMount>,
    livenessProbe: Option<Probe>,
    readinessProbe: Option<Probe>,
    securityContext: Option<SecurityContext>,
    imagePullPolicy: string)

  datatype PodSpec = PodSpec(containers: seq<Container>, volumes: seq<Volume>, restartPolicy: string)

  datatype PodTemplateSpec = PodTemplateSpec(metadata: Metadata, spec: PodSpec)

  datatype DeploymentSpec = DeploymentSpec(replicas: int, selector: map<string, string>, template: PodTemplateSpec)

  datatype Deployment = Deployment(apiVersion: string, kind: string, metadata: Metadata, spec: DeploymentSpec)
  {
    function GetName(): string { metadata.name }
    function GetKind(): string { kind }
  }

  /** `targetPort` is a string: it may hold a port name or a number. */
  datatype ServicePort = ServicePort(name: string, port: int, targetPort: string, protocol: string)

  datatype ServiceSpec = ServiceSpec(serviceType: string, selector: map<string, string>, ports: seq<ServicePort>)

  datatype Service = Service(apiVersion: string, kind: string, metadata: Metadata, spec: ServiceSpec)
  {
    function GetName(): string { metadata.name }
    function GetKind(): string { kind }
  }

  datatype ConfigMap = ConfigMap(apiVersion: string, kind: string, metadata: Metadata, data: map<string, string>)
  {
    function GetName(): string { metadata.name }
    function GetKind(): string { kind }
  }

  datatype PersistentVolumeSpec = PersistentVolumeSpec(
    capacity: map<string, string>, accessModes: seq<string>, reclaimPolicy: string, hostPath: string)

  datatype PersistentVolume = PersistentVolume(apiVersion: string, kind: string, metadata: Metadata, spec: PersistentVolumeSpec)
  {
    function GetName(): string { metadata.name }
    function GetKind(): string { kind }
  }

  datatype PersistentVolumeClaimSpec = PersistentVolumeClaimSpec(accessModes: seq<string>, requests: map<string, string>)

  datatype PersistentVolumeClaim = PersistentVolumeClaim(
    apiVersion: string, kind: string, metadata: Metadata, spec: PersistentVolumeClaimSpec)

  /** The one rule of a generated Ingress: host, path "/" of type Prefix, to a service port. */
  datatype IngressRule = IngressRule(host: string, path: string, pathType: string, serviceName: string, portNumber: int)

  /** The generic manifest, used for the Ingress. */
  datatype Manifest = Manifest(apiVersion: string, kind: string, metadata: Metadata, rules: seq<IngressRule>)

  /** Anything the converter hands to the YAML encoder. */
  datatype Object =
    | DeploymentObject(deployment: Deployment)
    | ServiceObject(service: Service)
    | ConfigMapObject(configMap: ConfigMap)
    | ClaimObject(claim: PersistentVolumeClaim)
    | VolumeObject(volume: PersistentVolume)

  datatype GeneratorOptions = GeneratorOptions(
    namespace: string,
    labels: map<string, string>,
    annotations: map<string, string>,
    imagePullPolicy: string,
    serviceType: string,
    replicas: int)

  /** DefaultGeneratorOptions: namespace "default", no labels or annotations,
    * pull policy IfNotPresent, a ClusterIP service, one replica. */
  function DefaultGeneratorOptions(): (o: GeneratorOptions)
    ensures o.namespace == "default" && o.labels == map[] && o.annotations == map[]
    ensures o.imagePullPolicy == "IfNotPresent" && o.serviceType == "ClusterIP" && o.replicas == 1
  {
    GeneratorOptions("default", map[], map[], "IfNotPresent", "ClusterIP", 1)
  }

  /** mergeLabels: every label of both maps, the second map winning on a shared key. */
  function MergeLabels(base: map<string, string>, additional: map<string, string>): (r: map<string, string>)
    ensures r.Keys == base.Keys + additional.Keys
    ensures forall k :: k in additional ==> r[k] == additional[k]
    ensures forall k :: k in base && k !in additional ==> r[k] == base[k]
  {
    base + additional
  }

  /** The labels every generated object carries: the option labels with `app` set to the service. */
  function AppLabels(options: GeneratorOptions, name: string): (r: map<string, string>)
    ensures "app" in r && r["app"] == name
    ensures r.Keys == options.labels.Keys + {"app"}
    ensures forall k :: k in options.labels && k != "app" ==> r[k] == options.labels[k]
  {
    MergeLabels(options.labels, map["app" := name])
  }
}
