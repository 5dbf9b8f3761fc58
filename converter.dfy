/**
 * The docker-compose to Kubernetes converter
 * (backend/converters/docker_compose_converter.go): it validates the request,
 * converts every service into manifest files, errors and warnings, turns the
 * top-level volumes into persistent volumes, and adds advisory warnings for
 * compose features Kubernetes does not support.
 *
 * YAML decoding is the parameter `decode` and YAML encoding the parameter
 * `marshal` (a total function of the object). `durationText` is Go's
 * `time.Duration.String()` applied to a health-check duration.
 * Services and volumes are visited in ascending name order.
 */
module Converter {
  import opened Wrappers
  import opened Text
  import opened Values
  import opened Kubernetes
  import Compose
  import Generator
  import ServiceGenerator

  datatype ConversionRequest = ConversionRequest(contentType: string, content: string, options: map<string, Value>)

  /** The compose features the converter warns about, in the order it checks them. */
  datatype Feature = CustomNetworks | DependsOn | PidMode | IpcMode | ShmSize

  /** The error codes the converter reports. */
  datatype ErrorCode = ValidationFailed | DeploymentGenerationError | ServiceGenerationError | UnsupportedVolumeDriver
  {
    function Text(): string
    {
      match this
      case ValidationFailed => "VALIDATION_ERROR"
      case DeploymentGenerationError => "DEPLOYMENT_GENERATION_ERROR"
      case ServiceGenerationError => "SERVICE_GENERATION_ERROR"
      case UnsupportedVolumeDriver => "UNSUPPORTED_VOLUME_DRIVER"
    }
  }

  /** The warning codes the converter reports. */
  datatype WarningCode = ConfigMapGenerationWarning | PvcGenerationWarning | UnsupportedFeature(feature: Feature)
  {
    function Text(): string
    {
      match this
      case ConfigMapGenerationWarning => "CONFIGMAP_GENERATION_WARNING"
      case PvcGenerationWarning => "PVC_GENERATION_WARNING"
      case UnsupportedFeature(CustomNetworks) => "UNSUPPORTED_NETWORKS"
      case UnsupportedFeature(DependsOn) => "UNSUPPORTED_DEPENDS_ON"
      case UnsupportedFeature(PidMode) => "UNSUPPORTED_PID_MODE"
      case UnsupportedFeature(IpcMode) => "UNSUPPORTED_IPC_MODE"
      case UnsupportedFeature(ShmSize) => "UNSUPPORTED_SHM_SIZE"
    }
  }

  /** An error: its code and the arguments of its message, the service or volume it is
    * about (`subject`) and the underlying reason or the offending value (`detail`). */
  datatype ConversionError = ConversionError(code: ErrorCode, subject: string, detail: string)
  {
    /** The message, formatted as the converter formats it for the code. */
    function Message(): string
    {
      match code
      case ValidationFailed => detail
      case DeploymentGenerationError => "Failed to generate deployment for service " + subject + ": " + detail
      case ServiceGenerationError => "Failed to generate service for " + subject + ": " + detail
      case UnsupportedVolumeDriver => "Volume driver '" + detail + "' is not supported for volume '" + subject + "'"
    }
  }

  /** A warning, in the same form as an error. */
  datatype ConversionWarning = ConversionWarning(code: WarningCode, subject: string, detail: string)
  {
    function Message(): string
    {
      match code
      case ConfigMapGenerationWarning => "Failed to generate configmap for " + subject + ": " + detail
      case PvcGenerationWarning => "Failed to generate PVCs for " + subject + ": " + detail
      case UnsupportedFeature(CustomNetworks) =>
        "Custom networks for service " + subject + " will be converted to default Kubernetes networking"
      case UnsupportedFeature(DependsOn) =>
        "Dependencies for service " + subject + " are not directly supported in Kubernetes"
      case UnsupportedFeature(PidMode) => "PID mode '" + detail + "' for service " + subject + " is not supported"
      case UnsupportedFeature(IpcMode) => "IPC mode '" + detail + "' for service " + subject + " is not supported"
      case UnsupportedFeature(ShmSize) =>
        "SHM size configuration for service " + subject + " requires manual setup in Kubernetes"
    }

    /** Only the depends_on warning comes with a suggestion. */
    function Suggestion(): string
    {
      if code == UnsupportedFeature(DependsOn) then "Consider using init containers or readiness probes" else ""
    }
  }

  /** What a generated file holds, which fixes its name, type and directory. */
  datatype FileKind = DeploymentFile | ServiceFile | ConfigMapFile | ClaimFile(index: nat) | VolumeFile

  /** A generated manifest: the kind, the service or volume it is for, and its YAML text. */
  datatype GeneratedFile = GeneratedFile(kind: FileKind, resource: string, content: string)
  {
    /** "<resource>-<suffix>.yaml". */
    function Name(): string
    {
      match kind
      case DeploymentFile => resource + "-deployment.yaml"
      case ServiceFile => resource + "-service.yaml"
      case ConfigMapFile => resource + "-configmap.yaml"
      case ClaimFile(i) => resource + "-pvc-" + Itoa(i) + ".yaml"
      case VolumeFile => resource + "-pv.yaml"
    }

    function Type(): string
    {
      match kind
      case DeploymentFile => "deployment"
      case ServiceFile => "service"
      case ConfigMapFile => "configmap"
      case ClaimFile(_) => "persistentvolumeclaim"
      case VolumeFile => "persistentvolume"
    }

    /** The directory of the kind, then the name. */
    function Path(): string
    {
      match kind
      case DeploymentFile => "deployments/" + Name()
      case ServiceFile => "services/" + Name()
      case ConfigMapFile => "configmaps/" + Name()
      case ClaimFile(_) => "pvcs/" + Name()
      case VolumeFile => "volumes/" + Name()
    }
  }

  /** The three metadata entries of a completed conversion. */
  datatype ConversionMetadata = ConversionMetadata(servicesConverted: int, volumesConverted: int, dockerVersion: string)

  datatype ConversionResult = ConversionResult(
    success: bool,
    files: seq<GeneratedFile>,
    errors: seq<ConversionError>,
    warnings: seq<ConversionWarning>,
    metadata: Option<ConversionMetadata>)

  /** The files, errors and warnings a part of the conversion contributes. */
  datatype Outcome = Outcome(files: seq<GeneratedFile>, errors: seq<ConversionError>, warnings: seq<ConversionWarning>)
  {
    function Plus(other: Outcome): Outcome
    {
      Outcome(files + other.files, errors + other.errors, warnings + other.warnings)
    }
  }

  const NoOutcome: Outcome := Outcome([], [], [])

  /** Outcomes concatenate associatively, so a loop may append them one at a time. */
  lemma PlusAssociative(a: Outcome, b: Outcome, c: Outcome)
    ensures a.Plus(b).Plus(c) == a.Plus(b.Plus(c))
  {
    assert (a.files + b.files) + c.files == a.files + (b.files + c.files);
    assert (a.errors + b.errors) + c.errors == a.errors + (b.errors + c.errors);
    assert (a.warnings + b.warnings) + c.warnings == a.warnings + (b.warnings + c.warnings);
  }

  /** The outcomes of several resources, one after the other. */
  function Concat(outcomes: seq<Outcome>): Outcome
  {
    if outcomes == [] then NoOutcome else outcomes[0].Plus(Concat(outcomes[1..]))
  }

  /** Appending one more outcome appends its files, errors and warnings. */
  lemma {:induction false} ConcatAppend(outcomes: seq<Outcome>, o: Outcome)
    ensures Concat(outcomes + [o]) == Concat(outcomes).Plus(o)
  {
    if outcomes == [] {
      assert [o][1..] == [];
    } else {
      assert (outcomes + [o])[1..] == outcomes[1..] + [o];
      ConcatAppend(outcomes[1..], o);
      PlusAssociative(outcomes[0], Concat(outcomes[1..]), o);
    }
  }

  /** The concatenation of the first i + 1 outcomes is that of the first i, then the
    * (i + 1)-th. */
  lemma ConcatPrefix(outcomes: seq<Outcome>, i: nat)
    requires i < |outcomes|
    ensures Concat(outcomes[..i + 1]) == Concat(outcomes[..i]).Plus(outcomes[i])
  {
    assert outcomes[..i + 1] == outcomes[..i] + [outcomes[i]];
    ConcatAppend(outcomes[..i], outcomes[i]);
  }

  /** The prefix as long as the whole is the whole. */
  lemma ConcatWhole(outcomes: seq<Outcome>)
    ensures Concat(outcomes[..|outcomes|]) == Concat(outcomes)
  {
    assert outcomes[..|outcomes|] == outcomes;
  }

  /** Nothing is lost and nothing is invented: every file, error and warning of every
    * outcome is in the concatenation, every one of the concatenation comes from some
    * outcome, and the concatenation has no error iff no outcome has one. */
  lemma {:induction false} ConcatSpec(outcomes: seq<Outcome>)
    ensures forall i, f :: 0 <= i < |outcomes| && f in outcomes[i].files ==> f in Concat(outcomes).files
    ensures forall i, e :: 0 <= i < |outcomes| && e in outcomes[i].errors ==> e in Concat(outcomes).errors
    ensures forall i, w :: 0 <= i < |outcomes| && w in outcomes[i].warnings ==> w in Concat(outcomes).warnings
    ensures forall f :: f in Concat(outcomes).files ==> exists i :: 0 <= i < |outcomes| && f in outcomes[i].files
    ensures forall e :: e in Concat(outcomes).errors ==> exists i :: 0 <= i < |outcomes| && e in outcomes[i].errors
    ensures forall w :: w in Concat(outcomes).warnings ==> exists i :: 0 <= i < |outcomes| && w in outcomes[i].warnings
    ensures Concat(outcomes).errors == [] <==> forall i :: 0 <= i < |outcomes| ==> outcomes[i].errors == []
  {
    if outcomes != [] {
      var rest := outcomes[1..];
      ConcatSpec(rest);
      assert forall i :: 1 <= i < |outcomes| ==> outcomes[i] == rest[i - 1];
      if Concat(outcomes).errors == [] {
        assert outcomes[0].errors == [];
      } else if outcomes[0].errors == [] {
        assert Concat(rest).errors != [];
        var i :| 0 <= i < |rest| && rest[i].errors != [];
        assert outcomes[i + 1].errors != [];
      }
    }
  }

  /** Outcomes without warnings concatenate to an outcome without warnings. */
  lemma {:induction false} ConcatWithoutWarnings(outcomes: seq<Outcome>)
    requires forall i :: 0 <= i < |outcomes| ==> outcomes[i].warnings == []
    ensures Concat(outcomes).warnings == []
  {
    if outcomes != [] {
      assert forall i :: 1 <= i < |outcomes| ==> outcomes[i] == outcomes[1..][i - 1];
      ConcatWithoutWarnings(outcomes[1..]);
    }
  }

  /** The outcome of each entry of a map, in the order the converter visits the keys. */
  function OutcomesOf<S>(m: map<string, S>, f: (string, S) -> Outcome): (r: seq<Outcome>)
    ensures |r| == |SortedKeys(m.Keys)|
    ensures forall i :: 0 <= i < |r| ==> SortedKeys(m.Keys)[i] in m && r[i] == f(SortedKeys(m.Keys)[i], m[SortedKeys(m.Keys)[i]])
  {
    var keys := SortedKeys(m.Keys);
    seq(|keys|, i requires 0 <= i < |keys| => f(keys[i], m[keys[i]]))
  }

  /** Every entry has its outcome among the outcomes. */
  lemma OutcomesOfIndex<S>(m: map<string, S>, f: (string, S) -> Outcome, k: string)
    requires k in m
    ensures exists i :: 0 <= i < |OutcomesOf(m, f)| && OutcomesOf(m, f)[i] == f(k, m[k])
  {
    var keys := SortedKeys(m.Keys);
    var i :| 0 <= i < |keys| && keys[i] == k;
    assert OutcomesOf(m, f)[i] == f(k, m[k]);
  }

  /** The files, errors and warnings of every entry reach the concatenation. */
  lemma OutcomesOfKeep<S>(m: map<string, S>, f: (string, S) -> Outcome, k: string)
    requires k in m
    ensures var all := Concat(OutcomesOf(m, f));
      (forall x :: x in f(k, m[k]).files ==> x in all.files)
      && (forall e :: e in f(k, m[k]).errors ==> e in all.errors)
      && (forall w :: w in f(k, m[k]).warnings ==> w in all.warnings)
  {
    OutcomesOfIndex(m, f, k);
    ConcatSpec(OutcomesOf(m, f));
  }

  /** Every file, error and warning of the concatenation comes from some entry. */
  lemma OutcomesOfSources<S>(m: map<string, S>, f: (string, S) -> Outcome)
    ensures forall x :: x in Concat(OutcomesOf(m, f)).files ==> exists k :: k in m && x in f(k, m[k]).files
    ensures forall e :: e in Concat(OutcomesOf(m, f)).errors ==> exists k :: k in m && e in f(k, m[k]).errors
    ensures forall w :: w in Concat(OutcomesOf(m, f)).warnings ==> exists k :: k in m && w in f(k, m[k]).warnings
  {
    ConcatSpec(OutcomesOf(m, f));
  }

  /** No entry's outcome has an error. */
  predicate NoneFails<S>(m: map<string, S>, f: (string, S) -> Outcome)
  {
    forall k :: k in m ==> f(k, m[k]).errors == []
  }

  /** The concatenation has no error iff no entry has one. */
  lemma OutcomesOfWithoutError<S>(m: map<string, S>, f: (string, S) -> Outcome)
    ensures Concat(OutcomesOf(m, f)).errors == [] <==> NoneFails(m, f)
  {
    ConcatSpec(OutcomesOf(m, f));
    if Concat(OutcomesOf(m, f)).errors == [] {
      forall k | k in m
        ensures f(k, m[k]).errors == []
      {
        OutcomesOfIndex(m, f, k);
      }
    }
  }

  type Decoder = string -> Result<Compose.DockerCompose>

  // ---------------------------------------------------------------------
  // Validation

  /** Why a request fails validation. */
  datatype ValidationFailure = UnsupportedContentType(contentType: string) | InvalidFile(reason: string)
  {
    function Text(): string
    {
      match this
      case UnsupportedContentType(t) => "unsupported content type: " + t
      case InvalidFile(e) => "invalid docker-compose file: " + e
    }
  }

  /** Validate: the content type must be "docker-compose" and the text must parse; the
    * type is checked first. */
  function ValidationError(content: string, contentType: string, decode: Decoder): (r: Option<ValidationFailure>)
    ensures r.None? <==> contentType == "docker-compose" && Compose.Parsed(content, decode).Ok?
    ensures r == Some(UnsupportedContentType(contentType)) <==> contentType != "docker-compose"
    ensures r.Some? && r.value.InvalidFile? ==> r.value.reason == Compose.Parsed(content, decode).error
  {
    if contentType != "docker-compose" then Some(UnsupportedContentType(contentType))
    else match Compose.Parsed(content, decode)
      case Err(e) => Some(InvalidFile(e))
      case Ok(_) => None
  }

  /** Validate. */
  method Validate(content: string, contentType: string, decode: Decoder) returns (r: Option<ValidationFailure>)
    ensures r == ValidationError(content, contentType, decode)
  {
    if contentType != "docker-compose" {
      return Some(UnsupportedContentType(contentType));
    }
    var parsed := Compose.ParseDockerCompose(content, decode);
    if parsed.Err? {
      return Some(InvalidFile(parsed.error));
    }
    return None;
  }

  // ---------------------------------------------------------------------
  // Generator options

  /** extractGeneratorOptions: each option replaces its default only when it has the
    * expected runtime type; replicas is read only from a float. */
  function OptionsFrom(options: map<string, Value>): (o: GeneratorOptions)
    ensures Lookup(options, "namespace").Str? ==> o.namespace == Lookup(options, "namespace").s
    ensures !Lookup(options, "namespace").Str? ==> o.namespace == DefaultGeneratorOptions().namespace
    ensures Lookup(options, "labels").Map? ==> o.labels == Generator.Shown(Lookup(options, "labels").fields)
    ensures !Lookup(options, "labels").Map? ==> o.labels == DefaultGeneratorOptions().labels
    ensures Lookup(options, "annotations").Map? ==> o.annotations == Generator.Shown(Lookup(options, "annotations").fields)
    ensures !Lookup(options, "annotations").Map? ==> o.annotations == DefaultGeneratorOptions().annotations
    ensures Lookup(options, "imagePullPolicy").Str? ==> o.imagePullPolicy == Lookup(options, "imagePullPolicy").s
    ensures !Lookup(options, "imagePullPolicy").Str? ==> o.imagePullPolicy == DefaultGeneratorOptions().imagePullPolicy
    ensures Lookup(options, "serviceType").Str? ==> o.serviceType == Lookup(options, "serviceType").s
    ensures !Lookup(options, "serviceType").Str? ==> o.serviceType == DefaultGeneratorOptions().serviceType
    ensures Lookup(options, "replicas").Float? ==> o.replicas == Wrap32(Truncate(Lookup(options, "replicas").f))
    ensures !Lookup(options, "replicas").Float? ==> o.replicas == DefaultGeneratorOptions().replicas
    ensures -MaxInt32 - 1 <= o.replicas <= MaxInt32
    ensures var v := Lookup(options, "replicas");
      v.Float? && v.f.Floor as real == v.f && -MaxInt32 - 1 <= v.f.Floor <= MaxInt32 ==> o.replicas == v.f.Floor
  {
    var d := DefaultGeneratorOptions();
    var namespace := Lookup(options, "namespace");
    var labels := Lookup(options, "labels");
    var annotations := Lookup(options, "annotations");
    var pullPolicy := Lookup(options, "imagePullPolicy");
    var serviceType := Lookup(options, "serviceType");
    var replicas := Lookup(options, "replicas");
    GeneratorOptions(
      if namespace.Str? then namespace.s else d.namespace,
      if labels.Map? then Generator.Shown(labels.fields) else d.labels,
      if annotations.Map? then Generator.Shown(annotations.fields) else d.annotations,
      if pullPolicy.Str? then pullPolicy.s else d.imagePullPolicy,
      if serviceType.Str? then serviceType.s else d.serviceType,
      if replicas.Float? then Wrap32(Truncate(replicas.f)) else d.replicas)
  }

  /** The `%v` rendering of every entry of a map, filled key by key. */
  method ShowEach(m: map<string, Value>) returns (r: map<string, string>)
    ensures r == Generator.Shown(m)
  {
    var keys := SortedKeys(m.Keys);
    r := map[];
    for i := 0 to |keys|
      invariant forall j :: 0 <= j < i ==> keys[j] in r
      invariant forall k :: k in r ==> k in m && r[k] == Show(m[k])
    {
      r := r[keys[i] := Show(m[keys[i]])];
    }
    assert r.Keys == m.Keys by {
      forall k | k in m ensures k in r {
        assert k in keys;
      }
    }
  }

  /** extractGeneratorOptions. */
  method ExtractGeneratorOptions(options: map<string, Value>) returns (opts: GeneratorOptions)
    ensures opts == OptionsFrom(options)
  {
    opts := DefaultGeneratorOptions();
    var namespace := Lookup(options, "namespace");
    if namespace.Str? {
      opts := opts.(namespace := namespace.s);
    }
    var labels := Lookup(options, "labels");
    if labels.Map? {
      var shown := ShowEach(labels.fields);
      opts := opts.(labels := shown);
    }
    var annotations := Lookup(options, "annotations");
    if annotations.Map? {
      var shown := ShowEach(annotations.fields);
      opts := opts.(annotations := shown);
    }
    var pullPolicy := Lookup(options, "imagePullPolicy");
    if pullPolicy.Str? {
      opts := opts.(imagePullPolicy := pullPolicy.s);
    }
    var serviceType := Lookup(options, "serviceType");
    if serviceType.Str? {
      opts := opts.(serviceType := serviceType.s);
    }
    var replicas := Lookup(options, "replicas");
    if replicas.Float? {
      opts := opts.(replicas := Wrap32(Truncate(replicas.f)));
    }
  }

  // ---------------------------------------------------------------------
  // The service as the generators see it

  /** The health-check block: only the set fields, durations as text. */
  function HealthData(h: Compose.HealthCheck, durationText: int -> string): map<string, Value>
  {
    var withTest := if !h.test.Null? then map["test" := h.test] else map[];
    var withInterval := if h.interval > 0 then withTest["interval" := Str(durationText(h.interval))] else withTest;
    var withTimeout := if h.timeout > 0 then withInterval["timeout" := Str(durationText(h.timeout))] else withInterval;
    if h.retries > 0 then withTimeout["retries" := Int(h.retries)] else withTimeout
  }

  /** A limits or reservations block: only the non-empty amounts. */
  function AmountsData(l: Compose.ResourceLimits): map<string, Value>
  {
    var withMemory := if l.memory != "" then map["memory" := Str(l.memory)] else map[];
    if l.cpus != "" then withMemory["cpus" := Str(l.cpus)] else withMemory
  }

  /** The deploy block, with its resources when present. */
  function DeployData(d: Compose.DeployConfig): map<string, Value>
  {
    if d.resources.None? then map[]
    else
      var r := d.resources.value;
      var withLimits := if r.limits.Some? then map["limits" := Map(AmountsData(r.limits.value))] else map[];
      var resources := if r.reservations.Some? then withLimits["reservations" := Map(AmountsData(r.reservations.value))] else withLimits;
      map["resources" := Map(resources)]
  }

  /** The map with `key` set to `v` when the field is present. */
  function Put(m: map<string, Value>, present: bool, key: string, v: Value): (r: map<string, Value>)
  {
    if present then m[key := v] else m
  }

  /** The image, ports, environment and volumes of a service. */
  function ContainerFields(service: Compose.Service): map<string, Value>
  {
    var m1 := Put(map[], service.image != "", "image", Str(service.image));
    var m2 := Put(m1, |service.ports| > 0, "ports", List(Strings(service.ports)));
    var m3 := Put(m2, !service.environment.Null?, "environment", service.environment);
    Put(m3, |service.volumes| > 0, "volumes", List(Strings(service.volumes)))
  }

  /** The command, entrypoint, working directory and user of a service. */
  function ProcessFields(m: map<string, Value>, service: Compose.Service): map<string, Value>
  {
    var m1 := Put(m, !service.command.Null?, "command", service.command);
    var m2 := Put(m1, !service.entrypoint.Null?, "entrypoint", service.entrypoint);
    var m3 := Put(m2, service.workingDir != "", "working_dir", Str(service.workingDir));
    Put(m3, service.user != "", "user", Str(service.user))
  }

  /** The privileged and read-only flags, the health check and the deploy block. */
  function RuntimeFields(m: map<string, Value>, service: Compose.Service, durationText: int -> string): map<string, Value>
  {
    var m1 := Put(m, service.privileged, "privileged", Bool(true));
    var m2 := Put(m1, service.readOnly, "read_only", Bool(true));
    var m3 := Put(m2, service.healthCheck.Some?, "healthcheck",
                  if service.healthCheck.Some? then Map(HealthData(service.healthCheck.value, durationText)) else Null);
    Put(m3, service.deploy.Some?, "deploy", if service.deploy.Some? then Map(DeployData(service.deploy.value)) else Null)
  }

  /** serviceToMap, as a value: one key per set field. */
  function ServiceData(service: Compose.Service, durationText: int -> string): map<string, Value>
  {
    RuntimeFields(ProcessFields(ContainerFields(service), service), service, durationText)
  }

  /** The keys ContainerFields sets: those of the set fields among its four. */
  function ContainerKeys(service: Compose.Service): set<string>
  {
    (if service.image != "" then {"image"} else {})
    + (if |service.ports| > 0 then {"ports"} else {})
    + (if !service.environment.Null? then {"environment"} else {})
    + (if |service.volumes| > 0 then {"volumes"} else {})
  }

  /** The keys ProcessFields adds. */
  function ProcessKeys(service: Compose.Service): set<string>
  {
    (if !service.command.Null? then {"command"} else {})
    + (if !service.entrypoint.Null? then {"entrypoint"} else {})
    + (if service.workingDir != "" then {"working_dir"} else {})
    + (if service.user != "" then {"user"} else {})
  }

  /** The keys RuntimeFields adds. */
  function RuntimeKeys(service: Compose.Service): set<string>
  {
    (if service.privileged then {"privileged"} else {})
    + (if service.readOnly then {"read_only"} else {})
    + (if service.healthCheck.Some? then {"healthcheck"} else {})
    + (if service.deploy.Some? then {"deploy"} else {})
  }

  /** The names of the fields serviceToMap emits: exactly the set ones. */
  function SetFields(service: Compose.Service): set<string>
  {
    ContainerKeys(service) + ProcessKeys(service) + RuntimeKeys(service)
  }

  lemma ContainerFieldsKeys(service: Compose.Service)
    ensures ContainerFields(service).Keys == ContainerKeys(service)
  {
  }

  lemma ProcessFieldsKeys(m: map<string, Value>, service: Compose.Service)
    ensures ProcessFields(m, service).Keys == m.Keys + ProcessKeys(service)
  {
  }

  lemma RuntimeFieldsKeys(m: map<string, Value>, service: Compose.Service, durationText: int -> string)
    ensures RuntimeFields(m, service, durationText).Keys == m.Keys + RuntimeKeys(service)
  {
  }

  /** serviceToMap emits a key exactly for each set field. */
  lemma ServiceDataKeys(service: Compose.Service, durationText: int -> string)
    ensures ServiceData(service, durationText).Keys == SetFields(service)
  {
    ContainerFieldsKeys(service);
    ProcessFieldsKeys(ContainerFields(service), service);
    RuntimeFieldsKeys(ProcessFields(ContainerFields(service), service), service, durationText);
  }

  /** The second part of serviceToMap leaves the entries of the first alone. */
  lemma ProcessFieldsKeep(m: map<string, Value>, service: Compose.Service, k: string)
    requires k == "image" || k == "ports" || k == "environment" || k == "volumes"
    ensures var r := ProcessFields(m, service);
      (k in r <==> k in m) && (k in m ==> r[k] == m[k])
  {
    assert k != "command" && k != "entrypoint" && k != "working_dir" && k != "user";
  }

  /** The last part of serviceToMap leaves the entries of the first alone. */
  lemma RuntimeFieldsKeep(m: map<string, Value>, service: Compose.Service, durationText: int -> string, k: string)
    requires k == "image" || k == "ports" || k == "environment" || k == "volumes"
    ensures var r := RuntimeFields(m, service, durationText);
      (k in r <==> k in m) && (k in m ==> r[k] == m[k])
  {
    assert k != "privileged" && k != "read_only" && k != "healthcheck" && k != "deploy";
  }

  /** The later parts of serviceToMap leave the image, ports, environment and volumes
    * entries alone. */
  lemma LaterFieldsKeep(m: map<string, Value>, service: Compose.Service, durationText: int -> string, k: string)
    requires k == "image" || k == "ports" || k == "environment" || k == "volumes"
    ensures var r := RuntimeFields(ProcessFields(m, service), service, durationText);
      (k in r <==> k in m) && (k in m ==> r[k] == m[k])
  {
    ProcessFieldsKeep(m, service, k);
    RuntimeFieldsKeep(ProcessFields(m, service), service, durationText, k);
  }

  /** The first part of serviceToMap holds the image, the ports and volumes lists and
    * the environment as it is. */
  lemma ContainerFieldsLists(service: Compose.Service)
    ensures var c := ContainerFields(service);
      (service.image != "" ==> "image" in c && c["image"] == Str(service.image))
      && (|service.ports| > 0 ==> "ports" in c && c["ports"] == List(Strings(service.ports)))
      && (!service.environment.Null? ==> "environment" in c && c["environment"] == service.environment)
      && (|service.volumes| > 0 ==> "volumes" in c && c["volumes"] == List(Strings(service.volumes)))
  {
    assert "volumes" != "image" && "volumes" != "ports" && "volumes" != "environment";
    assert "ports" != "environment";
  }

  /** The generators read back the image, the environment and the ports and volumes
    * lists of the service in their original order. */
  lemma ServiceDataLists(service: Compose.Service, durationText: int -> string)
    ensures var m := ServiceData(service, durationText);
      (service.image != "" ==> "image" in m && m["image"] == Str(service.image))
      && (|service.ports| > 0 ==> "ports" in m && m["ports"] == List(Strings(service.ports))
                                  && StringItems(m["ports"].items) == service.ports)
      && (!service.environment.Null? ==> "environment" in m && m["environment"] == service.environment)
      && (|service.volumes| > 0 ==> "volumes" in m && m["volumes"] == List(Strings(service.volumes))
                                    && StringItems(m["volumes"].items) == service.volumes)
      && ("ports" in m <==> |service.ports| > 0) && ("environment" in m <==> !service.environment.Null?)
      && ("volumes" in m <==> |service.volumes| > 0)
  {
    var c := ContainerFields(service);
    ContainerFieldsLists(service);
    ContainerFieldsKeys(service);
    LaterFieldsKeep(c, service, durationText, "image");
    LaterFieldsKeep(c, service, durationText, "ports");
    LaterFieldsKeep(c, service, durationText, "environment");
    LaterFieldsKeep(c, service, durationText, "volumes");
    StringItemsOfStrings(service.ports);
    StringItemsOfStrings(service.volumes);
  }

  /** Copies a list of strings into a list of values. */
  method StringValues(ss: seq<string>) returns (r: seq<Value>)
    ensures r == Strings(ss)
    ensures StringItems(r) == ss
  {
    r := [];
    var i := 0;
    while i < |ss|
      invariant 0 <= i <= |ss|
      invariant r == Strings(ss[..i])
    {
      assert Strings(ss[..i + 1]) == Strings(ss[..i]) + [Str(ss[i])];
      r := r + [Str(ss[i])];
      i := i + 1;
    }
    assert ss[..i] == ss;
    StringItemsOfStrings(ss);
  }

  /** serviceToMap, first part: image, ports, environment and volumes. */
  method PutContainerFields(service: Compose.Service) returns (result: map<string, Value>)
    ensures result == ContainerFields(service)
  {
    result := map[];
    if service.image != "" {
      result := result["image" := Str(service.image)];
    }
    if |service.ports| > 0 {
      var ports := StringValues(service.ports);
      result := result["ports" := List(ports)];
    }
    if !service.environment.Null? {
      result := result["environment" := service.environment];
    }
    if |service.volumes| > 0 {
      var volumes := StringValues(service.volumes);
      result := result["volumes" := List(volumes)];
    }
  }

  /** serviceToMap, second part: command, entrypoint, working directory and user. */
  method PutProcessFields(m: map<string, Value>, service: Compose.Service) returns (result: map<string, Value>)
    ensures result == ProcessFields(m, service)
  {
    result := m;
    if !service.command.Null? {
      result := result["command" := service.command];
    }
    if !service.entrypoint.Null? {
      result := result["entrypoint" := service.entrypoint];
    }
    if service.workingDir != "" {
      result := result["working_dir" := Str(service.workingDir)];
    }
    if service.user != "" {
      result := result["user" := Str(service.user)];
    }
  }

  /** serviceToMap, last part: the flags, the health check and the deploy block. */
  method PutRuntimeFields(m: map<string, Value>, service: Compose.Service, durationText: int -> string)
    returns (result: map<string, Value>)
    ensures result == RuntimeFields(m, service, durationText)
  {
    result := m;
    if service.privileged {
      result := result["privileged" := Bool(true)];
    }
    if service.readOnly {
      result := result["read_only" := Bool(true)];
    }
    if service.healthCheck.Some? {
      result := result["healthcheck" := Map(HealthData(service.healthCheck.value, durationText))];
    }
    if service.deploy.Some? {
      result := result["deploy" := Map(DeployData(service.deploy.value))];
    }
  }

  /** serviceToMap. */
  method ServiceToMap(service: Compose.Service, durationText: int -> string) returns (result: map<string, Value>)
    ensures result == ServiceData(service, durationText)
  {
    result := PutContainerFields(service);
    result := PutProcessFields(result, service);
    result := PutRuntimeFields(result, service, durationText);
  }

  // ---------------------------------------------------------------------
  // Advisory warnings

  const CheckedFeatures: seq<Feature> := [CustomNetworks, DependsOn, PidMode, IpcMode, ShmSize]

  /** The position of a feature in the order of the checks. */
  function Ordinal(f: Feature): nat
  {
    match f
    case CustomNetworks => 0
    case DependsOn => 1
    case PidMode => 2
    case IpcMode => 3
    case ShmSize => 4
  }

  /** The service uses the feature in a way Kubernetes has no direct equivalent for. */
  predicate Unsupported(f: Feature, service: Compose.Service)
  {
    match f
    case CustomNetworks => service.networks.NetMap? && |service.networks.nets| > 0
    case DependsOn => service.dependsOn.DepMap? && |service.dependsOn.deps| > 0
    case PidMode => service.pidMode != "" && service.pidMode != "none"
    case IpcMode => service.ipcMode != "" && service.ipcMode != "none"
    case ShmSize => service.shmSize != ""
  }

  /** The warning raised for a feature of the named service; the pid and ipc warnings
    * quote the mode. */
  function Advisory(f: Feature, name: string, service: Compose.Service): ConversionWarning
  {
    ConversionWarning(UnsupportedFeature(f), name,
      if f == PidMode then service.pidMode else if f == IpcMode then service.ipcMode else "")
  }

  /** One check: the feature's warning is appended when the service uses it unsupportedly. */
  function Raise(warnings: seq<ConversionWarning>, f: Feature, name: string, service: Compose.Service): seq<ConversionWarning>
  {
    if Unsupported(f, service) then warnings + [Advisory(f, name, service)] else warnings
  }

  /** checkUnsupportedFeatures, as a value: the five checks in order. */
  function Advisories(name: string, service: Compose.Service): seq<ConversionWarning>
  {
    var w1 := Raise([], CustomNetworks, name, service);
    var w2 := Raise(w1, DependsOn, name, service);
    var w3 := Raise(w2, PidMode, name, service);
    var w4 := Raise(w3, IpcMode, name, service);
    Raise(w4, ShmSize, name, service)
  }

  /** The checks of the features `fs`, in that order. */
  function RaiseAll(warnings: seq<ConversionWarning>, fs: seq<Feature>, name: string, service: Compose.Service)
    : seq<ConversionWarning>
    decreases |fs|
  {
    if fs == [] then warnings else RaiseAll(Raise(warnings, fs[0], name, service), fs[1..], name, service)
  }

  /** The features among `fs` the service uses unsupportedly, in the order of `fs`. */
  function UnsupportedAmong(fs: seq<Feature>, service: Compose.Service): seq<Feature>
  {
    if fs == [] then []
    else (if Unsupported(fs[0], service) then [fs[0]] else []) + UnsupportedAmong(fs[1..], service)
  }

  /** The warnings of the features `fs`, in that order. */
  function AdvisoriesOf(fs: seq<Feature>, name: string, service: Compose.Service): seq<ConversionWarning>
  {
    if fs == [] then [] else [Advisory(fs[0], name, service)] + AdvisoriesOf(fs[1..], name, service)
  }

  /** A feature is picked out iff it is among `fs` and unsupported. */
  lemma {:induction false} UnsupportedAmongSpec(fs: seq<Feature>, service: Compose.Service)
    ensures forall f :: f in UnsupportedAmong(fs, service) <==> f in fs && Unsupported(f, service)
  {
    if fs != [] {
      UnsupportedAmongSpec(fs[1..], service);
      assert forall f :: f in fs <==> f == fs[0] || f in fs[1..];
    }
  }

  /** The i-th warning is that of the i-th feature. */
  lemma {:induction false} AdvisoriesOfSpec(fs: seq<Feature>, name: string, service: Compose.Service)
    ensures var r := AdvisoriesOf(fs, name, service);
      |r| == |fs| && forall i :: 0 <= i < |fs| ==> r[i] == Advisory(fs[i], name, service)
  {
    if fs != [] {
      AdvisoriesOfSpec(fs[1..], name, service);
    }
  }

  /** Running the checks of `fs` appends the warnings of exactly the unsupported
    * features of `fs`, in order. */
  lemma {:induction false} RaiseAllSpec(warnings: seq<ConversionWarning>, fs: seq<Feature>, name: string, service: Compose.Service)
    ensures RaiseAll(warnings, fs, name, service) == warnings + AdvisoriesOf(UnsupportedAmong(fs, service), name, service)
    decreases |fs|
  {
    if fs == [] {
      assert warnings + [] == warnings;
    } else {
      var next := Raise(warnings, fs[0], name, service);
      RaiseAllSpec(next, fs[1..], name, service);
      var u := UnsupportedAmong(fs, service);
      var rest := AdvisoriesOf(UnsupportedAmong(fs[1..], service), name, service);
      if Unsupported(fs[0], service) {
        assert u[1..] == UnsupportedAmong(fs[1..], service);
        assert AdvisoriesOf(u, name, service) == [Advisory(fs[0], name, service)] + rest;
        assert next + rest == warnings + ([Advisory(fs[0], name, service)] + rest);
      } else {
        assert u == UnsupportedAmong(fs[1..], service);
      }
    }
  }

  /** The features are in strictly increasing check order. */
  predicate InCheckOrder(fs: seq<Feature>)
  {
    forall i, j :: 0 <= i < j < |fs| ==> Ordinal(fs[i]) < Ordinal(fs[j])
  }

  /** A feature checked before all of an ordered list can go in front of it. */
  lemma InCheckOrderCons(f: Feature, fs: seq<Feature>)
    requires InCheckOrder(fs)
    requires forall x :: x in fs ==> Ordinal(f) < Ordinal(x)
    ensures InCheckOrder([f] + fs)
  {
    var u := [f] + fs;
    forall i, j | 0 <= i < j < |u| ensures Ordinal(u[i]) < Ordinal(u[j]) {
      assert u[j] == fs[j - 1];
      if i > 0 {
        assert u[i] == fs[i - 1];
      } else {
        assert fs[j - 1] in fs;
      }
    }
  }

  /** Picking features out of an ordered list keeps them ordered. */
  lemma {:induction false} UnsupportedAmongOrdered(fs: seq<Feature>, service: Compose.Service)
    requires InCheckOrder(fs)
    ensures InCheckOrder(UnsupportedAmong(fs, service))
  {
    if fs != [] {
      var rest := UnsupportedAmong(fs[1..], service);
      assert InCheckOrder(fs[1..]) by {
        forall i, j | 0 <= i < j < |fs[1..]| ensures Ordinal(fs[1..][i]) < Ordinal(fs[1..][j]) {
          assert fs[1..][i] == fs[i + 1] && fs[1..][j] == fs[j + 1];
        }
      }
      UnsupportedAmongOrdered(fs[1..], service);
      if Unsupported(fs[0], service) {
        UnsupportedAmongSpec(fs[1..], service);
        forall x | x in rest ensures Ordinal(fs[0]) < Ordinal(x) {
          var k :| 0 <= k < |fs[1..]| && fs[1..][k] == x;
          assert fs[k + 1] == x;
        }
        InCheckOrderCons(fs[0], rest);
      }
    }
  }

  /** Advisories runs the checks of the checked features, in order. */
  lemma AdvisoriesInOrder(name: string, service: Compose.Service)
    ensures Advisories(name, service) == RaiseAll([], CheckedFeatures, name, service)
  {
    var fs := CheckedFeatures;
    var w1 := Raise([], CustomNetworks, name, service);
    var w2 := Raise(w1, DependsOn, name, service);
    var w3 := Raise(w2, PidMode, name, service);
    var w4 := Raise(w3, IpcMode, name, service);
    assert fs[1..][1..][1..][1..][1..] == [];
    assert RaiseAll(w4, fs[1..][1..][1..][1..], name, service) == Raise(w4, ShmSize, name, service);
    assert RaiseAll(w3, fs[1..][1..][1..], name, service) == RaiseAll(w4, fs[1..][1..][1..][1..], name, service);
    assert RaiseAll(w2, fs[1..][1..], name, service) == RaiseAll(w3, fs[1..][1..][1..], name, service);
    assert RaiseAll(w1, fs[1..], name, service) == RaiseAll(w2, fs[1..][1..], name, service);
  }

  /** checkUnsupportedFeatures raises one warning per unsupported feature and no other,
    * in the order networks, depends_on, pid, ipc, shm, each naming the service; only
    * the depends_on warning carries a suggestion. */
  lemma AdvisoriesSpec(name: string, service: Compose.Service)
    ensures var r := Advisories(name, service);
      var u := UnsupportedAmong(CheckedFeatures, service);
      (forall f :: f in u <==> Unsupported(f, service))
      && InCheckOrder(u)
      && r == AdvisoriesOf(u, name, service)
      && |r| == |u| && forall i :: 0 <= i < |u| ==> r[i] == Advisory(u[i], name, service)
  {
    var fs := CheckedFeatures;
    forall f ensures f in fs {
      assert fs[Ordinal(f)] == f;
    }
    UnsupportedAmongSpec(fs, service);
    UnsupportedAmongOrdered(fs, service);
    AdvisoriesOfSpec(UnsupportedAmong(fs, service), name, service);
    AdvisoriesInOrder(name, service);
    RaiseAllSpec([], fs, name, service);
    assert [] + AdvisoriesOf(UnsupportedAmong(fs, service), name, service) == AdvisoriesOf(UnsupportedAmong(fs, service), name, service);
  }

  /** Each advisory names the service and the feature; only the depends_on one carries a
    * suggestion, and the pid and ipc ones quote the mode. */
  lemma AdvisoryFields(f: Feature, name: string, service: Compose.Service)
    ensures var w := Advisory(f, name, service);
      w.code == UnsupportedFeature(f) && w.subject == name
      && (w.Suggestion() != "" <==> f == DependsOn)
      && (f == PidMode ==> w.detail == service.pidMode)
      && (f == IpcMode ==> w.detail == service.ipcMode)
  {
  }

  /** checkUnsupportedFeatures. */
  method CheckUnsupportedFeatures(name: string, service: Compose.Service) returns (warnings: seq<ConversionWarning>)
    ensures warnings == Advisories(name, service)
  {
    warnings := [];
    if service.networks.NetMap? && |service.networks.nets| > 0 {
      warnings := warnings + [Advisory(CustomNetworks, name, service)];
    }
    if service.dependsOn.DepMap? && |service.dependsOn.deps| > 0 {
      warnings := warnings + [Advisory(DependsOn, name, service)];
    }
    if service.pidMode != "" && service.pidMode != "none" {
      warnings := warnings + [Advisory(PidMode, name, service)];
    }
    if service.ipcMode != "" && service.ipcMode != "none" {
      warnings := warnings + [Advisory(IpcMode, name, service)];
    }
    if service.shmSize != "" {
      warnings := warnings + [Advisory(ShmSize, name, service)];
    }
  }

  // ---------------------------------------------------------------------
  // One service

  /** The four manifest generators the converter calls for each service. */
  datatype Generators = Generators(
    deployment: (string, Value, GeneratorOptions) -> Result<Deployment>,
    service: (string, Value, GeneratorOptions) -> Result<Option<Service>>,
    configMap: (string, Value, GeneratorOptions) -> Result<Option<ConfigMap>>,
    claims: (string, Value, GeneratorOptions) -> Result<seq<PersistentVolumeClaim>>)

  /** The Kubernetes generators of this model. */
  const KubernetesGenerators: Generators :=
    Generators(Generator.DeploymentFor, ServiceGenerator.ServiceFor, ServiceGenerator.ConfigMapFor, ServiceGenerator.ClaimsFor)

  /** The claim files of a service, numbered by their position in the list. */
  function ClaimFiles(name: string, claims: seq<PersistentVolumeClaim>, marshal: Object -> string): (r: seq<GeneratedFile>)
    ensures |r| == |claims|
    ensures forall i :: 0 <= i < |claims| ==> r[i] == GeneratedFile(ClaimFile(i), name, marshal(ClaimObject(claims[i])))
  {
    seq(|claims|, i requires 0 <= i < |claims| => GeneratedFile(ClaimFile(i), name, marshal(ClaimObject(claims[i]))))
  }

  /** The Deployment: a file, or a DEPLOYMENT_GENERATION_ERROR. */
  function DeploymentPart(name: string, deployment: Result<Deployment>, marshal: Object -> string): Outcome
  {
    match deployment
    case Err(e) => Outcome([], [ConversionError(DeploymentGenerationError, name, e)], [])
    case Ok(d) => Outcome([GeneratedFile(DeploymentFile, name, marshal(DeploymentObject(d)))], [], [])
  }

  /** The Service: a file when there is one, or a SERVICE_GENERATION_ERROR. */
  function ServicePart(name: string, service: Result<Option<Service>>, marshal: Object -> string): Outcome
  {
    match service
    case Err(e) => Outcome([], [ConversionError(ServiceGenerationError, name, e)], [])
    case Ok(None) => NoOutcome
    case Ok(Some(s)) => Outcome([GeneratedFile(ServiceFile, name, marshal(ServiceObject(s)))], [], [])
  }

  /** The ConfigMap: a file when there is one; a failure is only a warning. */
  function ConfigMapPart(name: string, configMap: Result<Option<ConfigMap>>, marshal: Object -> string): Outcome
  {
    match configMap
    case Err(e) => Outcome([], [], [ConversionWarning(ConfigMapGenerationWarning, name, e)])
    case Ok(None) => NoOutcome
    case Ok(Some(c)) => Outcome([GeneratedFile(ConfigMapFile, name, marshal(ConfigMapObject(c)))], [], [])
  }

  /** The claims: one file each; a failure is only a warning. */
  function ClaimsPart(name: string, claims: Result<seq<PersistentVolumeClaim>>, marshal: Object -> string): Outcome
  {
    match claims
    case Err(e) => Outcome([], [], [ConversionWarning(PvcGenerationWarning, name, e)])
    case Ok(cs) => Outcome(ClaimFiles(name, cs, marshal), [], [])
  }

  /** The four manifests of a service, from its data, in the order the converter
    * produces them. */
  function ManifestsOutcome(name: string, data: Value, gens: Generators, options: GeneratorOptions,
                            marshal: Object -> string): Outcome
  {
    DeploymentPart(name, gens.deployment(name, data, options), marshal)
      .Plus(ServicePart(name, gens.service(name, data, options), marshal))
      .Plus(ConfigMapPart(name, gens.configMap(name, data, options), marshal))
      .Plus(ClaimsPart(name, gens.claims(name, data, options), marshal))
  }

  /** convertService, as a value: the manifests, then the advisories. */
  function ServiceOutcome(name: string, service: Compose.Service, gens: Generators, options: GeneratorOptions,
                          marshal: Object -> string, durationText: int -> string): Outcome
  {
    ManifestsOutcome(name, Map(ServiceData(service, durationText)), gens, options, marshal)
      .Plus(Outcome([], [], Advisories(name, service)))
  }

  /** Only the Deployment and the Service can fail a service, and each failure is
    * reported once, against the service. */
  lemma ManifestErrors(name: string, data: Value, gens: Generators, options: GeneratorOptions, marshal: Object -> string)
    ensures var o := ManifestsOutcome(name, data, gens, options, marshal);
      (o.errors == [] <==> gens.deployment(name, data, options).Ok? && gens.service(name, data, options).Ok?)
      && |o.errors| <= 2
      && (forall e :: e in o.errors ==> e.subject == name && e.code in {DeploymentGenerationError, ServiceGenerationError})
  {
  }

  /** ConfigMap and claim failures are only warnings against the service. */
  lemma ManifestWarnings(name: string, data: Value, gens: Generators, options: GeneratorOptions, marshal: Object -> string)
    ensures var o := ManifestsOutcome(name, data, gens, options, marshal);
      (o.warnings == [] <==> gens.configMap(name, data, options).Ok? && gens.claims(name, data, options).Ok?)
      && (forall w :: w in o.warnings ==> w.subject == name && w.code in {ConfigMapGenerationWarning, PvcGenerationWarning})
  {
  }

  /** Every file is for the service, and none is a volume file. */
  lemma ManifestFiles(name: string, data: Value, gens: Generators, options: GeneratorOptions, marshal: Object -> string)
    ensures forall f :: f in ManifestsOutcome(name, data, gens, options, marshal).files ==> f.resource == name && !f.kind.VolumeFile?
  {
    var d := DeploymentPart(name, gens.deployment(name, data, options), marshal).files;
    var s := ServicePart(name, gens.service(name, data, options), marshal).files;
    var c := ConfigMapPart(name, gens.configMap(name, data, options), marshal).files;
    var v := ClaimsPart(name, gens.claims(name, data, options), marshal).files;
    var files := ManifestsOutcome(name, data, gens, options, marshal).files;
    assert files == d + s + c + v;
    assert ServiceFiles(d, name) && ServiceFiles(s, name) && ServiceFiles(c, name) && ServiceFiles(v, name);
    ServiceFilesAppend(d, s, name);
    ServiceFilesAppend(d + s, c, name);
    ServiceFilesAppend(d + s + c, v, name);
    forall f | f in files ensures f.resource == name && !f.kind.VolumeFile? {
      var i :| 0 <= i < |files| && files[i] == f;
    }
  }

  /** Files that all belong to one service, none of them a volume file. */
  predicate ServiceFiles(files: seq<GeneratedFile>, name: string)
  {
    forall i :: 0 <= i < |files| ==> files[i].resource == name && !files[i].kind.VolumeFile?
  }

  lemma ServiceFilesAppend(a: seq<GeneratedFile>, b: seq<GeneratedFile>, name: string)
    requires ServiceFiles(a, name) && ServiceFiles(b, name)
    ensures ServiceFiles(a + b, name)
  {
    forall i | 0 <= i < |a + b| ensures (a + b)[i].resource == name && !(a + b)[i].kind.VolumeFile? {
      if i >= |a| { assert (a + b)[i] == b[i - |a|]; }
    }
  }

  /** The Deployment's file comes first. */
  lemma DeploymentFileFirst(name: string, data: Value, gens: Generators, options: GeneratorOptions, marshal: Object -> string)
    requires gens.deployment(name, data, options).Ok?
    ensures var o := ManifestsOutcome(name, data, gens, options, marshal);
      |o.files| > 0 && o.files[0] == GeneratedFile(DeploymentFile, name, marshal(DeploymentObject(gens.deployment(name, data, options).value)))
  {
  }

  /** Every claim has its own numbered file. */
  lemma ClaimFilesPresent(name: string, data: Value, gens: Generators, options: GeneratorOptions, marshal: Object -> string)
    requires gens.claims(name, data, options).Ok?
    ensures var claims := gens.claims(name, data, options).value;
      forall i :: 0 <= i < |claims| ==>
        GeneratedFile(ClaimFile(i), name, marshal(ClaimObject(claims[i]))) in ManifestsOutcome(name, data, gens, options, marshal).files
  {
    var claims := gens.claims(name, data, options).value;
    var tail := ClaimsPart(name, gens.claims(name, data, options), marshal).files;
    assert forall i :: 0 <= i < |claims| ==> tail[i] == GeneratedFile(ClaimFile(i), name, marshal(ClaimObject(claims[i])));
  }

  /** A service's outcome is that of its manifests, with its advisories after their
    * warnings. */
  lemma ServiceOutcomeSpec(name: string, service: Compose.Service, gens: Generators, options: GeneratorOptions,
                           marshal: Object -> string, durationText: int -> string)
    ensures var o := ServiceOutcome(name, service, gens, options, marshal, durationText);
      var manifests := ManifestsOutcome(name, Map(ServiceData(service, durationText)), gens, options, marshal);
      o.files == manifests.files && o.errors == manifests.errors
      && o.warnings == manifests.warnings + Advisories(name, service)
  {
  }

  /** The claim files of one service, appended one by one. */
  method AppendClaimFiles(name: string, claims: seq<PersistentVolumeClaim>, marshal: Object -> string,
                          files: seq<GeneratedFile>) returns (r: seq<GeneratedFile>)
    ensures r == files + ClaimFiles(name, claims, marshal)
  {
    r := files;
    var i := 0;
    while i < |claims|
      invariant 0 <= i <= |claims|
      invariant r == files + ClaimFiles(name, claims, marshal)[..i]
    {
      assert ClaimFiles(name, claims, marshal)[..i + 1]
          == ClaimFiles(name, claims, marshal)[..i] + [GeneratedFile(ClaimFile(i), name, marshal(ClaimObject(claims[i])))];
      r := r + [GeneratedFile(ClaimFile(i), name, marshal(ClaimObject(claims[i])))];
      i := i + 1;
    }
    assert ClaimFiles(name, claims, marshal)[..i] == ClaimFiles(name, claims, marshal);
  }

  /** The manifest half of convertService: each generator in turn, a failure of the
    * Deployment or the Service recorded as an error, one of the ConfigMap or the claims
    * as a warning. */
  method GenerateManifests(name: string, data: Value, gens: Generators, options: GeneratorOptions,
                           marshal: Object -> string)
    returns (files: seq<GeneratedFile>, errors: seq<ConversionError>, warnings: seq<ConversionWarning>)
    ensures Outcome(files, errors, warnings) == ManifestsOutcome(name, data, gens, options, marshal)
  {
    files, errors, warnings := [], [], [];

    var deployment := gens.deployment(name, data, options);
    if deployment.Err? {
      errors := errors + [ConversionError(DeploymentGenerationError, name, deployment.error)];
    } else {
      files := files + [GeneratedFile(DeploymentFile, name, marshal(DeploymentObject(deployment.value)))];
    }
    ghost var sofar := DeploymentPart(name, deployment, marshal);
    assert Outcome(files, errors, warnings) == sofar;

    var kubernetesService := gens.service(name, data, options);
    if kubernetesService.Err? {
      errors := errors + [ConversionError(ServiceGenerationError, name, kubernetesService.error)];
    } else if kubernetesService.value.Some? {
      files := files + [GeneratedFile(ServiceFile, name, marshal(ServiceObject(kubernetesService.value.value)))];
    }
    sofar := sofar.Plus(ServicePart(name, kubernetesService, marshal));
    assert Outcome(files, errors, warnings) == sofar;

    var configMap := gens.configMap(name, data, options);
    if configMap.Err? {
      warnings := warnings + [ConversionWarning(ConfigMapGenerationWarning, name, configMap.error)];
    } else if configMap.value.Some? {
      files := files + [GeneratedFile(ConfigMapFile, name, marshal(ConfigMapObject(configMap.value.value)))];
    }
    sofar := sofar.Plus(ConfigMapPart(name, configMap, marshal));
    assert Outcome(files, errors, warnings) == sofar;

    var pvcs := gens.claims(name, data, options);
    if pvcs.Err? {
      warnings := warnings + [ConversionWarning(PvcGenerationWarning, name, pvcs.error)];
    } else {
      files := AppendClaimFiles(name, pvcs.value, marshal, files);
    }
  }

  /** convertService: the service's data, its manifests, then its advisories. */
  method ConvertService(name: string, service: Compose.Service, gens: Generators, options: GeneratorOptions,
                        marshal: Object -> string, durationText: int -> string)
    returns (files: seq<GeneratedFile>, errors: seq<ConversionError>, warnings: seq<ConversionWarning>)
    ensures Outcome(files, errors, warnings) == ServiceOutcome(name, service, gens, options, marshal, durationText)
  {
    var serviceData := ServiceToMap(service, durationText);
    files, errors, warnings := GenerateManifests(name, Map(serviceData), gens, options, marshal);
    var advisories := CheckUnsupportedFeatures(name, service);
    warnings := warnings + advisories;
  }

  // ---------------------------------------------------------------------
  // All services

  /** convertService, as a function of the service's name and definition. */
  function ServiceConverter(gens: Generators, options: GeneratorOptions, marshal: Object -> string,
                            durationText: int -> string): (string, Compose.Service) -> Outcome
  {
    (name, service) => ServiceOutcome(name, service, gens, options, marshal, durationText)
  }

  // ---------------------------------------------------------------------
  // Top-level volumes

  /** The persistent volume of a named volume: 1Gi, ReadWriteOnce, Retain, on the host
    * at /mnt/data/<name>, with the option labels and no namespace. */
  function PersistentVolumeFor(name: string, options: GeneratorOptions): PersistentVolume
  {
    PersistentVolume("v1", "PersistentVolume", Metadata(name, "", options.labels),
      PersistentVolumeSpec(map["storage" := "1Gi"], ["ReadWriteOnce"], "Retain", "/mnt/data/" + name))
  }

  /** A driver the converter accepts. */
  predicate LocalDriver(volume: Compose.Volume)
  {
    volume.driver == "" || volume.driver == "local"
  }

  /** The outcome of one volume: its file, or the error for its driver. */
  function VolumeOutcome(name: string, volume: Compose.Volume, options: GeneratorOptions, marshal: Object -> string): Outcome
  {
    if LocalDriver(volume) then Outcome([GeneratedFile(VolumeFile, name, marshal(VolumeObject(PersistentVolumeFor(name, options))))], [], [])
    else Outcome([], [ConversionError(UnsupportedVolumeDriver, name, volume.driver)], [])
  }

  /** One volume yields a volume file or a driver error, and no warning. */
  lemma VolumeOutcomeShape(name: string, volume: Compose.Volume, options: GeneratorOptions, marshal: Object -> string)
    ensures var o := VolumeOutcome(name, volume, options, marshal);
      o.warnings == [] && |o.files| + |o.errors| == 1
      && (forall f :: f in o.files ==> f.kind == VolumeFile)
      && (forall e :: e in o.errors ==> e.code == UnsupportedVolumeDriver)
  {
  }

  /** The volume step of convertVolumes, as a function of the volume's name and definition. */
  function VolumeConverter(options: GeneratorOptions, marshal: Object -> string): (string, Compose.Volume) -> Outcome
  {
    (name, volume) => VolumeOutcome(name, volume, options, marshal)
  }

  /** A local volume yields its persistent-volume file. */
  lemma LocalVolumeFile(volumes: map<string, Compose.Volume>, options: GeneratorOptions, marshal: Object -> string, k: string)
    requires k in volumes && LocalDriver(volumes[k])
    ensures GeneratedFile(VolumeFile, k, marshal(VolumeObject(PersistentVolumeFor(k, options))))
            in Concat(OutcomesOf(volumes, VolumeConverter(options, marshal))).files
  {
    OutcomesOfKeep(volumes, VolumeConverter(options, marshal), k);
  }

  /** Any other volume yields an error naming its driver. */
  lemma ForeignVolumeError(volumes: map<string, Compose.Volume>, options: GeneratorOptions, marshal: Object -> string, k: string)
    requires k in volumes && !LocalDriver(volumes[k])
    ensures ConversionError(UnsupportedVolumeDriver, k, volumes[k].driver) in Concat(OutcomesOf(volumes, VolumeConverter(options, marshal))).errors
  {
    OutcomesOfKeep(volumes, VolumeConverter(options, marshal), k);
  }

  /** Every volume of the map has a driver the converter accepts. */
  predicate AllVolumesLocal(volumes: map<string, Compose.Volume>)
  {
    forall k :: k in volumes ==> LocalDriver(volumes[k])
  }

  /** The volumes give no error iff every driver is local. */
  lemma VolumesWithoutError(volumes: map<string, Compose.Volume>, options: GeneratorOptions, marshal: Object -> string)
    ensures Concat(OutcomesOf(volumes, VolumeConverter(options, marshal))).errors == [] <==> AllVolumesLocal(volumes)
  {
    OutcomesOfWithoutError(volumes, VolumeConverter(options, marshal));
  }

  /** A local volume yields its persistent-volume file, any other one an error naming
    * the driver; one bad volume does not stop its siblings, and the volumes give no
    * error iff every driver is local. */
  lemma VolumesOutcomeSpec(volumes: map<string, Compose.Volume>, options: GeneratorOptions, marshal: Object -> string)
    ensures var r := Concat(OutcomesOf(volumes, VolumeConverter(options, marshal)));
      (forall k :: k in volumes && LocalDriver(volumes[k]) ==>
         GeneratedFile(VolumeFile, k, marshal(VolumeObject(PersistentVolumeFor(k, options)))) in r.files)
      && (forall k :: k in volumes && !LocalDriver(volumes[k]) ==>
            ConversionError(UnsupportedVolumeDriver, k, volumes[k].driver) in r.errors)
      && (r.errors == [] <==> AllVolumesLocal(volumes))
  {
    forall k | k in volumes && LocalDriver(volumes[k])
      ensures GeneratedFile(VolumeFile, k, marshal(VolumeObject(PersistentVolumeFor(k, options))))
              in Concat(OutcomesOf(volumes, VolumeConverter(options, marshal))).files
    {
      LocalVolumeFile(volumes, options, marshal, k);
    }
    forall k | k in volumes && !LocalDriver(volumes[k])
      ensures ConversionError(UnsupportedVolumeDriver, k, volumes[k].driver) in Concat(OutcomesOf(volumes, VolumeConverter(options, marshal))).errors
    {
      ForeignVolumeError(volumes, options, marshal, k);
    }
    VolumesWithoutError(volumes, options, marshal);
  }

  /** Volumes never warn. */
  lemma VolumesNeverWarn(volumes: map<string, Compose.Volume>, options: GeneratorOptions, marshal: Object -> string)
    ensures Concat(OutcomesOf(volumes, VolumeConverter(options, marshal))).warnings == []
  {
    ConcatWithoutWarnings(OutcomesOf(volumes, VolumeConverter(options, marshal)));
  }

  /** Volumes yield nothing but volume files and driver errors. */
  lemma VolumesOnlyVolumes(volumes: map<string, Compose.Volume>, options: GeneratorOptions, marshal: Object -> string)
    ensures forall f :: f in Concat(OutcomesOf(volumes, VolumeConverter(options, marshal))).files ==> f.kind == VolumeFile
    ensures forall e :: e in Concat(OutcomesOf(volumes, VolumeConverter(options, marshal))).errors ==> e.code == UnsupportedVolumeDriver
  {
    var convert := VolumeConverter(options, marshal);
    OutcomesOfSources(volumes, convert);
    forall f | f in Concat(OutcomesOf(volumes, convert)).files
      ensures f.kind == VolumeFile
    {
      var k :| k in volumes && f in convert(k, volumes[k]).files;
      VolumeOutcomeShape(k, volumes[k], options, marshal);
    }
    forall e | e in Concat(OutcomesOf(volumes, convert)).errors
      ensures e.code == UnsupportedVolumeDriver
    {
      var k :| k in volumes && e in convert(k, volumes[k]).errors;
      VolumeOutcomeShape(k, volumes[k], options, marshal);
    }
  }

  /** convertVolumes. */
  method ConvertVolumes(volumes: map<string, Compose.Volume>, options: GeneratorOptions, marshal: Object -> string)
    returns (files: seq<GeneratedFile>, errors: seq<ConversionError>)
    ensures Outcome(files, errors, []) == Concat(OutcomesOf(volumes, VolumeConverter(options, marshal)))
  {
    ghost var outcomes := OutcomesOf(volumes, VolumeConverter(options, marshal));
    var keys := SortedKeys(volumes.Keys);
    files, errors := [], [];
    var i := 0;
    while i < |keys|
      invariant 0 <= i <= |keys|
      invariant Outcome(files, errors, []) == Concat(outcomes[..i])
    {
      var name := keys[i];
      var volume := volumes[name];
      ghost var one := VolumeOutcome(name, volume, options, marshal);
      ConcatPrefix(outcomes, i);
      if volume.driver != "" && volume.driver != "local" {
        errors := errors + [ConversionError(UnsupportedVolumeDriver, name, volume.driver)];
        assert one == Outcome([], [ConversionError(UnsupportedVolumeDriver, name, volume.driver)], []);
      } else {
        var pv := PersistentVolumeFor(name, options);
        files := files + [GeneratedFile(VolumeFile, name, marshal(VolumeObject(pv)))];
        assert one == Outcome([GeneratedFile(VolumeFile, name, marshal(VolumeObject(pv)))], [], []);
      }
      i := i + 1;
    }
    ConcatWhole(outcomes);
  }

  // ---------------------------------------------------------------------
  // Convert

  /** The services' outcomes, each from the given service conversion, then the
    * volumes' when there are any. */
  function DocumentOutcome(doc: Compose.DockerCompose, convertService: (string, Compose.Service) -> Outcome,
                           options: GeneratorOptions, marshal: Object -> string): Outcome
  {
    var services := Concat(OutcomesOf(doc.services, convertService));
    if |doc.volumes| > 0 then services.Plus(Concat(OutcomesOf(doc.volumes, VolumeConverter(options, marshal))))
    else services
  }

  /** A parsed file converts without error iff every service converts without error
    * and every volume has a local driver. */
  lemma DocumentWithoutError(doc: Compose.DockerCompose, convertService: (string, Compose.Service) -> Outcome,
                             options: GeneratorOptions, marshal: Object -> string)
    ensures DocumentOutcome(doc, convertService, options, marshal).errors == [] <==>
      NoneFails(doc.services, convertService) && AllVolumesLocal(doc.volumes)
  {
    var services := Concat(OutcomesOf(doc.services, convertService));
    OutcomesOfWithoutError(doc.services, convertService);
    if |doc.volumes| > 0 {
      var volumes := Concat(OutcomesOf(doc.volumes, VolumeConverter(options, marshal)));
      VolumesWithoutError(doc.volumes, options, marshal);
      assert DocumentOutcome(doc, convertService, options, marshal).errors == services.errors + volumes.errors;
    } else {
      assert DocumentOutcome(doc, convertService, options, marshal) == services;
      assert doc.volumes.Keys == {};
    }
  }

  /** The files, errors and warnings of every service of a parsed file reach the result. */
  lemma DocumentKeepsServices(doc: Compose.DockerCompose, convertService: (string, Compose.Service) -> Outcome,
                              options: GeneratorOptions, marshal: Object -> string, k: string)
    requires k in doc.services
    ensures var all := DocumentOutcome(doc, convertService, options, marshal);
      var o := convertService(k, doc.services[k]);
      (forall f :: f in o.files ==> f in all.files)
      && (forall e :: e in o.errors ==> e in all.errors)
      && (forall w :: w in o.warnings ==> w in all.warnings)
  {
    OutcomesOfKeep(doc.services, convertService, k);
  }

  /** Convert, as a value. */
  function Conversion(req: ConversionRequest, decode: Decoder, gens: Generators, marshal: Object -> string,
                      durationText: int -> string): ConversionResult
  {
    match ValidationError(req.content, req.contentType, decode)
    case Some(failure) => ConversionResult(false, [], [ConversionError(ValidationFailed, "", failure.Text())], [], None)
    case None =>
      var doc := Compose.Parsed(req.content, decode).value;
      var options := OptionsFrom(req.options);
      var all := DocumentOutcome(doc, ServiceConverter(gens, options, marshal, durationText), options, marshal);
      ConversionResult(|all.errors| == 0, all.files, all.errors, all.warnings,
                       Some(ConversionMetadata(|doc.services|, |doc.volumes|, doc.version)))
  }

  /** A request that fails validation gives exactly one VALIDATION_ERROR, carrying the
    * validation message, and nothing else; otherwise the result is that of the parsed
    * file, the metadata counts the services and volumes and repeats the version, and
    * the conversion succeeds iff no error was reported. */
  lemma ConversionSpec(req: ConversionRequest, decode: Decoder, gens: Generators, marshal: Object -> string,
                       durationText: int -> string)
    ensures var r := Conversion(req, decode, gens, marshal, durationText);
      var failure := ValidationError(req.content, req.contentType, decode);
      (r.success <==> r.errors == [])
      && (failure.Some? ==>
            r.files == [] && r.warnings == [] && r.metadata.None?
            && r.errors == [ConversionError(ValidationFailed, "", failure.value.Text())])
      && (failure.None? ==>
            var doc := Compose.Parsed(req.content, decode).value;
            var options := OptionsFrom(req.options);
      var all := DocumentOutcome(doc, ServiceConverter(gens, options, marshal, durationText), options, marshal);
            r.files == all.files && r.errors == all.errors && r.warnings == all.warnings
            && r.metadata == Some(ConversionMetadata(|doc.services|, |doc.volumes|, doc.version)))
  {
  }

  /** Every service of the parsed file yields its Deployment and its Service. */
  predicate ManifestsGenerate(doc: Compose.DockerCompose, gens: Generators, options: GeneratorOptions,
                              durationText: int -> string)
  {
    forall k :: k in doc.services ==>
      gens.deployment(k, Map(ServiceData(doc.services[k], durationText)), options).Ok?
      && gens.service(k, Map(ServiceData(doc.services[k], durationText)), options).Ok?
  }

  /** A request that validates, whose every service yields its Deployment and its
    * Service and whose every volume is local, converts successfully, and every service
    * has its Deployment file among the files. */
  lemma ConversionSucceeds(req: ConversionRequest, decode: Decoder, gens: Generators, marshal: Object -> string,
                           durationText: int -> string)
    requires ValidationError(req.content, req.contentType, decode).None?
    requires ManifestsGenerate(Compose.Parsed(req.content, decode).value, gens, OptionsFrom(req.options), durationText)
    requires AllVolumesLocal(Compose.Parsed(req.content, decode).value.volumes)
    ensures var r := Conversion(req, decode, gens, marshal, durationText);
      var doc := Compose.Parsed(req.content, decode).value;
      r.success
      && forall k :: k in doc.services ==> exists f :: f in r.files && f.kind == DeploymentFile && f.resource == k
  {
    var doc := Compose.Parsed(req.content, decode).value;
    var options := OptionsFrom(req.options);
    var convert := ServiceConverter(gens, options, marshal, durationText);
    ConversionSpec(req, decode, gens, marshal, durationText);
    forall k | k in doc.services
      ensures convert(k, doc.services[k]).errors == []
    {
      var data := Map(ServiceData(doc.services[k], durationText));
      ServiceOutcomeSpec(k, doc.services[k], gens, options, marshal, durationText);
      ManifestErrors(k, data, gens, options, marshal);
    }
    DocumentWithoutError(doc, convert, options, marshal);
    forall k | k in doc.services
      ensures exists f :: f in Conversion(req, decode, gens, marshal, durationText).files
                          && f.kind == DeploymentFile && f.resource == k
    {
      var data := Map(ServiceData(doc.services[k], durationText));
      ServiceOutcomeSpec(k, doc.services[k], gens, options, marshal, durationText);
      DeploymentFileFirst(k, data, gens, options, marshal);
      DocumentKeepsServices(doc, convert, options, marshal, k);
      assert convert(k, doc.services[k]).files[0] in convert(k, doc.services[k]).files;
    }
  }

  /** The real generators yield a service's Deployment and Service when it names an
    * image, every port parses for the container and for the Service, the environment
    * is absent or in one of the forms the generator reads, and every volume entry has
    * a host and a container path. */
  lemma KubernetesManifests(name: string, service: Compose.Service, options: GeneratorOptions, durationText: int -> string)
    requires service.image != ""
    requires forall j :: 0 <= j < |service.ports| ==>
      Generator.ParsePortMapping(service.ports[j]).Ok? && ServiceGenerator.ParseServicePortMapping(service.ports[j]).Ok?
    requires service.environment.Null? || Generator.EnvVarsFor(service.environment).Ok?
    requires forall j :: 0 <= j < |service.volumes| ==> |Split(service.volumes[j], ":")| >= 2
    ensures var data := Map(ServiceData(service, durationText));
      KubernetesGenerators.deployment(name, data, options).Ok? && KubernetesGenerators.service(name, data, options).Ok?
  {
    var m := ServiceData(service, durationText);
    ServiceDataLists(service, durationText);
    if |service.ports| > 0 {
      PortItemsParse(m["ports"].items, service.ports);
    }
    if |service.volumes| > 0 {
      Generator.VolumesForList(m, service.volumes);
    }
    DeploymentGenerates(name, m, options);
    ServiceGenerates(name, m, options);
  }

  /** Port items whose strings are entries that parse both ways parse in both loops. */
  lemma PortItemsParse(items: seq<Value>, ports: seq<string>)
    requires StringItems(items) == ports
    requires forall j :: 0 <= j < |ports| ==>
      Generator.ParsePortMapping(ports[j]).Ok? && ServiceGenerator.ParseServicePortMapping(ports[j]).Ok?
    ensures Generator.ParseStrings(Generator.ParsePortMapping, [], items).Ok?
    ensures Generator.ParseStrings(ServiceGenerator.ParseServicePortMapping, [], items).Ok?
  {
    Generator.ParseStringsOk(Generator.ParsePortMapping, [], items);
    Generator.ParseStringsOk(ServiceGenerator.ParseServicePortMapping, [], items);
    forall s | Str(s) in items
      ensures Generator.ParsePortMapping(s).Ok? && ServiceGenerator.ParseServicePortMapping(s).Ok?
    {
      assert s in ports;
    }
  }

  /** The Deployment generates when its container and its volumes do. */
  lemma DeploymentGenerates(name: string, m: map<string, Value>, options: GeneratorOptions)
    requires Lookup(m, "image").Str?
    requires "ports" in m ==> Generator.ContainerPortsFor(m["ports"]).Ok?
    requires "environment" in m ==> Generator.EnvVarsFor(m["environment"]).Ok?
    requires Generator.VolumesFor(m).Ok?
    ensures Generator.DeploymentFor(name, Map(m), options).Ok?
  {
  }

  /** The Service generates when its ports, if any, parse. */
  lemma ServiceGenerates(name: string, m: map<string, Value>, options: GeneratorOptions)
    requires "ports" in m && m["ports"].List? ==>
      Generator.ParseStrings(ServiceGenerator.ParseServicePortMapping, [], m["ports"].items).Ok?
    ensures ServiceGenerator.ServiceFor(name, Map(m), options).Ok?
  {
  }

  /** The web service of the converter's end-to-end example, as decoded. */
  const ExampleWeb: Compose.Service :=
    Compose.Service("nginx:latest", ["80:80"], List([Str("ENV=production")]), [], Null, Null, Null, Null,
                    "", "", false, false, None, None, "", "", "")

  /** Example: a file holding only that web service, converted in the "test" namespace
    * by the real generators, succeeds and yields a Deployment file. */
  lemma ExampleConverts(content: string, decode: Decoder, marshal: Object -> string, durationText: int -> string)
    requires decode(content) == Ok(Compose.DockerCompose("3.8", map["web" := ExampleWeb], map[]))
    ensures var r := Conversion(ConversionRequest("docker-compose", content, map["namespace" := Str("test")]),
                                decode, KubernetesGenerators, marshal, durationText);
      r.success && exists f :: f in r.files && f.Type() == "deployment"
  {
    var req := ConversionRequest("docker-compose", content, map["namespace" := Str("test")]);
    var web := ExampleNormalized();
    ExampleGenerates(web, OptionsFrom(req.options), durationText);
    SingleServiceConverts(req, decode, "3.8", "web", ExampleWeb, web, KubernetesGenerators, marshal, durationText);
  }

  /** A file with one service and no volumes, whose normalised service yields its
    * Deployment and its Service, converts successfully with that service's Deployment
    * file. */
  lemma SingleServiceConverts(req: ConversionRequest, decode: Decoder, version: string, name: string,
                              service: Compose.Service, normalized: Compose.Service, gens: Generators,
                              marshal: Object -> string, durationText: int -> string)
    requires req.contentType == "docker-compose" && version != ""
    requires decode(req.content) == Ok(Compose.DockerCompose(version, map[name := service], map[]))
    requires Compose.NormalizeService(name, service) == Ok(normalized)
    requires gens.deployment(name, Map(ServiceData(normalized, durationText)), OptionsFrom(req.options)).Ok?
    requires gens.service(name, Map(ServiceData(normalized, durationText)), OptionsFrom(req.options)).Ok?
    ensures var r := Conversion(req, decode, gens, marshal, durationText);
      r.success && exists f :: f in r.files && f.Type() == "deployment"
  {
    SingleServiceParsed(req.content, decode, version, name, service, normalized);
    var doc := Compose.Parsed(req.content, decode).value;
    SingleServiceGenerates(doc, name, normalized, gens, OptionsFrom(req.options), durationText);
    ConversionSucceeds(req, decode, gens, marshal, durationText);
    var f :| f in Conversion(req, decode, gens, marshal, durationText).files
             && f.kind == DeploymentFile && f.resource == name;
  }

  /** A file whose one service yields its Deployment and its Service has every service
    * generating. */
  lemma SingleServiceGenerates(doc: Compose.DockerCompose, name: string, service: Compose.Service, gens: Generators,
                               options: GeneratorOptions, durationText: int -> string)
    requires doc.services == map[name := service]
    requires gens.deployment(name, Map(ServiceData(service, durationText)), options).Ok?
    requires gens.service(name, Map(ServiceData(service, durationText)), options).Ok?
    ensures ManifestsGenerate(doc, gens, options, durationText)
  {
  }

  /** A file with one service and no volumes parses to that service normalised. */
  lemma SingleServiceParsed(content: string, decode: Decoder, version: string, name: string,
                            service: Compose.Service, normalized: Compose.Service)
    requires version != ""
    requires decode(content) == Ok(Compose.DockerCompose(version, map[name := service], map[]))
    requires Compose.NormalizeService(name, service) == Ok(normalized)
    ensures Compose.Parsed(content, decode) == Ok(Compose.DockerCompose(version, map[name := normalized], map[]))
  {
    var r := Compose.Normalized(Compose.DockerCompose(version, map[name := service], map[]));
    assert r.Ok?;
    assert r.value.services == map[name := normalized];
  }

  /** The normalised web service yields its Deployment and its Service. */
  lemma ExampleGenerates(web: Compose.Service, options: GeneratorOptions, durationText: int -> string)
    requires web.image == "nginx:latest" && web.ports == ["80:80"] && web.volumes == [] && web.environment.StrMap?
    ensures var data := Map(ServiceData(web, durationText));
      KubernetesGenerators.deployment("web", data, options).Ok? && KubernetesGenerators.service("web", data, options).Ok?
  {
    ExamplePortParses();
    Generator.EnvVarsMapForm(web.environment.entries);
    KubernetesManifests("web", web, options, durationText);
  }

  /** The example's web service normalises to a service with its image, its one port,
    * no volumes and a string map of environment variables. */
  lemma ExampleNormalized() returns (web: Compose.Service)
    ensures Compose.NormalizeService("web", ExampleWeb) == Ok(web)
    ensures web.image == "nginx:latest" && web.ports == ["80:80"] && web.volumes == [] && web.environment.StrMap?
  {
    ExamplePortAccepted();
    Compose.NormalizeServiceShape("web", ExampleWeb);
    web := Compose.NormalizeService("web", ExampleWeb).value;
  }

  /** The example's port passes the normaliser. */
  lemma ExamplePortAccepted()
    ensures Compose.PortError("80:80").None?
  {
    assert "80" + ":" + "80" == "80:80";
    Compose.ColonPort("80", "80");
    ContainsChar("80:80", ':');
    Compose.DigitsExample();
    assert Compose.SegmentError(["80", "80"], 0).None?;
  }

  /** The example's port parses for the container and for the Service. */
  lemma ExamplePortParses()
    ensures Generator.ParsePortMapping("80:80").Ok? && ServiceGenerator.ParseServicePortMapping("80:80").Ok?
  {
    assert Itoa(80) == "80";
    assert "80" + ":" + "80" == "80:80";
    Generator.PortMappingPair("80", 80);
    ServiceGenerator.ServicePortPair(80, 80);
  }

  /** Convert the services of a parsed file, one after the other. */
  method ConvertServices(services: map<string, Compose.Service>, gens: Generators, options: GeneratorOptions,
                         marshal: Object -> string, durationText: int -> string) returns (all: Outcome)
    ensures all == Concat(OutcomesOf(services, ServiceConverter(gens, options, marshal, durationText)))
  {
    ghost var outcomes := OutcomesOf(services, ServiceConverter(gens, options, marshal, durationText));
    var names := SortedKeys(services.Keys);
    var generatedFiles: seq<GeneratedFile> := [];
    var conversionErrors: seq<ConversionError> := [];
    var warnings: seq<ConversionWarning> := [];
    var i := 0;
    while i < |names|
      invariant 0 <= i <= |names|
      invariant Outcome(generatedFiles, conversionErrors, warnings) == Concat(outcomes[..i])
    {
      var files, errs, warns := ConvertService(names[i], services[names[i]], gens, options, marshal, durationText);
      ConcatPrefix(outcomes, i);
      generatedFiles := generatedFiles + files;
      conversionErrors := conversionErrors + errs;
      warnings := warnings + warns;
      i := i + 1;
    }
    ConcatWhole(outcomes);
    all := Outcome(generatedFiles, conversionErrors, warnings);
  }

  /** Convert. */
  method Convert(req: ConversionRequest, decode: Decoder, gens: Generators, marshal: Object -> string,
                 durationText: int -> string) returns (r: ConversionResult)
    ensures r == Conversion(req, decode, gens, marshal, durationText)
  {
    var failure := Validate(req.content, req.contentType, decode);
    if failure.Some? {
      return ConversionResult(false, [], [ConversionError(ValidationFailed, "", failure.value.Text())], [], None);
    }
    var parsed := Compose.ParseDockerCompose(req.content, decode);
    var dockerCompose := parsed.value;
    var options := ExtractGeneratorOptions(req.options);
    var all := ConvertServices(dockerCompose.services, gens, options, marshal, durationText);
    if |dockerCompose.volumes| > 0 {
      var volumeFiles, volumeErrs := ConvertVolumes(dockerCompose.volumes, options, marshal);
      all := all.Plus(Outcome(volumeFiles, volumeErrs, []));
    }
    r := ConversionResult(|all.errors| == 0, all.files, all.errors, all.warnings,
                          Some(ConversionMetadata(|dockerCompose.services|, |dockerCompose.volumes|, dockerCompose.version)));
  }
}
