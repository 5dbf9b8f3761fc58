/**
 * The generators of the optional objects (backend/converters/kubernetes/service_generator.go):
 * a Service for the published ports, a ConfigMap for the non-secret environment, one
 * claim per named volume and an Ingress for the first HTTP-looking port.
 */
module ServiceGenerator {
  import opened Wrappers
  import opened Text
  import opened Values
  import opened Kubernetes
  import Compose
  import Generator

  // ---------------------------------------------------------------------
  // Service ports

  /** A Service port: named after the protocol and the container port, which it targets
    * by number. */
  function ServicePortOf(host: int, container: int, protocol: string): (r: ServicePort)
    requires -MaxInt32 - 1 <= container <= MaxInt32
    ensures Atoi(r.targetPort) == Some(container)
  {
    ParseItoa(container, MaxInt64);
    ServicePort(ToLower(protocol) + "-" + Itoa(container), host, Itoa(container), protocol)
  }

  /** Host and container segments both read as 32-bit port numbers. */
  function PortPair(host: string, container: string, protocol: string): (r: Result<ServicePort>)
    ensures r.Ok? ==> r.value.name == ToLower(r.value.protocol) + "-" + r.value.targetPort
    ensures r.Ok? ==> -MaxInt32 - 1 <= r.value.port <= MaxInt32
    ensures r.Ok? ==> Atoi(r.value.targetPort).Some? && Itoa(Atoi(r.value.targetPort).value) == r.value.targetPort
  {
    match Atoi(host)
    case None => Err("invalid host port number: " + host)
    case Some(h) =>
      match Atoi(container)
      case None => Err("invalid container port number: " + container)
      case Some(c) => Ok(ServicePortOf(Wrap32(h), Wrap32(c), protocol))
  }

  /** parseServicePortMapping: "N" publishes N on N, "H:C" and "IP:H:C" publish H on C,
    * and "H:C:proto" does the same with the protocol upper-cased. Every accepted port
    * is named lower(protocol)-C and targets C by its decimal text. */
  function ParseServicePortMapping(mapping: string): (r: Result<ServicePort>)
    ensures r.Ok? ==> r.value.name == ToLower(r.value.protocol) + "-" + r.value.targetPort
    ensures r.Ok? ==> -MaxInt32 - 1 <= r.value.port <= MaxInt32
    ensures r.Ok? ==> Atoi(r.value.targetPort).Some? && Itoa(Atoi(r.value.targetPort).value) == r.value.targetPort
    ensures |Split(mapping, ":")| > 3 ==> r == Err("invalid port mapping format: " + mapping)
  {
    ServicePortFromParts(Split(mapping, ":"), mapping)
  }

  /** The switch on the number of ':'-separated segments. */
  function ServicePortFromParts(parts: seq<string>, mapping: string): (r: Result<ServicePort>)
    requires |parts| >= 1
    ensures r.Ok? ==> r.value.name == ToLower(r.value.protocol) + "-" + r.value.targetPort
    ensures r.Ok? ==> -MaxInt32 - 1 <= r.value.port <= MaxInt32
    ensures r.Ok? ==> Atoi(r.value.targetPort).Some? && Itoa(Atoi(r.value.targetPort).value) == r.value.targetPort
    ensures |parts| > 3 ==> r == Err("invalid port mapping format: " + mapping)
  {
    if |parts| == 1 then
      (match Atoi(parts[0])
       case None => Err("invalid port number: " + parts[0])
       case Some(n) => Ok(ServicePortOf(Wrap32(n), Wrap32(n), "TCP")))
    else if |parts| == 2 then PortPair(parts[0], parts[1], "TCP")
    else if |parts| == 3 && Generator.IsProtocol(parts[2]) then PortPair(parts[0], parts[1], ToUpper(parts[2]))
    else if |parts| == 3 then PortPair(parts[1], parts[2], "TCP")
    else Err("invalid port mapping format: " + mapping)
  }

  /** Two decimal port numbers in range read back as themselves. */
  lemma PortPairNumbers(h: int, c: int, protocol: string)
    requires -MaxInt32 - 1 <= h <= MaxInt32 && -MaxInt32 - 1 <= c <= MaxInt32
    ensures PortPair(Itoa(h), Itoa(c), protocol) == Ok(ServicePortOf(h, c, protocol))
  {
    Generator.NumberSegment(h);
    Generator.NumberSegment(c);
  }

  lemma TcpPort(h: int, c: int)
    requires -MaxInt32 - 1 <= c <= MaxInt32
    ensures ServicePortOf(h, c, "TCP") == ServicePort("tcp-" + Itoa(c), h, Itoa(c), "TCP")
  {
    assert ToLower("TCP") == "tcp";
  }

  /** "N": the port and its target are both N. */
  lemma ServicePortSingle(n: int)
    requires -MaxInt32 - 1 <= n <= MaxInt32
    ensures ParseServicePortMapping(Itoa(n)) == Ok(ServicePort("tcp-" + Itoa(n), n, Itoa(n), "TCP"))
  {
    Generator.NumberSegment(n);
    ContainsChar(Itoa(n), ':');
    SplitAbsent(Itoa(n), ":");
    assert ServicePortFromParts([Itoa(n)], Itoa(n)) == Ok(ServicePortOf(n, n, "TCP"));
    TcpPort(n, n);
  }

  /** "H:C": port H, target C. */
  lemma ServicePortPair(h: int, c: int)
    requires -MaxInt32 - 1 <= h <= MaxInt32 && -MaxInt32 - 1 <= c <= MaxInt32
    ensures ParseServicePortMapping(Itoa(h) + ":" + Itoa(c)) == Ok(ServicePort("tcp-" + Itoa(c), h, Itoa(c), "TCP"))
  {
    Generator.NumberSegment(h);
    Generator.NumberSegment(c);
    var m := Itoa(h) + ":" + Itoa(c);
    Compose.ColonPort(Itoa(h), Itoa(c));
    PortPairNumbers(h, c, "TCP");
    assert ServicePortFromParts([Itoa(h), Itoa(c)], m) == Ok(ServicePortOf(h, c, "TCP"));
    TcpPort(h, c);
  }

  /** "IP:H:C": the address is not read; port H, target C. */
  lemma ServicePortAddress(ip: string, h: int, c: int)
    requires ':' !in ip
    requires -MaxInt32 - 1 <= h <= MaxInt32 && -MaxInt32 - 1 <= c <= MaxInt32
    ensures ParseServicePortMapping(ip + ":" + Itoa(h) + ":" + Itoa(c))
            == Ok(ServicePort("tcp-" + Itoa(c), h, Itoa(c), "TCP"))
  {
    Generator.NumberSegment(h);
    Generator.NumberSegment(c);
    Generator.NumberNotProtocol(c);
    var m := ip + ":" + Itoa(h) + ":" + Itoa(c);
    Compose.ColonPort3(ip, Itoa(h), Itoa(c));
    PortPairNumbers(h, c, "TCP");
    assert ServicePortFromParts([ip, Itoa(h), Itoa(c)], m) == Ok(ServicePortOf(h, c, "TCP"));
    TcpPort(h, c);
  }

  /** Three segments, the last naming a protocol: the first two are the ports. */
  lemma ProtocolSwitch(parts: seq<string>, mapping: string)
    requires |parts| == 3 && Generator.IsProtocol(parts[2])
    ensures ServicePortFromParts(parts, mapping) == PortPair(parts[0], parts[1], ToUpper(parts[2]))
  {
  }

  /** "H:C:proto": port H, target C, the protocol upper-cased. */
  lemma ServicePortProtocol(h: int, c: int, proto: string)
    requires ':' !in proto && Generator.IsProtocol(proto)
    requires -MaxInt32 - 1 <= h <= MaxInt32 && -MaxInt32 - 1 <= c <= MaxInt32
    ensures ParseServicePortMapping(Itoa(h) + ":" + Itoa(c) + ":" + proto)
            == Ok(ServicePortOf(h, c, ToUpper(proto)))
  {
    Generator.NumberSegment(h);
    Generator.NumberSegment(c);
    var m := Itoa(h) + ":" + Itoa(c) + ":" + proto;
    Compose.ColonPort3(Itoa(h), Itoa(c), proto);
    PortPairNumbers(h, c, ToUpper(proto));
    var parts := [Itoa(h), Itoa(c), proto];
    ProtocolSwitch(parts, m);
    assert parts[0] == Itoa(h) && parts[1] == Itoa(c) && parts[2] == proto;
  }

  /** A port the Service accepts is accepted by the container too: the Service targets
    * exactly the container port, with the same protocol. */
  lemma ServiceTargetsContainerPort(mapping: string)
    requires ParseServicePortMapping(mapping).Ok?
    ensures Generator.ParsePortMapping(mapping).Ok?
    ensures var sp := ParseServicePortMapping(mapping).value;
      var cp := Generator.ParsePortMapping(mapping).value;
      sp.targetPort == Itoa(cp.containerPort) && sp.protocol == cp.protocol
  {
    var parts := Split(mapping, ":");
    assert ParseServicePortMapping(mapping) == ServicePortFromParts(parts, mapping);
    assert Generator.ParsePortMapping(mapping) == Generator.ContainerPortFromParts(parts, mapping);
    if |parts| == 1 {
    } else if |parts| == 2 {
    } else if Generator.IsProtocol(parts[2]) {
    } else {
    }
  }

  // ---------------------------------------------------------------------
  // Service

  /** generateServicePorts: one Service port per string item, in order. */
  method GenerateServicePorts(items: seq<Value>) returns (r: Result<seq<ServicePort>>)
    ensures r == Generator.ParseStrings(ParseServicePortMapping, [], items)
  {
    var acc: seq<ServicePort> := [];
    var i := 0;
    while i < |items|
      invariant 0 <= i <= |items|
      invariant Generator.ParseStrings(ParseServicePortMapping, [], items)
                == Generator.ParseStrings(ParseServicePortMapping, acc, items[i..])
    {
      assert items[i..][1..] == items[i + 1..];
      var item := items[i];
      if item.Str? {
        var port := ParseServicePortMapping(item.s);
        if port.Err? {
          return Err("invalid port format " + item.s + ": " + port.error);
        }
        acc := acc + [port.value];
      }
      i := i + 1;
    }
    r := Ok(acc);
  }

  /** GenerateService, as a value: no Service (and no error) without a non-empty ports list. */
  function ServiceFor(name: string, service: Value, options: GeneratorOptions): Result<Option<Service>>
  {
    if !service.Map? then Err("invalid service format for " + name)
    else
      var ports := Lookup(service.fields, "ports");
      if !ports.List? || |ports.items| == 0 then Ok(None)
      else match Generator.ParseStrings(ParseServicePortMapping, [], ports.items)
        case Err(e) => Err("failed to generate service ports for " + name + ": " + e)
        case Ok(servicePorts) =>
          Ok(Some(Service("v1", "Service", Metadata(name, options.namespace, AppLabels(options, name)),
                          ServiceSpec(options.serviceType, map["app" := name], servicePorts))))
  }

  /** GenerateService. */
  method GenerateService(name: string, service: Value, options: GeneratorOptions) returns (r: Result<Option<Service>>)
    ensures r == ServiceFor(name, service, options)
  {
    if !service.Map? {
      return Err("invalid service format for " + name);
    }
    var ports := Lookup(service.fields, "ports");
    if !ports.List? || |ports.items| == 0 {
      return Ok(None);
    }
    var servicePorts := GenerateServicePorts(ports.items);
    if servicePorts.Err? {
      return Err("failed to generate service ports for " + name + ": " + servicePorts.error);
    }
    r := Ok(Some(Service("v1", "Service", Metadata(name, options.namespace, AppLabels(options, name)),
                         ServiceSpec(options.serviceType, map["app" := name], servicePorts.value))));
  }

  /** A Service exists iff the ports list is a non-empty list whose string items all
    * parse; it is named after the service, selects `{app: name}`, has the option type and
    * labels with `app=<name>`, and carries one port per string item, in order. */
  lemma ServiceShape(name: string, service: map<string, Value>, options: GeneratorOptions)
    ensures var ports := Lookup(service, "ports");
      ServiceFor(name, Map(service), options) == Ok(None) <==> !ports.List? || |ports.items| == 0
    ensures var r := ServiceFor(name, Map(service), options);
      var ports := Lookup(service, "ports");
      r.Ok? && r.value.Some? ==>
        var s := r.value.value;
        var ss := StringItems(ports.items);
        s.GetName() == name && s.GetKind() == "Service"
        && s.metadata.labels == AppLabels(options, name) && s.metadata.namespace == options.namespace
        && s.spec.selector == map["app" := name] && s.spec.serviceType == options.serviceType
        && |s.spec.ports| == |ss|
        && forall k :: 0 <= k < |ss| ==> ParseServicePortMapping(ss[k]) == Ok(s.spec.ports[k])
  {
    var ports := Lookup(service, "ports");
    if ports.List? && |ports.items| > 0 {
      var p := Generator.ParseStrings(ParseServicePortMapping, [], ports.items);
      if p.Ok? {
        Generator.ParseStringsValue(ParseServicePortMapping, [], ports.items);
      }
    }
  }

  /** One string item that does not parse fails the whole Service. */
  lemma ServiceRejectsBadPort(name: string, service: map<string, Value>, options: GeneratorOptions, bad: string)
    requires Lookup(service, "ports").List? && Str(bad) in Lookup(service, "ports").items
    requires ParseServicePortMapping(bad).Err?
    ensures ServiceFor(name, Map(service), options).Err?
  {
    Generator.ParseStringsOk(ParseServicePortMapping, [], Lookup(service, "ports").items);
  }

  // ---------------------------------------------------------------------
  // Secrets and the ConfigMap

  const SecretPatterns: seq<string> :=
    ["password", "passwd", "pwd", "secret", "key", "token", "api_key", "apikey", "private", "credential", "auth", "oauth"]

  /** isSecretVariable: the lower-cased name contains one of the twelve patterns. */
  predicate IsSecretVariable(key: string)
  {
    exists p :: p in SecretPatterns && Contains(ToLower(key), p)
  }

  /** A pattern holding a character that `s` lacks does not occur in `s`. */
  lemma MissingChar(s: string, p: string, k: nat)
    requires k < |p| && p[k] !in s
    ensures !Contains(s, p)
  {
    forall i | 0 <= i <= |s| ensures !OccursAt(s, p, i) {
      if i + |p| <= |s| {
        assert s[i..i + |p|][k] == s[i + k];
      }
    }
  }

  /** The patterns are plain substrings: any name with a word lower-casing to a pattern
    * inside it counts as a secret, whatever surrounds it. */
  lemma ContainingPatternIsSecret(a: string, w: string, b: string)
    requires ToLower(w) in SecretPatterns
    ensures IsSecretVariable(a + w + b)
  {
    ToLowerAppend(a + w, b);
    ToLowerAppend(a, w);
    var s := ToLower(a) + ToLower(w) + ToLower(b);
    assert s[|ToLower(a)|..|ToLower(a)| + |ToLower(w)|] == ToLower(w);
    OccursContains(s, ToLower(w), |ToLower(a)|);
  }

  /** Example: "MONKEY" is secret-like, through "key". */
  lemma MonkeyIsSecret()
    ensures IsSecretVariable("MONKEY")
  {
    assert ToLower("KEY") == "key" == SecretPatterns[4];
    ContainingPatternIsSecret("MON", "KEY", "");
    assert "MON" + "KEY" + "" == "MONKEY";
  }

  /** Example: "AUTHOR" is secret-like, through "auth". */
  lemma AuthorIsSecret()
    ensures IsSecretVariable("AUTHOR")
  {
    assert ToLower("AUTH") == "auth" == SecretPatterns[10];
    ContainingPatternIsSecret("", "AUTH", "OR");
    assert "" + "AUTH" + "OR" == "AUTHOR";
  }

  /** Example: "PORT" is not secret-like. */
  lemma PortNotSecret()
    ensures !IsSecretVariable("PORT")
  {
    var s := "port";
    assert ToLower("PORT") == s;
    // for each pattern, the index of a character "port" lacks
    var missing := [1, 1, 1, 1, 0, 2, 0, 0, 2, 0, 0, 1];
    forall j | 0 <= j < |SecretPatterns| ensures !Contains(s, SecretPatterns[j]) {
      MissingChar(s, SecretPatterns[j], missing[j]);
    }
  }

  /** The entries of an environment that are not secret-like. */
  function Public(env: map<string, string>): (r: map<string, string>)
    ensures forall k :: k in r <==> k in env && !IsSecretVariable(k)
    ensures forall k :: k in r ==> r[k] == env[k]
  {
    map k | k in env && !IsSecretVariable(k) :: env[k]
  }

  /** normalizeEnvironmentForConfigMap, as a value: what the compose normaliser makes of
    * a map or list environment, less the secret-like names. */
  function ConfigData(env: Value): Result<map<string, string>>
  {
    match env
    case Map(m) => Ok(Public(Generator.Shown(m)))
    case StrMap(m) => Ok(Public(m))
    case List(items) => Ok(Public(Compose.EnvAssign(map[], StringItems(items))))
    case _ => Err("unsupported environment format: " + TypeName(env))
  }

  /** For a map or an all-string list, the ConfigMap data is the normalised environment
    * without its secret-like names. */
  lemma ConfigDataIsPublicEnvironment(env: Value)
    requires env.Map? || env.StrMap? || (env.List? && forall i :: 0 <= i < |env.items| ==> env.items[i].Str?)
    ensures Compose.NormalizeEnvironment(env).Ok?
    ensures ConfigData(env) == Ok(Public(Compose.NormalizeEnvironment(env).value))
  {
  }

  /** The public entries of `m` among the first keys of `keys`. */
  function PublicAmong(m: map<string, string>, keys: seq<string>): map<string, string>
  {
    map k | k in keys && k in m && !IsSecretVariable(k) :: m[k]
  }

  /** Taking one more key adds its entry unless it is secret-like. */
  lemma PublicAmongStep(m: map<string, string>, keys: seq<string>, i: nat)
    requires i < |keys| && keys[i] in m
    ensures PublicAmong(m, keys[..i + 1])
      == if IsSecretVariable(keys[i]) then PublicAmong(m, keys[..i]) else PublicAmong(m, keys[..i])[keys[i] := m[keys[i]]]
  {
    assert keys[..i + 1] == keys[..i] + [keys[i]];
  }

  /** The map loops of normalizeEnvironmentForConfigMap, in ascending key order. */
  method PublicEntries(m: map<string, string>) returns (data: map<string, string>)
    ensures data == Public(m)
  {
    var keys := SortedKeys(m.Keys);
    data := map[];
    var i := 0;
    while i < |keys|
      invariant 0 <= i <= |keys|
      invariant data == PublicAmong(m, keys[..i])
    {
      PublicAmongStep(m, keys, i);
      if !IsSecretVariable(keys[i]) {
        data := data[keys[i] := m[keys[i]]];
      }
      i := i + 1;
    }
    assert forall k :: k in keys[..i] <==> k in m;
  }

  /** Dropping the secret-like names commutes with one more assignment. */
  lemma PublicUpdate(env: map<string, string>, k: string, v: string)
    ensures Public(env[k := v]) == if IsSecretVariable(k) then Public(env) else Public(env)[k := v]
  {
  }

  /** One more list entry: a string entry with a non-secret name adds (or replaces) its
    * assignment; any other entry leaves the public data as it was. */
  lemma PublicAssignStep(items: seq<Value>, i: nat)
    requires i < |items|
    ensures var before := Public(Compose.EnvAssign(map[], StringItems(items[..i])));
      Public(Compose.EnvAssign(map[], StringItems(items[..i + 1])))
      == if items[i].Str? && !IsSecretVariable(Compose.EnvName(items[i].s))
         then before[Compose.EnvName(items[i].s) := Compose.EnvValue(items[i].s)]
         else before
  {
    assert items[..i + 1] == items[..i] + [items[i]];
    StringItemsAppend(items[..i], [items[i]]);
    if items[i].Str? {
      var entry := items[i].s;
      assert StringItems([items[i]]) == [entry];
      Compose.EnvAssignSnoc(map[], StringItems(items[..i]), entry);
      PublicUpdate(Compose.EnvAssign(map[], StringItems(items[..i])), Compose.EnvName(entry), Compose.EnvValue(entry));
    } else {
      assert StringItems([items[i]]) == [];
      assert StringItems(items[..i + 1]) == StringItems(items[..i]);
    }
  }

  /** normalizeEnvironmentForConfigMap. */
  method NormalizeEnvironmentForConfigMap(env: Value) returns (r: Result<map<string, string>>)
    ensures r == ConfigData(env)
  {
    match env
    case Map(m) =>
      var data := PublicEntries(map k | k in m :: Show(m[k]));
      r := Ok(data);
    case StrMap(m) =>
      var data := PublicEntries(m);
      r := Ok(data);
    case List(items) =>
      var data: map<string, string> := map[];
      var i := 0;
      while i < |items|
        invariant 0 <= i <= |items|
        invariant data == Public(Compose.EnvAssign(map[], StringItems(items[..i])))
      {
        PublicAssignStep(items, i);
        if items[i].Str? && !IsSecretVariable(Compose.EnvName(items[i].s)) {
          data := data[Compose.EnvName(items[i].s) := Compose.EnvValue(items[i].s)];
        }
        i := i + 1;
      }
      assert items[..i] == items;
      r := Ok(data);
    case _ =>
      r := Err("unsupported environment format: " + TypeName(env));
  }

  /** GenerateConfigMap, as a value: none without an environment or when every name is
    * secret-like. */
  function ConfigMapFor(name: string, service: Value, options: GeneratorOptions): Result<Option<ConfigMap>>
  {
    if !service.Map? then Err("invalid service format for " + name)
    else if "environment" !in service.fields then Ok(None)
    else match ConfigData(service.fields["environment"])
      case Err(e) => Err("failed to normalize environment for " + name + ": " + e)
      case Ok(data) =>
        if |data| == 0 then Ok(None)
        else Ok(Some(ConfigMap("v1", "ConfigMap", Metadata(name + "-config", options.namespace, AppLabels(options, name)), data)))
  }

  /** GenerateConfigMap. */
  method GenerateConfigMap(name: string, service: Value, options: GeneratorOptions) returns (r: Result<Option<ConfigMap>>)
    ensures r == ConfigMapFor(name, service, options)
  {
    if !service.Map? {
      return Err("invalid service format for " + name);
    }
    if "environment" !in service.fields {
      return Ok(None);
    }
    var data := NormalizeEnvironmentForConfigMap(service.fields["environment"]);
    if data.Err? {
      return Err("failed to normalize environment for " + name + ": " + data.error);
    }
    if |data.value| == 0 {
      return Ok(None);
    }
    r := Ok(Some(ConfigMap("v1", "ConfigMap",
                           Metadata(name + "-config", options.namespace, AppLabels(options, name)), data.value)));
  }

  /** A ConfigMap is named "<svc>-config", never holds a secret-like name, and holds every
    * other name of a map environment with its value; it is absent iff no name survives. */
  lemma ConfigMapShape(name: string, env: map<string, string>, service: map<string, Value>, options: GeneratorOptions)
    requires "environment" in service && service["environment"] == StrMap(env)
    ensures var r := ConfigMapFor(name, Map(service), options);
      r.Ok? && (r.value.None? <==> forall k :: k in env ==> IsSecretVariable(k))
    ensures var r := ConfigMapFor(name, Map(service), options);
      r.Ok? && r.value.Some? ==>
        var c := r.value.value;
        c.GetName() == name + "-config" && c.GetKind() == "ConfigMap"
        && c.metadata.labels == AppLabels(options, name)
        && (forall k :: k in c.data <==> k in env && !IsSecretVariable(k))
        && forall k :: k in c.data ==> c.data[k] == env[k]
  {
    var data := Public(env);
    if forall k :: k in env ==> IsSecretVariable(k) {
      assert data == map[];
    } else {
      var k :| k in env && !IsSecretVariable(k);
      assert k in data;
    }
  }

  /** List-form environment: the last entry naming a non-secret variable gives its value. */
  lemma ConfigMapListLastWins(entries: seq<string>, i: nat)
    requires i < |entries| && !IsSecretVariable(Compose.EnvName(entries[i]))
    requires forall j :: i < j < |entries| ==> Compose.EnvName(entries[j]) != Compose.EnvName(entries[i])
    ensures var data := ConfigData(List(Strings(entries))).value;
      Compose.EnvName(entries[i]) in data && data[Compose.EnvName(entries[i])] == Compose.EnvValue(entries[i])
  {
    StringItemsOfStrings(entries);
    Compose.EnvironmentOfStrings(entries);
    Compose.EnvironmentFromList(entries, i);
    assert ConfigData(List(Strings(entries))) == Ok(Public(Compose.EnvAssign(map[], entries)));
  }

  // ---------------------------------------------------------------------
  // Persistent volume claims

  /** A named volume: not a path (no leading '/' or '.') and at least "name:path". */
  predicate IsNamedVolume(entry: string)
  {
    !HasPrefix(entry, "/") && !HasPrefix(entry, ".") && |Split(entry, ":")| >= 2
  }

  /** The claim for one named volume: 1Gi, ReadWriteOnce, named "<svc>-<volume>". */
  function ClaimOf(name: string, volume: string, options: GeneratorOptions): PersistentVolumeClaim
  {
    PersistentVolumeClaim("v1", "PersistentVolumeClaim",
      Metadata(name + "-" + volume, options.namespace, AppLabels(options, name)),
      PersistentVolumeClaimSpec(["ReadWriteOnce"], map["storage" := "1Gi"]))
  }

  /** The claims of a list of volume entries, in list order. */
  function Claims(name: string, options: GeneratorOptions, items: seq<Value>): (r: seq<PersistentVolumeClaim>)
    ensures |r| <= |items|
    decreases |items|
  {
    if items == [] then []
    else
      (if items[0].Str? && IsNamedVolume(items[0].s) then [ClaimOf(name, Split(items[0].s, ":")[0], options)] else [])
      + Claims(name, options, items[1..])
  }

  /** GeneratePersistentVolumeClaim, as a value. */
  function ClaimsFor(name: string, service: Value, options: GeneratorOptions): Result<seq<PersistentVolumeClaim>>
  {
    if !service.Map? then Err("invalid service format for " + name)
    else
      var volumes := Lookup(service.fields, "volumes");
      if !volumes.List? then Ok([]) else Ok(Claims(name, options, volumes.items))
  }

  /** Unrolling the claims of a suffix by one entry. */
  lemma ClaimsStep(name: string, options: GeneratorOptions, items: seq<Value>, i: nat)
    requires i < |items|
    ensures Claims(name, options, items[i..])
      == (if items[i].Str? && IsNamedVolume(items[i].s) then [ClaimOf(name, Split(items[i].s, ":")[0], options)] else [])
         + Claims(name, options, items[i + 1..])
  {
    assert items[i..][1..] == items[i + 1..];
  }

  /** GeneratePersistentVolumeClaim. */
  method GeneratePersistentVolumeClaims(name: string, service: Value, options: GeneratorOptions)
    returns (r: Result<seq<PersistentVolumeClaim>>)
    ensures r == ClaimsFor(name, service, options)
  {
    if !service.Map? {
      return Err("invalid service format for " + name);
    }
    var volumes := Lookup(service.fields, "volumes");
    if !volumes.List? {
      return Ok([]);
    }
    var claims := ClaimsOfEntries(name, options, volumes.items);
    r := Ok(claims);
  }

  /** The loop of GeneratePersistentVolumeClaim over the volume entries. */
  method ClaimsOfEntries(name: string, options: GeneratorOptions, items: seq<Value>)
    returns (claims: seq<PersistentVolumeClaim>)
    ensures claims == Claims(name, options, items)
  {
    claims := [];
    var i := 0;
    while i < |items|
      invariant 0 <= i <= |items|
      invariant Claims(name, options, items) == claims + Claims(name, options, items[i..])
    {
      ClaimsStep(name, options, items, i);
      ghost var rest := Claims(name, options, items[i + 1..]);
      var claim := [];
      if items[i].Str? && IsNamedVolume(items[i].s) {
        claim := [ClaimOf(name, Split(items[i].s, ":")[0], options)];
      }
      assert claims + (claim + rest) == (claims + claim) + rest;
      claims := claims + claim;
      i := i + 1;
    }
    assert items[i..] == [];
  }

  /** Every claim comes from a named-volume entry, and every named-volume entry gives one;
    * each asks for 1Gi ReadWriteOnce and carries the service's labels. */
  lemma {:induction false} ClaimsSpec(name: string, options: GeneratorOptions, items: seq<Value>)
    ensures forall c :: c in Claims(name, options, items) ==>
      c.spec == PersistentVolumeClaimSpec(["ReadWriteOnce"], map["storage" := "1Gi"])
      && c.metadata.labels == AppLabels(options, name)
      && exists s :: Str(s) in items && IsNamedVolume(s) && c.metadata.name == name + "-" + Split(s, ":")[0]
    ensures forall s :: Str(s) in items && IsNamedVolume(s) ==> ClaimOf(name, Split(s, ":")[0], options) in Claims(name, options, items)
    decreases |items|
  {
    if items != [] {
      ClaimsSpec(name, options, items[1..]);
      assert forall v :: v in items[1..] ==> v in items;
      assert items == [items[0]] + items[1..];
    }
  }

  /** Bind mounts never get a claim. */
  lemma BindMountsHaveNoClaim(name: string, options: GeneratorOptions, path: string)
    requires HasPrefix(path, "/") || HasPrefix(path, ".")
    ensures Claims(name, options, [Str(path)]) == []
  {
  }

  // ---------------------------------------------------------------------
  // Ingress

  const HTTPPorts: seq<int> := [80, 8080, 3000, 3001, 4000, 5000, 8000, 8888, 9000]

  /** isHTTPPort. */
  predicate IsHTTPPort(port: int)
  {
    port in HTTPPorts
  }

  /** The container port the Ingress scan reads from one entry, or None when the segment
    * does not parse; more than three segments read as port 0. */
  function IngressPort(mapping: string): Option<int>
  {
    var parts := Split(mapping, ":");
    if |parts| == 1 then Atoi(parts[0])
    else if |parts| == 2 then Atoi(parts[1])
    else if |parts| == 3 && Generator.IsProtocol(parts[2]) then Atoi(parts[1])
    else if |parts| == 3 then Atoi(parts[2])
    else Some(0)
  }

  /** The entry is a string whose container port looks like HTTP. */
  predicate ServesHTTP(item: Value)
  {
    item.Str? && IngressPort(item.s).Some? && IsHTTPPort(IngressPort(item.s).value)
  }

  /** The port of the first entry serving HTTP, or 0 when there is none. */
  function FirstHTTPPort(items: seq<Value>): (r: int)
    ensures r == 0 <==> forall j :: 0 <= j < |items| ==> !ServesHTTP(items[j])
    ensures r != 0 ==> exists j :: 0 <= j < |items| && ServesHTTP(items[j]) && r == IngressPort(items[j].s).value
                          && forall i :: 0 <= i < j ==> !ServesHTTP(items[i])
    decreases |items|
  {
    if items == [] then 0
    else if ServesHTTP(items[0]) then IngressPort(items[0].s).value
    else
      var r := FirstHTTPPort(items[1..]);
      assert forall j :: 0 < j < |items| ==> items[j] == items[1..][j - 1];
      if r != 0 then
        var j :| 0 <= j < |items[1..]| && ServesHTTP(items[1..][j]) && r == IngressPort(items[1..][j].s).value
                  && forall i :: 0 <= i < j ==> !ServesHTTP(items[1..][i]);
        assert items[j + 1] == items[1..][j];
        r
      else r
  }

  /** GenerateIngressForService, as a value: none without an HTTP-looking port; an empty
    * host becomes "<svc>.local". */
  function IngressFor(name: string, service: Value, options: GeneratorOptions, host: string): Result<Option<Manifest>>
  {
    if !service.Map? then Err("invalid service format for " + name)
    else
      var ports := Lookup(service.fields, "ports");
      if !ports.List? || |ports.items| == 0 then Ok(None)
      else
        var port := FirstHTTPPort(ports.items);
        if port == 0 then Ok(None)
        else
          var h := if host == "" then name + ".local" else host;
          Ok(Some(Manifest("networking.k8s.io/v1", "Ingress",
                           Metadata(name + "-ingress", options.namespace, AppLabels(options, name)),
                           [IngressRule(h, "/", "Prefix", name, port)])))
  }

  /** GenerateIngressForService: the scan stops at the first HTTP-looking port. */
  method GenerateIngressForService(name: string, service: Value, options: GeneratorOptions, host: string)
    returns (r: Result<Option<Manifest>>)
    ensures r == IngressFor(name, service, options, host)
  {
    if !service.Map? {
      return Err("invalid service format for " + name);
    }
    var ports := Lookup(service.fields, "ports");
    if !ports.List? || |ports.items| == 0 {
      return Ok(None);
    }
    var items := ports.items;
    var httpPort := 0;
    var i := 0;
    while i < |items|
      invariant 0 <= i <= |items|
      invariant FirstHTTPPort(items) == FirstHTTPPort(items[i..])
    {
      assert items[i..][1..] == items[i + 1..];
      if ServesHTTP(items[i]) {
        httpPort := IngressPort(items[i].s).value;
        break;
      }
      i := i + 1;
    }
    if httpPort == 0 {
      return Ok(None);
    }
    var h := host;
    if h == "" {
      h := name + ".local";
    }
    r := Ok(Some(Manifest("networking.k8s.io/v1", "Ingress",
                          Metadata(name + "-ingress", options.namespace, AppLabels(options, name)),
                          [IngressRule(h, "/", "Prefix", name, httpPort)])));
  }

  /** The Ingress routes "/" of its host to the service on the first HTTP-looking port;
    * it exists iff some entry serves HTTP. */
  lemma IngressShape(name: string, service: map<string, Value>, options: GeneratorOptions, host: string)
    requires Lookup(service, "ports").List?
    ensures var r := IngressFor(name, Map(service), options, host);
      r.Ok? && (r.value.Some? <==> exists j :: 0 <= j < |Lookup(service, "ports").items| && ServesHTTP(Lookup(service, "ports").items[j]))
    ensures var r := IngressFor(name, Map(service), options, host);
      r.Ok? && r.value.Some? ==>
        var m := r.value.value;
        var items := Lookup(service, "ports").items;
        m.metadata.name == name + "-ingress" && |m.rules| == 1
        && m.rules[0].host == (if host == "" then name + ".local" else host)
        && m.rules[0].serviceName == name && m.rules[0].path == "/"
        && IsHTTPPort(m.rules[0].portNumber)
        && exists j :: 0 <= j < |items| && ServesHTTP(items[j]) && m.rules[0].portNumber == IngressPort(items[j].s).value
                       && forall i :: 0 <= i < j ==> !ServesHTTP(items[i])
  {
  }
}
