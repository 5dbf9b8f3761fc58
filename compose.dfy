/**
 * The docker-compose document after decoding, and the normaliser that turns
 * each service's loosely typed fields into one canonical shape
 * (backend/converters/docker/parser.go, datatypes from types.go).
 */
module Compose {
  import opened Wrappers
  import opened Text
  import opened Values

  /** `healthcheck:`. Durations are in nanoseconds, as Go's `time.Duration`. */
  datatype HealthCheck = HealthCheck(test: Value, interval: int, timeout: int, retries: int)

  /** `deploy.resources.limits` / `reservations`. */
  datatype ResourceLimits = ResourceLimits(cpus: string, memory: string)

  datatype ResourcesConfig = ResourcesConfig(limits: Option<ResourceLimits>, reservations: Option<ResourceLimits>)

  /** `deploy:`; only its resources are read by the converter. */
  datatype DeployConfig = DeployConfig(resources: Option<ResourcesConfig>)

  /**
   * One compose service. The fields typed `Value` are Go `interface{}` fields:
   * the decoder fills them with whatever shape the file used, and the
   * normaliser replaces them with `StrMap`, `NetMap`, `DepMap` and `StrList`.
   */
  datatype Service = Service(
    image: string,
    ports: seq<string>,
    environment: Value,
    volumes: seq<string>,
    networks: Value,
    dependsOn: Value,
    command: Value,
    entrypoint: Value,
    workingDir: string,
    user: string,
    privileged: bool,
    readOnly: bool,
    healthCheck: Option<HealthCheck>,
    deploy: Option<DeployConfig>,
    shmSize: string,
    pidMode: string,
    ipcMode: string)

  /** A top-level named volume; only its driver is read. */
  datatype Volume = Volume(driver: string)

  datatype DockerCompose = DockerCompose(version: string, services: map<string, Service>, volumes: map<string, Volume>)

  const DefaultVersion: string := "3.8"

  // ---------------------------------------------------------------------
  // Ports

  /** The first segment after the first one that is non-empty and not an integer. */
  function SegmentError(parts: seq<string>, i: nat): (r: Option<string>)
    ensures r.None? <==> forall j :: i <= j < |parts| && j > 0 ==> parts[j] == "" || Atoi(parts[j]).Some?
    decreases |parts| - i
  {
    if i >= |parts| then None
    else if i > 0 && parts[i] != "" && Atoi(parts[i]).None? then Some("invalid port number: " + parts[i])
    else SegmentError(parts, i + 1)
  }

  /** The error `normalizePorts` reports for one port entry, or `None` if it is accepted. */
  function PortError(port: string): Option<string>
  {
    if Contains(port, ":") then
      var parts := Split(port, ":");
      if |parts| < 2 || |parts| > 3 then Some("invalid port format: " + port)
      else SegmentError(parts, 0)
    else if Atoi(port).None? then Some("invalid port number: " + port)
    else None
  }

  /** An entry is accepted iff it is an integer, or it has two or three `:`-separated
    * segments and every non-empty segment after the first is an integer. */
  lemma PortAccepted(port: string)
    ensures PortError(port).None? <==>
      if ':' in port then
        var parts := Split(port, ":");
        2 <= |parts| <= 3 && forall j :: 1 <= j < |parts| ==> parts[j] == "" || Atoi(parts[j]).Some?
      else Atoi(port).Some?
  {
    ContainsChar(port, ':');
  }

  /** normalizePorts: every entry is checked; accepted entries come back unchanged and in order. */
  function NormalizePorts(ports: seq<string>): (r: Result<seq<string>>)
    ensures r.Ok? <==> forall i :: 0 <= i < |ports| ==> PortError(ports[i]).None?
    ensures r.Ok? ==> r.value == ports
    ensures r.Err? ==> exists i :: (0 <= i < |ports| && PortError(ports[i]) == Some(r.error)
                                    && forall j :: 0 <= j < i ==> PortError(ports[j]).None?)
  {
    if ports == [] then Ok([])
    else match PortError(ports[0])
      case Some(e) => Err(e)
      case None =>
        match NormalizePorts(ports[1..])
        case Err(e) =>
          assert forall i :: 1 <= i < |ports| ==> ports[i] == ports[1..][i - 1];
          Err(e)
        case Ok(rest) => Ok([ports[0]] + rest)
  }

  lemma ColonPort(a: string, b: string)
    requires ':' !in a && ':' !in b
    ensures Split(a + ":" + b, ":") == [a, b]
  {
    SplitCharCons(a, ':', b);
    ContainsChar(b, ':');
  }

  /** Three colon-free segments joined by colons split back into the three. */
  lemma ColonPort3(a: string, b: string, c: string)
    requires ':' !in a && ':' !in b && ':' !in c
    ensures Contains(a + ":" + b + ":" + c, ":")
    ensures Split(a + ":" + b + ":" + c, ":") == [a, b, c]
  {
    var s := a + ":" + b + ":" + c;
    assert s == a + [':'] + (b + ":" + c);
    SplitCharCons(a, ':', b + ":" + c);
    ColonPort(b, c);
    assert s[|a|] == ':';
    ContainsChar(s, ':');
  }

  /** An entry of three colon-free segments is judged segment by segment. */
  lemma PortThreeSegments(a: string, b: string, c: string)
    requires ':' !in a && ':' !in b && ':' !in c
    ensures PortError(a + ":" + b + ":" + c) == SegmentError([a, b, c], 0)
  {
    ColonPort3(a, b, c);
  }

  /** Example: an address-qualified mapping, "127.0.0.1:8080:80", passes. */
  lemma PortExampleAddress()
    ensures PortError("127.0.0.1:8080:80").None?
  {
    PortThreeSegments("127.0.0.1", "8080", "80");
    assert "127.0.0.1:8080:80" == "127.0.0.1" + ":" + "8080" + ":" + "80";
    DigitsExample();
    var parts := ["127.0.0.1", "8080", "80"];
    assert parts[1] == "8080" && parts[2] == "80";
    assert SegmentError(parts, 0).None?;
  }

  /** Example: an empty host segment is skipped, so ":80" passes. */
  lemma PortExampleEmptyHost()
    ensures PortError(":80").None?
  {
    ColonPort("", "80");
    assert ":80" == "" + ":" + "80";
    ContainsChar(":80", ':');
    DigitsExample();
  }

  /** Example: a protocol segment is not skipped, so "8080:80:tcp" is rejected. */
  lemma PortExampleProtocol()
    ensures PortError("8080:80:tcp") == Some("invalid port number: " + "tcp")
  {
    var parts := ["8080", "80", "tcp"];
    PortThreeSegments("8080", "80", "tcp");
    assert "8080:80:tcp" == "8080" + ":" + "80" + ":" + "tcp";
    DigitsExample();
    assert Atoi("tcp").None? by { assert "tcp"[0] == 't' && !IsDigit("tcp"[0]); }
    assert SegmentError(parts, 2) == Some("invalid port number: " + "tcp");
    assert SegmentError(parts, 0) == SegmentError(parts, 1) == SegmentError(parts, 2);
  }

  /** Example: the slash form, "8080:80/tcp", is rejected. */
  lemma PortExampleSlash()
    ensures PortError("8080:80/tcp") == Some("invalid port number: " + "80/tcp")
  {
    var parts := ["8080", "80/tcp"];
    SlashPortParts();
    SlashNotNumber();
    assert SegmentError(parts, 1) == Some("invalid port number: " + "80/tcp");
    assert SegmentError(parts, 0) == SegmentError(parts, 1);
  }

  lemma SlashPortParts()
    ensures Contains("8080:80/tcp", ":") && Split("8080:80/tcp", ":") == ["8080", "80/tcp"]
  {
    ColonPort("8080", "80/tcp");
    assert "8080:80/tcp" == "8080" + ":" + "80/tcp";
    ContainsChar("8080:80/tcp", ':');
  }

  lemma SlashNotNumber()
    ensures Atoi("8080") == Some(8080) && Atoi("80/tcp").None?
  {
    DigitsExample();
    assert "80/tcp"[0] == '8' && !IsDigit("80/tcp"[2]);
  }

  lemma DigitsExample()
    ensures Atoi("80") == Some(80) && Atoi("8080") == Some(8080)
  {
    assert "80"[..1] == "8" && "8080"[..3] == "808" && "808"[..2] == "80";
    assert DigitsValue("8") == 8;
    assert DigitsValue("80") == 80;
    assert DigitsValue("808") == 808;
    assert DigitsValue("8080") == 8080;
    assert IsDigits("80") && IsDigits("8080");
    assert "80"[0] == '8' && "8080"[0] == '8';
  }

  // ---------------------------------------------------------------------
  // Environment

  /** The name of an `NAME=value` entry: everything before the first '='. */
  function EnvName(entry: string): string
  {
    Cut(entry, "=")[0]
  }

  /** The value of an entry: everything after the first '=', or "" for a bare name. */
  function EnvValue(entry: string): string
  {
    var parts := Cut(entry, "=");
    if |parts| == 2 then parts[1] else ""
  }

  /** Assigns each entry's value to its name, left to right: a later entry overwrites. */
  function EnvAssign(acc: map<string, string>, entries: seq<string>): map<string, string>
    decreases |entries|
  {
    if entries == [] then acc
    else EnvAssign(acc[EnvName(entries[0]) := EnvValue(entries[0])], entries[1..])
  }

  /** Reference reading of a list environment: the value of the LAST entry naming `k`,
    * or what `acc` held when no entry names it. */
  function LastAssigned(acc: map<string, string>, entries: seq<string>, k: string): Option<string>
  {
    if entries == [] then (if k in acc then Some(acc[k]) else None)
    else if EnvName(entries[|entries| - 1]) == k then Some(EnvValue(entries[|entries| - 1]))
    else LastAssigned(acc, entries[..|entries| - 1], k)
  }

  lemma {:induction false} EnvAssignSnoc(acc: map<string, string>, entries: seq<string>, e: string)
    ensures EnvAssign(acc, entries + [e]) == EnvAssign(acc, entries)[EnvName(e) := EnvValue(e)]
    decreases |entries|
  {
    if entries != [] {
      assert (entries + [e])[1..] == entries[1..] + [e];
      EnvAssignSnoc(acc[EnvName(entries[0]) := EnvValue(entries[0])], entries[1..], e);
    }
  }

  /** Assigning the entries front to back leaves every name holding the value of the
    * last entry that names it. */
  lemma {:induction false} EnvAssignLastWins(acc: map<string, string>, entries: seq<string>, k: string)
    ensures k in EnvAssign(acc, entries) <==> LastAssigned(acc, entries, k).Some?
    ensures k in EnvAssign(acc, entries) ==> EnvAssign(acc, entries)[k] == LastAssigned(acc, entries, k).value
    decreases |entries|
  {
    if entries != [] {
      var init := entries[..|entries| - 1];
      var last := entries[|entries| - 1];
      assert entries == init + [last];
      EnvAssignSnoc(acc, init, last);
      EnvAssignLastWins(acc, init, k);
    }
  }

  /** The last entry naming a key is the one `LastAssigned` reports; a name that no
    * entry carries keeps the accumulator's value. */
  lemma {:induction false} LastAssignedAt(acc: map<string, string>, entries: seq<string>, i: nat)
    requires i < |entries|
    requires forall j :: i < j < |entries| ==> EnvName(entries[j]) != EnvName(entries[i])
    ensures LastAssigned(acc, entries, EnvName(entries[i])) == Some(EnvValue(entries[i]))
    decreases |entries|
  {
    if i < |entries| - 1 {
      LastAssignedAt(acc, entries[..|entries| - 1], i);
    }
  }

  lemma {:induction false} LastAssignedNone(acc: map<string, string>, entries: seq<string>, k: string)
    requires forall j :: 0 <= j < |entries| ==> EnvName(entries[j]) != k
    ensures LastAssigned(acc, entries, k) == if k in acc then Some(acc[k]) else None
    decreases |entries|
  {
    if entries != [] {
      LastAssignedNone(acc, entries[..|entries| - 1], k);
    }
  }

  /** The position of the first item that is not a string. */
  function FirstNonString(items: seq<Value>): (r: Option<nat>)
    ensures r.Some? ==> r.value < |items| && !items[r.value].Str? && forall j :: 0 <= j < r.value ==> items[j].Str?
    ensures r.None? ==> forall j :: 0 <= j < |items| ==> items[j].Str?
  {
    if items == [] then None
    else if !items[0].Str? then Some(0)
    else match FirstNonString(items[1..])
      case None => None
      case Some(i) => Some(i + 1)
  }

  /** normalizeEnvironment: nil, a map or a list becomes a `map[string]string`. */
  function NormalizeEnvironment(env: Value): (r: Result<map<string, string>>)
    ensures r.Err? <==>
      !(env.Null? || env.Map? || env.StrMap? || env.List? || env.StrList?)
      || (env.List? && exists i :: 0 <= i < |env.items| && !env.items[i].Str?)
    ensures env.Null? ==> r == Ok(map[])
    ensures env.Map? ==> (r.Ok? && r.value.Keys == env.fields.Keys
                          && forall k :: k in env.fields ==> r.value[k] == Show(env.fields[k]))
    ensures env.StrMap? ==> r == Ok(env.entries)
  {
    match env
    case Null => Ok(map[])
    case Map(m) => Ok(map k | k in m :: Show(m[k]))
    case StrMap(m) => Ok(m)
    case List(items) =>
      (match FirstNonString(items)
       case Some(i) => Err("invalid environment variable format: " + Show(items[i]))
       case None => Ok(EnvAssign(map[], StringItems(items))))
    case StrList(ss) => Ok(EnvAssign(map[], ss))
    case _ => Err("unsupported environment format: " + TypeName(env))
  }

  /** List-form environment: exactly the entries' names are keys, and each holds the
    * value of the last entry naming it ("" for a bare name). */
  lemma EnvironmentFromList(entries: seq<string>, i: nat)
    requires i < |entries|
    requires forall j :: i < j < |entries| ==> EnvName(entries[j]) != EnvName(entries[i])
    ensures NormalizeEnvironment(StrList(entries)).Ok?
    ensures var m := NormalizeEnvironment(StrList(entries)).value;
      EnvName(entries[i]) in m && m[EnvName(entries[i])] == EnvValue(entries[i])
  {
    EnvironmentOfStrings(entries);
    EnvAssignLastWins(map[], entries, EnvName(entries[i]));
    LastAssignedAt(map[], entries, i);
  }

  /** A list of strings is assigned left to right. */
  lemma EnvironmentOfStrings(entries: seq<string>)
    ensures NormalizeEnvironment(StrList(entries)) == Ok(EnvAssign(map[], entries))
  {
  }

  /** A name that no entry carries is not a key of the list-form environment. */
  lemma EnvironmentOnlyNames(entries: seq<string>, k: string)
    requires forall j :: 0 <= j < |entries| ==> EnvName(entries[j]) != k
    ensures k !in NormalizeEnvironment(StrList(entries)).value
  {
    EnvironmentOfStrings(entries);
    EnvAssignLastWins(map[], entries, k);
    LastAssignedNone(map[], entries, k);
  }

  /** A list holding a non-string item is rejected, naming the first such item. */
  lemma EnvironmentRejectsNonString(items: seq<Value>, i: nat)
    requires i < |items| && !items[i].Str? && forall j :: 0 <= j < i ==> items[j].Str?
    ensures NormalizeEnvironment(List(items)) == Err("invalid environment variable format: " + Show(items[i]))
  {
    var f := FirstNonString(items);
    assert f.Some?;
    assert f.value <= i;
  }

  // ---------------------------------------------------------------------
  // Networks and dependencies

  const EmptyNetwork: NetworkConfig := NetworkConfig([], "", "")

  /** A map-form network entry: string aliases, IPv4 and IPv6 addresses when they are strings. */
  function NetworkConfigOf(config: map<string, Value>): (r: NetworkConfig)
    ensures forall a :: a in r.aliases <==> "aliases" in config && config["aliases"].List? && Str(a) in config["aliases"].items
    ensures "aliases" in config && config["aliases"].List? ==> r.aliases == StringItems(config["aliases"].items)
    ensures "ipv4_address" in config && config["ipv4_address"].Str? ==> r.ipv4Address == config["ipv4_address"].s
    ensures !("ipv4_address" in config && config["ipv4_address"].Str?) ==> r.ipv4Address == ""
    ensures "ipv6_address" in config && config["ipv6_address"].Str? ==> r.ipv6Address == config["ipv6_address"].s
    ensures !("ipv6_address" in config && config["ipv6_address"].Str?) ==> r.ipv6Address == ""
  {
    var aliases := Lookup(config, "aliases");
    var v4 := Lookup(config, "ipv4_address");
    var v6 := Lookup(config, "ipv6_address");
    NetworkConfig(
      if aliases.List? then StringItems(aliases.items) else [],
      if v4.Str? then v4.s else "",
      if v6.Str? then v6.s else "")
  }

  /** A network entry that is neither nil nor a map. */
  predicate BadNetwork(config: Value)
  {
    !config.Null? && !config.Map?
  }

  /** The first key, in the given order, whose network entry is bad. */
  function FirstBadNetwork(m: map<string, Value>, keys: seq<string>): (r: Option<string>)
    requires forall k :: k in keys ==> k in m
    ensures r.Some? ==> r.value in keys && BadNetwork(m[r.value])
    ensures r.None? ==> forall k :: k in keys ==> !BadNetwork(m[k])
  {
    if keys == [] then None
    else if BadNetwork(m[keys[0]]) then Some(keys[0])
    else FirstBadNetwork(m, keys[1..])
  }

  /** normalizeNetworks: list and map forms become a name → config map. */
  function NormalizeNetworks(networks: Value): (r: Result<map<string, NetworkConfig>>)
    ensures r.Err? <==>
      !(networks.Null? || networks.List? || networks.StrList? || networks.Map? || networks.NetMap?)
      || (networks.Map? && exists k :: k in networks.fields && BadNetwork(networks.fields[k]))
    ensures networks.List? && r.Ok? ==>
      (forall k :: k in r.value <==> Str(k) in networks.items) && forall k :: k in r.value ==> r.value[k] == EmptyNetwork
    ensures networks.Null? ==> r == Ok(map[])
    ensures networks.StrList? ==>
      r.Ok? && (forall k :: k in r.value <==> k in networks.strs) && forall k :: k in r.value ==> r.value[k] == EmptyNetwork
    ensures networks.NetMap? ==> r == Ok(networks.nets)
    ensures networks.Map? && r.Ok? ==> r.value.Keys == networks.fields.Keys
    ensures networks.Map? && r.Ok? ==> forall k :: k in networks.fields ==>
      r.value[k] == (if networks.fields[k].Null? then EmptyNetwork else NetworkConfigOf(networks.fields[k].fields))
    ensures networks.Map? && r.Err? ==>
      exists k :: k in networks.fields && BadNetwork(networks.fields[k]) && r.error == "invalid network config for " + k
  {
    match networks
    case Null => Ok(map[])
    case List(items) => Ok(map s | s in StringItems(items) :: EmptyNetwork)
    case StrList(ss) => Ok(map s | s in ss :: EmptyNetwork)
    case Map(m) =>
      (match FirstBadNetwork(m, SortedKeys(m.Keys))
       case Some(name) => Err("invalid network config for " + name)
       case None => Ok(map k | k in m :: if m[k].Null? then EmptyNetwork else NetworkConfigOf(m[k].fields)))
    case NetMap(n) => Ok(n)
    case _ => Err("unsupported networks format: " + TypeName(networks))
  }

  /** A map-form dependency entry: its string `condition`, and an empty one for anything else. */
  function DependencyConfigOf(config: Value): (r: DependencyConfig)
    ensures config.Map? && "condition" in config.fields && config.fields["condition"].Str? ==>
      r.condition == config.fields["condition"].s
    ensures !(config.Map? && "condition" in config.fields && config.fields["condition"].Str?) ==> r.condition == ""
  {
    if config.Map? && Lookup(config.fields, "condition").Str? then DependencyConfig(Lookup(config.fields, "condition").s)
    else DependencyConfig("")
  }

  /** normalizeDependsOn: like networks, but a malformed map entry is not an error. */
  function NormalizeDependsOn(deps: Value): (r: Result<map<string, DependencyConfig>>)
    ensures r.Err? <==> !(deps.Null? || deps.List? || deps.StrList? || deps.Map? || deps.DepMap?)
    ensures deps.List? ==> (r.Ok? && (forall k :: k in r.value <==> Str(k) in deps.items)
                            && forall k :: k in r.value ==> r.value[k] == DependencyConfig(""))
    ensures deps.Map? ==> (r.Ok? && r.value.Keys == deps.fields.Keys
                           && forall k :: k in deps.fields && !deps.fields[k].Map? ==> r.value[k] == DependencyConfig(""))
    ensures deps.Map? ==> forall k :: k in deps.fields ==> r.value[k] == DependencyConfigOf(deps.fields[k])
    ensures deps.Null? ==> r == Ok(map[])
    ensures deps.StrList? ==> (r.Ok? && (forall k :: k in r.value <==> k in deps.strs)
                               && forall k :: k in r.value ==> r.value[k] == DependencyConfig(""))
    ensures deps.DepMap? ==> r == Ok(deps.deps)
  {
    match deps
    case Null => Ok(map[])
    case List(items) => Ok(map s | s in StringItems(items) :: DependencyConfig(""))
    case StrList(ss) => Ok(map s | s in ss :: DependencyConfig(""))
    case Map(m) => Ok(map k | k in m :: DependencyConfigOf(m[k]))
    case DepMap(d) => Ok(d)
    case _ => Err("unsupported depends_on format: " + TypeName(deps))
  }

  /** normalizeCommand: a string is split on white space, a list keeps its strings,
    * anything else gives nil. */
  function NormalizeCommand(cmd: Value): (r: seq<string>)
    ensures cmd.Str? ==> Concat(r) == Unspaced(cmd.s) && Words(r)
    ensures cmd.Str? ==> exists gaps :: Spacing(gaps, r) && Interleave(gaps, r) == cmd.s
    ensures cmd.List? ==> r == StringItems(cmd.items)
    ensures cmd.StrList? ==> r == cmd.strs
    ensures !(cmd.Str? || cmd.List? || cmd.StrList?) ==> r == []
  {
    match cmd
    case Str(s) => FieldsKeepText(s); FieldsSeparated(s); Fields(s)
    case List(items) => StringItems(items)
    case StrList(ss) => ss
    case _ => []
  }

  // ---------------------------------------------------------------------
  // Services

  /** The normalisation of one service, or the error that stops it, naming the service. */
  function NormalizeService(name: string, s: Service): Result<Service>
  {
    match NormalizePorts(s.ports)
    case Err(e) => Err("failed to normalize ports for service " + name + ": " + e)
    case Ok(ports) =>
      match NormalizeEnvironment(s.environment)
      case Err(e) => Err("failed to normalize environment for service " + name + ": " + e)
      case Ok(env) =>
        match NormalizeNetworks(s.networks)
        case Err(e) => Err("failed to normalize networks for service " + name + ": " + e)
        case Ok(nets) =>
          match NormalizeDependsOn(s.dependsOn)
          case Err(e) => Err("failed to normalize depends_on for service " + name + ": " + e)
          case Ok(deps) =>
            Ok(s.(ports := ports, environment := StrMap(env), networks := NetMap(nets), dependsOn := DepMap(deps),
                  command := StrList(NormalizeCommand(s.command)), entrypoint := StrList(NormalizeCommand(s.entrypoint))))
  }

  /** A service normalises iff each of its fields does; the result keeps the ports,
    * image and volumes and holds every loose field in its typed form. */
  lemma NormalizeServiceShape(name: string, s: Service)
    ensures var r := NormalizeService(name, s);
      (r.Ok? <==> (NormalizePorts(s.ports).Ok? && NormalizeEnvironment(s.environment).Ok?
                   && NormalizeNetworks(s.networks).Ok? && NormalizeDependsOn(s.dependsOn).Ok?))
      && (r.Ok? ==> (r.value.ports == s.ports && r.value.image == s.image && r.value.volumes == s.volumes
                     && r.value.environment == StrMap(NormalizeEnvironment(s.environment).value)
                     && r.value.networks == NetMap(NormalizeNetworks(s.networks).value)
                     && r.value.dependsOn == DepMap(NormalizeDependsOn(s.dependsOn).value)
                     && r.value.command == StrList(NormalizeCommand(s.command))
                     && r.value.entrypoint == StrList(NormalizeCommand(s.entrypoint))))
  {
  }

  /** Normalising an already normalised service changes nothing. */
  lemma NormalizeServiceIdempotent(name: string, s: Service)
    requires NormalizeService(name, s).Ok?
    ensures NormalizeService(name, NormalizeService(name, s).value) == NormalizeService(name, s)
  {
  }

  /** The first key, in the given order, whose entry `f` rejects. */
  function FirstFailure<V>(f: (string, V) -> Result<V>, m: map<string, V>, keys: seq<string>): (r: Option<string>)
    requires forall k :: k in keys ==> k in m
    ensures r.None? ==> forall k :: k in keys ==> f(k, m[k]).Ok?
    ensures r.Some? ==> r.value in keys && f(r.value, m[r.value]).Err?
  {
    if keys == [] then None
    else
      var init := keys[..|keys| - 1];
      var last := keys[|keys| - 1];
      assert forall k :: k in keys ==> k in init || k == last;
      match FirstFailure(f, m, init)
      case Some(k) => Some(k)
      case None => if f(last, m[last]).Err? then Some(last) else None
  }

  /** Every entry of `m` replaced by its image under `f`, or the error of the first
    * entry (in key order) that `f` rejects. */
  function UpdatedInOrder<V>(f: (string, V) -> Result<V>, m: map<string, V>): (r: Result<map<string, V>>)
    ensures r.Ok? <==> forall k :: k in m ==> f(k, m[k]).Ok?
    ensures r.Ok? ==> (r.value.Keys == m.Keys && forall k :: k in m ==> f(k, m[k]) == Ok(r.value[k]))
    ensures r.Err? ==> exists k :: k in m && f(k, m[k]) == Err(r.error)
  {
    match FirstFailure(f, m, SortedKeys(m.Keys))
    case Some(k) => Err(f(k, m[k]).error)
    case None => Ok(map k | k in m :: f(k, m[k]).value)
  }

  /** The loop of normalizeServices: visit the keys in order, write each image back
    * into the map, stop at the first failure. */
  method UpdateInOrder<V>(f: (string, V) -> Result<V>, m: map<string, V>) returns (r: Result<map<string, V>>)
    ensures r == UpdatedInOrder(f, m)
  {
    var keys := SortedKeys(m.Keys);
    var current := m;
    var i := 0;
    while i < |keys|
      invariant 0 <= i <= |keys|
      invariant current.Keys == m.Keys
      invariant forall j :: 0 <= j < i ==> f(keys[j], m[keys[j]]) == Ok(current[keys[j]])
      invariant forall j :: i <= j < |keys| ==> current[keys[j]] == m[keys[j]]
    {
      var name := keys[i];
      var n := f(name, m[name]);
      if n.Err? {
        FailureReported(f, m, i);
        return Err(n.error);
      }
      forall j | 0 <= j < |keys| && j != i ensures keys[j] != name {
        if j < i { SortedKeysDistinct(m.Keys, j, i); } else { SortedKeysDistinct(m.Keys, i, j); }
      }
      current := current[name := n.value];
      i := i + 1;
    }
    forall k | k in m ensures f(k, m[k]) == Ok(current[k]) {
      var j :| 0 <= j < |keys| && keys[j] == k;
    }
    UpdatedInOrderOk(f, m, current);
    r := Ok(current);
  }

  /** The first rejected key in key order decides the reported error. */
  lemma FailureReported<V>(f: (string, V) -> Result<V>, m: map<string, V>, i: nat)
    requires i < |m|
    requires forall j :: 0 <= j < i ==> f(SortedKeys(m.Keys)[j], m[SortedKeys(m.Keys)[j]]).Ok?
    requires f(SortedKeys(m.Keys)[i], m[SortedKeys(m.Keys)[i]]).Err?
    ensures UpdatedInOrder(f, m) == Err(f(SortedKeys(m.Keys)[i], m[SortedKeys(m.Keys)[i]]).error)
  {
    var keys := SortedKeys(m.Keys);
    assert forall k :: k in keys[..i] ==> f(k, m[k]).Ok?;
    assert FirstFailure(f, m, keys[..i]).None?;
    FirstFailureStep(f, m, keys, i);
    FirstFailurePrefix(f, m, keys, i + 1);
  }

  /** A map holding every entry's image is the successful result. */
  lemma UpdatedInOrderOk<V>(f: (string, V) -> Result<V>, m: map<string, V>, current: map<string, V>)
    requires current.Keys == m.Keys
    requires forall k :: k in m ==> f(k, m[k]) == Ok(current[k])
    ensures UpdatedInOrder(f, m) == Ok(current)
  {
    var r := UpdatedInOrder(f, m);
    assert r.Ok?;
    assert r.value == current;
  }

  lemma FirstFailureStep<V>(f: (string, V) -> Result<V>, m: map<string, V>, keys: seq<string>, i: nat)
    requires forall k :: k in keys ==> k in m
    requires i < |keys|
    ensures FirstFailure(f, m, keys[..i + 1]) ==
      match FirstFailure(f, m, keys[..i])
      case Some(k) => Some(k)
      case None => if f(keys[i], m[keys[i]]).Err? then Some(keys[i]) else None
  {
    assert keys[..i + 1][..i] == keys[..i];
  }

  /** Once a prefix of the key order has a failure, the whole order reports that failure. */
  lemma {:induction false} FirstFailurePrefix<V>(f: (string, V) -> Result<V>, m: map<string, V>, keys: seq<string>, n: nat)
    requires forall k :: k in keys ==> k in m
    requires n <= |keys| && FirstFailure(f, m, keys[..n]).Some?
    ensures FirstFailure(f, m, keys) == FirstFailure(f, m, keys[..n])
    decreases |keys| - n
  {
    if n < |keys| {
      FirstFailureStep(f, m, keys, n);
      FirstFailurePrefix(f, m, keys, n + 1);
    } else {
      assert keys[..n] == keys;
    }
  }

  /** What normalizeServices leaves in `compose.Services`: every service normalised,
    * or the error of the first one (in key order) that fails. */
  function NormalizedServices(services: map<string, Service>): (r: Result<map<string, Service>>)
    ensures r.Ok? <==> forall k :: k in services ==> NormalizeService(k, services[k]).Ok?
    ensures r.Ok? ==> (r.value.Keys == services.Keys
                       && forall k :: k in services ==> NormalizeService(k, services[k]) == Ok(r.value[k]))
    ensures r.Err? ==> exists k :: k in services && NormalizeService(k, services[k]) == Err(r.error)
  {
    UpdatedInOrder(NormalizeService, services)
  }

  /** normalizeServices: normalise every service in place, stopping at the first failure. */
  method NormalizeServices(services: map<string, Service>) returns (r: Result<map<string, Service>>)
    ensures r == NormalizedServices(services)
  {
    r := UpdateInOrder(NormalizeService, services);
  }

  /** ParseDockerCompose after decoding: default the version, then normalise the services. */
  function Normalized(doc: DockerCompose): (r: Result<DockerCompose>)
    ensures r.Ok? <==> forall k :: k in doc.services ==> NormalizeService(k, doc.services[k]).Ok?
    ensures r.Ok? ==> (r.value.version == (if doc.version == "" then DefaultVersion else doc.version)
                       && r.value.volumes == doc.volumes && r.value.services.Keys == doc.services.Keys)
    ensures r.Ok? ==> forall k :: k in doc.services ==> NormalizeService(k, doc.services[k]) == Ok(r.value.services[k])
    ensures r.Err? ==> exists k, e :: (k in doc.services && NormalizeService(k, doc.services[k]) == Err(e)
                                       && r.error == "failed to normalize services: " + e)
  {
    var version := if doc.version == "" then DefaultVersion else doc.version;
    match NormalizedServices(doc.services)
    case Err(e) => Err("failed to normalize services: " + e)
    case Ok(services) => Ok(DockerCompose(version, services, doc.volumes))
  }

  /** What ParseDockerCompose returns for a text, given the decoder. */
  function Parsed(content: string, decode: string -> Result<DockerCompose>): Result<DockerCompose>
  {
    match decode(content)
    case Err(e) => Err("failed to parse docker-compose file: " + e)
    case Ok(doc) => Normalized(doc)
  }

  /** ParseDockerCompose: decode (an opaque function of the text), default the version,
    * normalise every service in place. */
  method ParseDockerCompose(content: string, decode: string -> Result<DockerCompose>) returns (r: Result<DockerCompose>)
    ensures decode(content).Err? ==> r == Err("failed to parse docker-compose file: " + decode(content).error)
    ensures decode(content).Ok? ==> r == Normalized(decode(content).value)
    ensures r == Parsed(content, decode)
  {
    var decoded := decode(content);
    if decoded.Err? {
      return Err("failed to parse docker-compose file: " + decoded.error);
    }
    var compose := decoded.value;
    if compose.version == "" {
      compose := compose.(version := DefaultVersion);
    }
    var services := NormalizeServices(compose.services);
    if services.Err? {
      return Err("failed to normalize services: " + services.error);
    }
    compose := compose.(services := services.value);
    return Ok(compose);
  }
}
