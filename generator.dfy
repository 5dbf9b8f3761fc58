/**
 * The Deployment generator (backend/converters/kubernetes/generator.go). Its input is
 * the `map[string]interface{}` the converter builds from one compose service; its
 * output is a Deployment with exactly one container.
 */
module Generator {
  import opened Wrappers
  import opened Text
  import opened Values
  import opened Kubernetes
  import Compose

  // ---------------------------------------------------------------------
  // Port mappings

  /** A third segment names a protocol when it contains "tcp" or "udp". */
  predicate IsProtocol(segment: string)
  {
    Contains(segment, "tcp") || Contains(segment, "udp")
  }

  /** `strconv.Atoi` followed by `int32(...)`, or the error naming the segment. */
  function PortNumber(segment: string, what: string): Result<int>
  {
    match Atoi(segment)
    case None => Err("invalid " + what + "port number: " + segment)
    case Some(n) => Ok(Wrap32(n))
  }

  /** parsePortMapping: "C", "H:C", "IP:H:C" or "H:C:proto"; the container port, and
    * the protocol in upper case when the third segment names one ("TCP" otherwise). */
  function ParsePortMapping(mapping: string): (r: Result<ContainerPort>)
    ensures r.Ok? ==> -MaxInt32 - 1 <= r.value.containerPort <= MaxInt32
    ensures |Split(mapping, ":")| > 3 ==> r == Err("invalid port mapping format: " + mapping)
  {
    ContainerPortFromParts(Split(mapping, ":"), mapping)
  }

  /** The switch on the number of ':'-separated segments. */
  function ContainerPortFromParts(parts: seq<string>, mapping: string): (r: Result<ContainerPort>)
    requires |parts| >= 1
    ensures r.Ok? ==> -MaxInt32 - 1 <= r.value.containerPort <= MaxInt32
    ensures |parts| > 3 ==> r == Err("invalid port mapping format: " + mapping)
  {
    if |parts| == 1 then
      (match PortNumber(parts[0], "")
       case Err(e) => Err(e)
       case Ok(n) => Ok(ContainerPort(n, "TCP")))
    else if |parts| == 2 then
      (match PortNumber(parts[1], "container ")
       case Err(e) => Err(e)
       case Ok(n) => Ok(ContainerPort(n, "TCP")))
    else if |parts| == 3 && IsProtocol(parts[2]) then
      (match PortNumber(parts[1], "container ")
       case Err(e) => Err(e)
       case Ok(n) => Ok(ContainerPort(n, ToUpper(parts[2]))))
    else if |parts| == 3 then
      (match PortNumber(parts[2], "container ")
       case Err(e) => Err(e)
       case Ok(n) => Ok(ContainerPort(n, "TCP")))
    else Err("invalid port mapping format: " + mapping)
  }

  /** A decimal number never names a protocol. */
  lemma NumberNotProtocol(n: int)
    ensures !IsProtocol(Itoa(n))
  {
    var s := Itoa(n);
    ItoaChars(n);
    forall i | 0 <= i && i + 3 <= |s| ensures !OccursAt(s, "tcp", i) && !OccursAt(s, "udp", i) {
      assert s[i..i + 3][0] == s[i];
    }
  }

  /** The decimal text of an integer has no ':' and reads back as that integer. */
  lemma NumberSegment(n: int)
    requires -MaxInt64 - 1 <= n <= MaxInt64
    ensures ':' !in Itoa(n) && Atoi(Itoa(n)) == Some(n)
  {
    ItoaChars(n);
    ParseItoa(n, MaxInt64);
  }

  /** "C": the container port is C, over TCP. */
  lemma PortMappingSingle(c: int)
    requires -MaxInt64 - 1 <= c <= MaxInt64
    ensures ParsePortMapping(Itoa(c)) == Ok(ContainerPort(Wrap32(c), "TCP"))
  {
    NumberSegment(c);
    ContainsChar(Itoa(c), ':');
    SplitAbsent(Itoa(c), ":");
  }

  /** "H:C": the host part is not read; the container port is C. */
  lemma PortMappingPair(h: string, c: int)
    requires ':' !in h && -MaxInt64 - 1 <= c <= MaxInt64
    ensures ParsePortMapping(h + ":" + Itoa(c)) == Ok(ContainerPort(Wrap32(c), "TCP"))
  {
    NumberSegment(c);
    Compose.ColonPort(h, Itoa(c));
  }

  /** "IP:H:C": a third segment that is a number is the container port. */
  lemma PortMappingAddress(ip: string, h: string, c: int)
    requires ':' !in ip && ':' !in h && -MaxInt64 - 1 <= c <= MaxInt64
    ensures ParsePortMapping(ip + ":" + h + ":" + Itoa(c)) == Ok(ContainerPort(Wrap32(c), "TCP"))
  {
    NumberSegment(c);
    NumberNotProtocol(c);
    Compose.ColonPort3(ip, h, Itoa(c));
  }

  /** "H:C:proto": a protocol segment moves the container port to the middle segment
    * and is upper-cased. */
  lemma PortMappingProtocol(h: string, c: int, proto: string)
    requires ':' !in h && ':' !in proto && IsProtocol(proto) && -MaxInt64 - 1 <= c <= MaxInt64
    ensures ParsePortMapping(h + ":" + Itoa(c) + ":" + proto) == Ok(ContainerPort(Wrap32(c), ToUpper(proto)))
  {
    NumberSegment(c);
    Compose.ColonPort3(h, Itoa(c), proto);
  }

  /** A two-segment port the compose normaliser accepts is also accepted here, unless
    * its container segment is empty (which the normaliser lets through). */
  lemma NormalizedPairAccepted(h: string, c: string)
    requires ':' !in h && ':' !in c && c != ""
    requires Compose.PortError(h + ":" + c).None?
    ensures ParsePortMapping(h + ":" + c).Ok?
  {
    Compose.ColonPort(h, c);
    ContainsChar(h + ":" + c, ':');
    assert Split(h + ":" + c, ":")[1] == c;
    assert Compose.SegmentError([h, c], 0) == Compose.SegmentError([h, c], 1);
  }

  // ---------------------------------------------------------------------
  // Lists of strings parsed one by one

  /** The loop shared by generateContainerPorts and generateServicePorts: every string
    * item is parsed in order and non-strings are skipped; the first failure stops it. */
  function ParseStrings<T>(parse: string -> Result<T>, acc: seq<T>, items: seq<Value>): (r: Result<seq<T>>)
    decreases |items|
  {
    if items == [] then Ok(acc)
    else if !items[0].Str? then ParseStrings(parse, acc, items[1..])
    else match parse(items[0].s)
      case Err(e) => Err("invalid port format " + items[0].s + ": " + e)
      case Ok(x) => ParseStrings(parse, acc + [x], items[1..])
  }

  /** The loop succeeds iff every string item parses. */
  lemma {:induction false} ParseStringsOk<T>(parse: string -> Result<T>, acc: seq<T>, items: seq<Value>)
    ensures ParseStrings(parse, acc, items).Ok? <==> forall s :: Str(s) in items ==> parse(s).Ok?
    decreases |items|
  {
    if items != [] {
      assert items == [items[0]] + items[1..];
      if items[0].Str? && parse(items[0].s).Ok? {
        ParseStringsOk(parse, acc + [parse(items[0].s).value], items[1..]);
      } else if !items[0].Str? {
        ParseStringsOk(parse, acc, items[1..]);
      }
    }
  }

  /** On success the parsed string items follow the accumulator, in order. */
  lemma {:induction false} ParseStringsValue<T>(parse: string -> Result<T>, acc: seq<T>, items: seq<Value>)
    requires ParseStrings(parse, acc, items).Ok?
    ensures var r := ParseStrings(parse, acc, items).value;
      var ss := StringItems(items);
      |r| == |acc| + |ss| && r[..|acc|] == acc
      && forall k :: 0 <= k < |ss| ==> parse(ss[k]) == Ok(r[|acc| + k])
    decreases |items|
  {
    if items != [] {
      var ss := StringItems(items);
      var rest := StringItems(items[1..]);
      if !items[0].Str? {
        assert ss == rest;
        ParseStringsValue(parse, acc, items[1..]);
      } else {
        assert ss == [items[0].s] + rest;
        var x := parse(items[0].s).value;
        var next := acc + [x];
        ParseStringsValue(parse, next, items[1..]);
        var r := ParseStrings(parse, acc, items).value;
        assert r[..|acc|] == r[..|next|][..|acc|];
        forall k | 0 <= k < |ss| ensures parse(ss[k]) == Ok(r[|acc| + k]) {
          if k == 0 {
            assert r[|acc|] == r[..|next|][|acc|];
          } else {
            assert ss[k] == rest[k - 1];
            assert |next| + (k - 1) == |acc| + k;
          }
        }
      }
    }
  }

  /** A failure names a string item that does not parse, with that item's error. */
  lemma {:induction false} ParseStringsError<T>(parse: string -> Result<T>, acc: seq<T>, items: seq<Value>)
    requires ParseStrings(parse, acc, items).Err?
    ensures exists s :: Str(s) in items && parse(s).Err?
              && ParseStrings(parse, acc, items).error == "invalid port format " + s + ": " + parse(s).error
    decreases |items|
  {
    assert items == [items[0]] + items[1..];
    if !items[0].Str? {
      ParseStringsError(parse, acc, items[1..]);
    } else if parse(items[0].s).Ok? {
      ParseStringsError(parse, acc + [parse(items[0].s).value], items[1..]);
    }
  }

  /** generateContainerPorts, as a value: a non-list is an error. */
  function ContainerPortsFor(ports: Value): Result<seq<ContainerPort>>
  {
    if !ports.List? then Err("invalid ports format") else ParseStrings(ParsePortMapping, [], ports.items)
  }

  /** generateContainerPorts: one container port per string item, in order. */
  method GenerateContainerPorts(ports: Value) returns (r: Result<seq<ContainerPort>>)
    ensures r == ContainerPortsFor(ports)
  {
    if !ports.List? {
      return Err("invalid ports format");
    }
    var items := ports.items;
    var acc: seq<ContainerPort> := [];
    var i := 0;
    while i < |items|
      invariant 0 <= i <= |items|
      invariant ParseStrings(ParsePortMapping, [], items) == ParseStrings(ParsePortMapping, acc, items[i..])
    {
      assert items[i..][1..] == items[i + 1..];
      var item := items[i];
      if item.Str? {
        var port := ParsePortMapping(item.s);
        if port.Err? {
          return Err("invalid port format " + item.s + ": " + port.error);
        }
        acc := acc + [port.value];
      }
      i := i + 1;
    }
    r := Ok(acc);
  }

  // ---------------------------------------------------------------------
  // Environment variables

  /** A list entry as a variable: the name before the first '=', the rest as value. */
  function EnvVarOf(entry: string): EnvVar
  {
    EnvVar(Compose.EnvName(entry), Compose.EnvValue(entry))
  }

  /** The list form: one variable per string item, in order, duplicates kept. */
  function EnvVarsFromList(acc: seq<EnvVar>, items: seq<Value>): seq<EnvVar>
    decreases |items|
  {
    if items == [] then acc
    else EnvVarsFromList(if items[0].Str? then acc + [EnvVarOf(items[0].s)] else acc, items[1..])
  }

  /** The map forms: one variable per key, visited in the given key order. */
  function EnvVarsFromMap(acc: seq<EnvVar>, m: map<string, string>, keys: seq<string>): seq<EnvVar>
    requires forall k :: k in keys ==> k in m
    decreases |keys|
  {
    if keys == [] then acc else EnvVarsFromMap(acc + [EnvVar(keys[0], m[keys[0]])], m, keys[1..])
  }

  /** Each value of a `map[string]interface{}` in its `%v` form. */
  function Shown(m: map<string, Value>): (r: map<string, string>)
    ensures r.Keys == m.Keys
  {
    map k | k in m :: Show(m[k])
  }

  /** generateEnvVars, as a value. */
  function EnvVarsFor(env: Value): Result<seq<EnvVar>>
  {
    match env
    case Map(m) => Ok(EnvVarsFromMap([], Shown(m), SortedKeys(m.Keys)))
    case StrMap(m) => Ok(EnvVarsFromMap([], m, SortedKeys(m.Keys)))
    case List(items) => Ok(EnvVarsFromList([], items))
    case _ => Err("unsupported environment format: " + TypeName(env))
  }

  /** The list form keeps what it was given and adds one variable per string item. */
  lemma {:induction false} EnvVarsFromListLength(acc: seq<EnvVar>, items: seq<Value>)
    ensures var r := EnvVarsFromList(acc, items);
      |r| == |acc| + |StringItems(items)| && r[..|acc|] == acc
    decreases |items|
  {
    if items != [] {
      var next := if items[0].Str? then acc + [EnvVarOf(items[0].s)] else acc;
      EnvVarsFromListLength(next, items[1..]);
      var r := EnvVarsFromList(acc, items);
      assert r[..|acc|] == r[..|next|][..|acc|];
    }
  }

  /** One variable per list entry, in order. */
  function EnvVarsOf(ss: seq<string>): (r: seq<EnvVar>)
    ensures |r| == |ss|
    ensures forall k :: 0 <= k < |ss| ==> r[k] == EnvVarOf(ss[k])
  {
    if ss == [] then [] else [EnvVarOf(ss[0])] + EnvVarsOf(ss[1..])
  }

  /** The list form is what it was given followed by one variable per string item. */
  lemma {:induction false} EnvVarsFromListClosed(acc: seq<EnvVar>, items: seq<Value>)
    ensures EnvVarsFromList(acc, items) == acc + EnvVarsOf(StringItems(items))
    decreases |items|
  {
    if items != [] {
      var rest := StringItems(items[1..]);
      if items[0].Str? {
        var e := EnvVarOf(items[0].s);
        assert EnvVarsFromList(acc, items) == EnvVarsFromList(acc + [e], items[1..]);
        EnvVarsFromListClosed(acc + [e], items[1..]);
        var ss := StringItems(items);
        assert ss == [items[0].s] + rest;
        assert ss[1..] == rest;
        assert EnvVarsOf(ss) == [e] + EnvVarsOf(rest);
        assert acc + [e] + EnvVarsOf(rest) == acc + ([e] + EnvVarsOf(rest));
      } else {
        EnvVarsFromListClosed(acc, items[1..]);
        assert StringItems(items) == rest;
      }
    }
  }

  /** The list form appends one variable per string item, in order. */
  lemma EnvVarsFromListSpec(acc: seq<EnvVar>, items: seq<Value>)
    ensures var r := EnvVarsFromList(acc, items);
      var ss := StringItems(items);
      |r| == |acc| + |ss| && r[..|acc|] == acc
      && forall k :: 0 <= k < |ss| ==> r[|acc| + k] == EnvVarOf(ss[k])
  {
    EnvVarsFromListClosed(acc, items);
    var ss := StringItems(items);
    assert (acc + EnvVarsOf(ss))[..|acc|] == acc;
  }

  /** The map forms append one variable per key, in key order. */
  lemma {:induction false} EnvVarsFromMapSpec(acc: seq<EnvVar>, m: map<string, string>, keys: seq<string>)
    requires forall k :: k in keys ==> k in m
    ensures var r := EnvVarsFromMap(acc, m, keys);
      |r| == |acc| + |keys| && r[..|acc|] == acc
      && forall k :: 0 <= k < |keys| ==> r[|acc| + k] == EnvVar(keys[k], m[keys[k]])
    decreases |keys|
  {
    if keys != [] {
      var next := acc + [EnvVar(keys[0], m[keys[0]])];
      EnvVarsFromMapSpec(next, m, keys[1..]);
      var r := EnvVarsFromMap(acc, m, keys);
      assert r[..|acc|] == r[..|next|][..|acc|];
    }
  }

  /** List form: the variables follow the string items in order, duplicates and all,
    * a bare name carrying "". */
  lemma EnvVarsListForm(items: seq<Value>)
    ensures EnvVarsFor(List(items)).Ok?
    ensures var r := EnvVarsFor(List(items)).value;
      var ss := StringItems(items);
      |r| == |ss| && forall k :: 0 <= k < |ss| ==> r[k] == EnvVarOf(ss[k])
  {
    EnvVarsFromListSpec([], items);
  }

  /** Map form: one variable per key, holding that key's value. */
  lemma EnvVarsMapForm(m: map<string, string>)
    ensures EnvVarsFor(StrMap(m)).Ok?
    ensures var r := EnvVarsFor(StrMap(m)).value;
      |r| == |m|
      && (forall k :: 0 <= k < |r| ==> r[k].name in m && r[k].value == m[r[k].name])
      && (forall name :: name in m ==> exists k :: 0 <= k < |r| && r[k].name == name)
  {
    var keys := SortedKeys(m.Keys);
    EnvVarsFromMapSpec([], m, keys);
    var r := EnvVarsFor(StrMap(m)).value;
    forall k | 0 <= k < |r| ensures r[k].name in m && r[k].value == m[r[k].name] {
      assert r[0 + k] == EnvVar(keys[k], m[keys[k]]);
    }
    forall name | name in m ensures exists k :: 0 <= k < |r| && r[k].name == name {
      var k :| 0 <= k < |keys| && keys[k] == name;
      assert r[0 + k].name == name;
    }
  }

  /** generateEnvVars: the variables of a map or list environment. */
  method GenerateEnvVars(env: Value) returns (r: Result<seq<EnvVar>>)
    ensures r == EnvVarsFor(env)
  {
    match env
    case List(items) =>
      var acc: seq<EnvVar> := [];
      var i := 0;
      while i < |items|
        invariant 0 <= i <= |items|
        invariant EnvVarsFromList([], items) == EnvVarsFromList(acc, items[i..])
      {
        assert items[i..][1..] == items[i + 1..];
        if items[i].Str? {
          acc := acc + [EnvVarOf(items[i].s)];
        }
        i := i + 1;
      }
      r := Ok(acc);
    case StrMap(m) =>
      var vars := EnvVarsFromKeys(m);
      r := Ok(vars);
    case Map(m) =>
      var shown := map k | k in m :: Show(m[k]);
      var vars := EnvVarsFromKeys(shown);
      r := Ok(vars);
    case _ =>
      r := Err("unsupported environment format: " + TypeName(env));
  }

  /** The map loop of generateEnvVars, visiting the keys in ascending order. */
  method EnvVarsFromKeys(m: map<string, string>) returns (vars: seq<EnvVar>)
    ensures vars == EnvVarsFromMap([], m, SortedKeys(m.Keys))
  {
    var keys := SortedKeys(m.Keys);
    vars := [];
    var i := 0;
    while i < |keys|
      invariant 0 <= i <= |keys|
      invariant EnvVarsFromMap([], m, keys) == EnvVarsFromMap(vars, m, keys[i..])
    {
      assert keys[i..][1..] == keys[i + 1..];
      vars := vars + [EnvVar(keys[i], m[keys[i]])];
      i := i + 1;
    }
  }

  // ---------------------------------------------------------------------
  // Volumes

  function VolumeName(index: int): string
  {
    "volume-" + Itoa(index)
  }

  /** parseVolumeMapping: "host:container[:mode]" becomes a host-path volume and its
    * mount, both named after the entry's position; mode "ro" makes the mount read-only. */
  function ParseVolumeMapping(mapping: string, index: int): (r: Result<(Volume, VolumeMount)>)
    ensures r.Ok? ==> r.value.0.name == r.value.1.name == VolumeName(index)
    ensures r.Err? <==> |Split(mapping, ":")| < 2
  {
    var parts := Split(mapping, ":");
    if |parts| < 2 then Err("invalid volume mapping format: " + mapping)
    else
      var name := VolumeName(index);
      Ok((Volume(name, parts[0]), VolumeMount(name, parts[1], |parts| > 2 && parts[2] == "ro")))
  }

  /** "host:container" mounts read-write; "host:container:ro" read-only. */
  lemma VolumeMappingForms(host: string, path: string, index: int)
    requires ':' !in host && ':' !in path
    ensures ParseVolumeMapping(host + ":" + path, index)
            == Ok((Volume(VolumeName(index), host), VolumeMount(VolumeName(index), path, false)))
    ensures ParseVolumeMapping(host + ":" + path + ":ro", index)
            == Ok((Volume(VolumeName(index), host), VolumeMount(VolumeName(index), path, true)))
  {
    Compose.ColonPort(host, path);
    assert host + ":" + path + ":ro" == host + ":" + path + ":" + "ro";
    Compose.ColonPort3(host, path, "ro");
  }

  /** An entry without ':' (an anonymous volume such as "/app/node_modules") is rejected. */
  lemma AnonymousVolumeRejected(mapping: string, index: int)
    requires ':' !in mapping
    ensures ParseVolumeMapping(mapping, index) == Err("invalid volume mapping format: " + mapping)
  {
    ContainsChar(mapping, ':');
    SplitAbsent(mapping, ":");
  }

  datatype Mounts = Mounts(volumes: seq<Volume>, mounts: seq<VolumeMount>)

  /** The loop of generateVolumes from position `index` on, over a given entry parser
    * (parseVolumeMapping in the generator). */
  function VolumesFrom(parse: (string, int) -> Result<(Volume, VolumeMount)>, acc: Mounts, items: seq<Value>, index: nat)
    : Result<Mounts>
    decreases |items|
  {
    if items == [] then Ok(acc)
    else if !items[0].Str? then VolumesFrom(parse, acc, items[1..], index + 1)
    else match parse(items[0].s, index)
      case Err(e) => Err("invalid volume mapping " + items[0].s + ": " + e)
      case Ok(p) => VolumesFrom(parse, Mounts(acc.volumes + [p.0], acc.mounts + [p.1]), items[1..], index + 1)
  }

  /** generateVolumes, as a value: no `volumes` list means no volumes. */
  function VolumesFor(service: map<string, Value>): Result<Mounts>
  {
    if "volumes" !in service || !service["volumes"].List? then Ok(Mounts([], []))
    else VolumesFrom(ParseVolumeMapping, Mounts([], []), service["volumes"].items, 0)
  }

  /** The loop succeeds iff every string entry parses at its own position. */
  lemma {:induction false} VolumesFromOk(parse: (string, int) -> Result<(Volume, VolumeMount)>, acc: Mounts, items: seq<Value>, index: nat)
    ensures VolumesFrom(parse, acc, items, index).Ok?
            <==> forall j :: 0 <= j < |items| && items[j].Str? ==> parse(items[j].s, index + j).Ok?
    decreases |items|
  {
    if items != [] {
      var tail := items[1..];
      var p := if items[0].Str? then parse(items[0].s, index) else Ok((Volume("", ""), VolumeMount("", "", false)));
      if p.Ok? {
        var next := if items[0].Str? then Mounts(acc.volumes + [p.value.0], acc.mounts + [p.value.1]) else acc;
        VolumesFromOk(parse, next, tail, index + 1);
        assert forall j :: 0 < j < |items| ==> items[j] == tail[j - 1] && index + j == index + 1 + (j - 1);
      }
    }
  }

  /** For a list of strings, a successful loop adds one volume and one mount per entry
    * after what the accumulator already holds. */
  lemma {:induction false} VolumesFromLength(parse: (string, int) -> Result<(Volume, VolumeMount)>, acc: Mounts, items: seq<Value>, index: nat)
    requires forall j :: 0 <= j < |items| ==> items[j].Str?
    requires VolumesFrom(parse, acc, items, index).Ok?
    ensures var r := VolumesFrom(parse, acc, items, index).value;
      |r.volumes| == |acc.volumes| + |items| && |r.mounts| == |acc.mounts| + |items|
      && r.volumes[..|acc.volumes|] == acc.volumes && r.mounts[..|acc.mounts|] == acc.mounts
    decreases |items|
  {
    if items != [] {
      var p := parse(items[0].s, index);
      var next := Mounts(acc.volumes + [p.value.0], acc.mounts + [p.value.1]);
      VolumesFromLength(parse, next, items[1..], index + 1);
      var v := VolumesFrom(parse, next, items[1..], index + 1).value;
      assert v.volumes[..|acc.volumes|] == v.volumes[..|next.volumes|][..|acc.volumes|];
      assert v.mounts[..|acc.mounts|] == v.mounts[..|next.mounts|][..|acc.mounts|];
    }
  }

  /** For a list of strings, the entry at position j yields volume and mount number
    * `index + j`. */
  lemma {:induction false} VolumesFromAt(parse: (string, int) -> Result<(Volume, VolumeMount)>, acc: Mounts, items: seq<Value>, index: nat, j: nat)
    requires forall j :: 0 <= j < |items| ==> items[j].Str?
    requires VolumesFrom(parse, acc, items, index).Ok? && j < |items|
    ensures var r := VolumesFrom(parse, acc, items, index).value;
      |acc.volumes| + j < |r.volumes| && |acc.mounts| + j < |r.mounts|
      && parse(items[j].s, index + j) == Ok((r.volumes[|acc.volumes| + j], r.mounts[|acc.mounts| + j]))
    decreases |items|
  {
    var p := parse(items[0].s, index);
    var next := Mounts(acc.volumes + [p.value.0], acc.mounts + [p.value.1]);
    VolumesFromLength(parse, next, items[1..], index + 1);
    var v := VolumesFrom(parse, next, items[1..], index + 1).value;
    if j == 0 {
      assert v.volumes[|acc.volumes|] == v.volumes[..|next.volumes|][|acc.volumes|];
      assert v.mounts[|acc.mounts|] == v.mounts[..|next.mounts|][|acc.mounts|];
    } else {
      VolumesFromAt(parse, next, items[1..], index + 1, j - 1);
      assert items[j] == items[1..][j - 1];
    }
  }

  /** generateVolumes on a list of strings: it fails iff some entry lacks a ':'-separated
    * second segment; otherwise entry j becomes volume `volume-<j>` with the entry's host
    * path, and the mount of the same name at the entry's container path. */
  lemma VolumesForList(service: map<string, Value>, entries: seq<string>)
    requires "volumes" in service && service["volumes"] == List(Strings(entries))
    ensures VolumesFor(service).Ok? <==> forall j :: 0 <= j < |entries| ==> |Split(entries[j], ":")| >= 2
    ensures VolumesFor(service).Ok? ==>
      var m := VolumesFor(service).value;
      |m.volumes| == |m.mounts| == |entries|
      && forall j :: 0 <= j < |entries| ==>
           m.volumes[j] == Volume(VolumeName(j), Split(entries[j], ":")[0])
           && m.mounts[j].name == VolumeName(j) && m.mounts[j].mountPath == Split(entries[j], ":")[1]
  {
    var items := service["volumes"].items;
    assert VolumesFor(service) == VolumesFrom(ParseVolumeMapping, Mounts([], []), items, 0);
    VolumesOfStringsOk(items, entries);
    if VolumesFor(service).Ok? {
      VolumesOfStrings(items, entries);
    }
  }

  /** VolumesForList, on the list of entries itself: when it succeeds. */
  lemma VolumesOfStringsOk(items: seq<Value>, entries: seq<string>)
    requires items == Strings(entries)
    ensures VolumesFrom(ParseVolumeMapping, Mounts([], []), items, 0).Ok?
            <==> forall j :: 0 <= j < |entries| ==> |Split(entries[j], ":")| >= 2
  {
    VolumesFromOk(ParseVolumeMapping, Mounts([], []), items, 0);
    assert forall j :: 0 <= j < |items| ==> items[j] == Str(entries[j]) && 0 + j == j;
  }

  /** VolumesForList, on the list of entries itself: what it builds. */
  lemma VolumesOfStrings(items: seq<Value>, entries: seq<string>)
    requires items == Strings(entries)
    requires forall j :: 0 <= j < |entries| ==> |Split(entries[j], ":")| >= 2
    ensures var r := VolumesFrom(ParseVolumeMapping, Mounts([], []), items, 0);
      r.Ok?
      && |r.value.volumes| == |r.value.mounts| == |entries|
      && forall j :: 0 <= j < |entries| ==>
           r.value.volumes[j] == Volume(VolumeName(j), Split(entries[j], ":")[0])
           && r.value.mounts[j].name == VolumeName(j) && r.value.mounts[j].mountPath == Split(entries[j], ":")[1]
  {
    VolumesOfStringsOk(items, entries);
    var r := VolumesFrom(ParseVolumeMapping, Mounts([], []), items, 0);
    VolumesFromLength(ParseVolumeMapping, Mounts([], []), items, 0);
    forall j | 0 <= j < |entries|
      ensures r.value.volumes[j] == Volume(VolumeName(j), Split(entries[j], ":")[0])
      ensures r.value.mounts[j].name == VolumeName(j)
      ensures r.value.mounts[j].mountPath == Split(entries[j], ":")[1]
    {
      assert items[j] == Str(entries[j]) && 0 + j == j;
      VolumesFromAt(ParseVolumeMapping, Mounts([], []), items, 0, j);
    }
  }

  /** generateVolumes: one host-path volume and one mount per string entry. */
  method GenerateVolumes(service: map<string, Value>) returns (r: Result<Mounts>)
    ensures r == VolumesFor(service)
  {
    if "volumes" !in service || !service["volumes"].List? {
      return Ok(Mounts([], []));
    }
    var items := service["volumes"].items;
    var volumes: seq<Volume> := [];
    var mounts: seq<VolumeMount> := [];
    var i := 0;
    while i < |items|
      invariant 0 <= i <= |items|
      invariant VolumesFor(service) == VolumesFrom(ParseVolumeMapping, Mounts(volumes, mounts), items[i..], i)
    {
      assert items[i..][1..] == items[i + 1..];
      if items[i].Str? {
        var parsed := ParseVolumeMapping(items[i].s, i);
        if parsed.Err? {
          return Err("invalid volume mapping " + items[i].s + ": " + parsed.error);
        }
        volumes := volumes + [parsed.value.0];
        mounts := mounts + [parsed.value.1];
      }
      i := i + 1;
    }
    r := Ok(Mounts(volumes, mounts));
  }

  // ---------------------------------------------------------------------
  // Durations and probes

  /** The multiplier of a duration's unit suffix and the text before it. */
  function DurationParts(d: string): (int, string)
  {
    if HasSuffix(d, "s") then (1, d[..|d| - 1])
    else if HasSuffix(d, "m") then (60, d[..|d| - 1])
    else if HasSuffix(d, "h") then (3600, d[..|d| - 1])
    else (1, d)
  }

  /** parseDurationToSeconds: trim, strip one unit suffix (s, m or h; none means
    * seconds), read a 32-bit integer and scale it in 32-bit arithmetic. */
  function ParseDurationToSeconds(duration: string): (r: Result<int>)
    ensures r.Ok? ==> -MaxInt32 - 1 <= r.value <= MaxInt32
    ensures TrimSpace(duration) == "" ==> r == Err("empty duration")
  {
    var d := TrimSpace(duration);
    if d == "" then Err("empty duration")
    else
      var (multiplier, digits) := DurationParts(d);
      match ParseInt(digits, MaxInt32)
      case None => Err("invalid duration format: " + d)
      case Some(n) => Ok(Wrap32(n * multiplier))
  }

  /** A number followed by s, m or h is that many seconds, minutes or hours. */
  lemma DurationWithUnit(n: nat, unit: char)
    requires unit == 's' || unit == 'm' || unit == 'h'
    requires n * UnitSeconds(unit) <= MaxInt32
    ensures ParseDurationToSeconds(Itoa(n) + [unit]) == Ok(n * UnitSeconds(unit))
  {
    var d := Itoa(n) + [unit];
    ItoaChars(n);
    assert !IsSpace(d[0]) && !IsSpace(d[|d| - 1]);
    assert TrimSpace(d) == d;
    UnitSuffix(Itoa(n), unit);
    ParseItoa(n, MaxInt32);
  }

  /** The seconds in one unit of s, m or h. */
  function UnitSeconds(unit: char): int
  {
    if unit == 's' then 1 else if unit == 'm' then 60 else 3600
  }

  /** A unit letter at the end is split off with its multiplier. */
  lemma UnitSuffix(digits: string, unit: char)
    requires unit == 's' || unit == 'm' || unit == 'h'
    ensures DurationParts(digits + [unit]) == (UnitSeconds(unit), digits)
  {
    var d := digits + [unit];
    assert d[|d| - 1..] == [unit];
    assert d[..|d| - 1] == digits;
  }

  /** A bare number is a count of seconds. */
  lemma DurationBare(n: int)
    requires -MaxInt32 - 1 <= n <= MaxInt32
    ensures ParseDurationToSeconds(Itoa(n)) == Ok(n)
  {
    var d := Itoa(n);
    ItoaChars(n);
    assert !IsSpace(d[0]) && !IsSpace(d[|d| - 1]);
    assert TrimSpace(d) == d;
    assert d[|d| - 1..] == [d[|d| - 1]];
    assert DurationParts(d) == (1, d);
    ParseItoa(n, MaxInt32);
  }

  /** Example: compound durations are not understood, so "1m0s" is rejected. */
  lemma DurationCompoundRejected()
    ensures ParseDurationToSeconds("1m0s") == Err("invalid duration format: " + "1m0s")
  {
    var d := "1m0s";
    assert !IsSpace(d[0]) && !IsSpace(d[|d| - 1]);
    assert d[|d| - 1..] == "s" && d[..|d| - 1] == "1m0";
    assert DurationParts(d) == (1, "1m0");
    assert !IsDigit("1m0"[1]);
  }

  datatype ProbeSet = ProbeSet(liveness: Option<Probe>, readiness: Option<Probe>)

  /** A duration field of the health check in seconds, or 0 when it is absent, not a
    * string or unparsable. */
  function DurationField(health: map<string, Value>, key: string): int
  {
    var v := Lookup(health, key);
    if v.Str? && ParseDurationToSeconds(v.s).Ok? then ParseDurationToSeconds(v.s).value else 0
  }

  /** generateProbes: a health check with a non-empty test becomes one exec probe used
    * as both liveness and readiness probe; unparsable durations are ignored, and an
    * `int` retries count becomes the failure threshold. */
  function GenerateProbes(healthcheck: Value): (r: ProbeSet)
    ensures r.liveness == r.readiness
    ensures r.liveness.Some? <==>
      healthcheck.Map? && "test" in healthcheck.fields && |Compose.NormalizeCommand(healthcheck.fields["test"])| > 0
    ensures r.liveness.Some? ==>
      var h := healthcheck.fields;
      var p := r.liveness.value;
      p.command == Compose.NormalizeCommand(h["test"])
      && p.periodSeconds == DurationField(h, "interval") && p.timeoutSeconds == DurationField(h, "timeout")
      && p.failureThreshold == (if Lookup(h, "retries").Int? then Wrap32(Lookup(h, "retries").i) else 0)
  {
    if !healthcheck.Map? || "test" !in healthcheck.fields then ProbeSet(None, None)
    else
      var h := healthcheck.fields;
      var command := Compose.NormalizeCommand(h["test"]);
      if |command| == 0 then ProbeSet(None, None)
      else
        var retries := Lookup(h, "retries");
        var probe := Probe(command, DurationField(h, "timeout"), DurationField(h, "interval"),
                           if retries.Int? then Wrap32(retries.i) else 0);
        ProbeSet(Some(probe), Some(probe))
  }

  // ---------------------------------------------------------------------
  // Resources and security context

  /** The memory and cpu strings of a limits or reservations block; "cpus" becomes "cpu". */
  function Amounts(block: Value): (r: map<string, string>)
    ensures r.Keys <= {"memory", "cpu"}
    ensures "memory" in r <==> block.Map? && Lookup(block.fields, "memory").Str?
    ensures "cpu" in r <==> block.Map? && Lookup(block.fields, "cpus").Str?
    ensures "memory" in r ==> r["memory"] == Lookup(block.fields, "memory").s
    ensures "cpu" in r ==> r["cpu"] == Lookup(block.fields, "cpus").s
  {
    if !block.Map? then map[]
    else
      var memory := Lookup(block.fields, "memory");
      var cpus := Lookup(block.fields, "cpus");
      (if memory.Str? then map["memory" := memory.s] else map[])
      + (if cpus.Str? then map["cpu" := cpus.s] else map[])
  }

  /** generateResourceRequirements: nil when neither block names a memory or cpu amount. */
  function GenerateResourceRequirements(resources: map<string, Value>): (r: Option<ResourceRequirements>)
    ensures r.None? <==> Amounts(Lookup(resources, "limits")) == map[] && Amounts(Lookup(resources, "reservations")) == map[]
    ensures r.Some? ==> r.value.limits == Amounts(Lookup(resources, "limits"))
                        && r.value.requests == Amounts(Lookup(resources, "reservations"))
  {
    var limits := Amounts(Lookup(resources, "limits"));
    var requests := Amounts(Lookup(resources, "reservations"));
    if |limits| == 0 && |requests| == 0 then None else Some(ResourceRequirements(limits, requests))
  }

  /** generateSecurityContext: present iff a user string is given or privileged or
    * read_only is true; runAsUser only for a decimal 64-bit user id. */
  function GenerateSecurityContext(service: map<string, Value>): (r: Option<SecurityContext>)
    ensures r.Some? <==>
      Lookup(service, "user").Str? || Lookup(service, "privileged") == Bool(true) || Lookup(service, "read_only") == Bool(true)
    ensures r.Some? ==>
      (r.value.runAsUser.Some? <==> Lookup(service, "user").Str? && ParseInt(Lookup(service, "user").s, MaxInt64).Some?)
      && (r.value.runAsUser.Some? ==> r.value.runAsUser == ParseInt(Lookup(service, "user").s, MaxInt64))
      && (r.value.privileged.Some? <==> Lookup(service, "privileged") == Bool(true))
      && (r.value.readOnlyRootFilesystem.Some? <==> Lookup(service, "read_only") == Bool(true))
  {
    var user := Lookup(service, "user");
    var privileged := Lookup(service, "privileged") == Bool(true);
    var readOnly := Lookup(service, "read_only") == Bool(true);
    if !(user.Str? || privileged || readOnly) then None
    else
      Some(SecurityContext(
        if user.Str? then ParseInt(user.s, MaxInt64) else None,
        if privileged then Some(true) else None,
        if readOnly then Some(true) else None))
  }

  // ---------------------------------------------------------------------
  // Container and Deployment

  /** A string-list field of the service: absent means nil. */
  function Tokens(service: map<string, Value>, key: string): seq<string>
  {
    if key in service then Compose.NormalizeCommand(service[key]) else []
  }

  /** The resources block under `deploy.resources`, if both levels are maps. */
  function ResourcesOf(service: map<string, Value>): Option<ResourceRequirements>
  {
    var deploy := Lookup(service, "deploy");
    if deploy.Map? && Lookup(deploy.fields, "resources").Map? then
      GenerateResourceRequirements(Lookup(deploy.fields, "resources").fields)
    else None
  }

  /** generateContainer, as a value: the image is required; ports and environment are
    * checked in that order; probes, resources and security context never fail. */
  function ContainerFor(name: string, service: map<string, Value>, options: GeneratorOptions): Result<Container>
  {
    var image := Lookup(service, "image");
    if !image.Str? then Err("no image specified for service " + name)
    else
      var ports := if "ports" in service then ContainerPortsFor(service["ports"]) else Ok([]);
      if ports.Err? then Err("failed to generate ports: " + ports.error)
      else
        var env := if "environment" in service then EnvVarsFor(service["environment"]) else Ok([]);
        if env.Err? then Err("failed to generate environment variables: " + env.error)
        else
          var probes := if "healthcheck" in service then GenerateProbes(service["healthcheck"]) else ProbeSet(None, None);
          var workingDir := Lookup(service, "working_dir");
          Ok(Container(
            name, image.s, Tokens(service, "command"), Tokens(service, "entrypoint"),
            if workingDir.Str? then workingDir.s else "",
            ports.value, env.value, ResourcesOf(service), [], probes.liveness, probes.readiness,
            GenerateSecurityContext(service), options.imagePullPolicy))
  }

  /** generateContainer. */
  method GenerateContainer(name: string, service: map<string, Value>, options: GeneratorOptions) returns (r: Result<Container>)
    ensures r == ContainerFor(name, service, options)
  {
    var image := Lookup(service, "image");
    if !image.Str? {
      return Err("no image specified for service " + name);
    }
    var ports: seq<ContainerPort> := [];
    if "ports" in service {
      var generated := GenerateContainerPorts(service["ports"]);
      if generated.Err? {
        return Err("failed to generate ports: " + generated.error);
      }
      ports := generated.value;
    }
    var env: seq<EnvVar> := [];
    if "environment" in service {
      var generated := GenerateEnvVars(service["environment"]);
      if generated.Err? {
        return Err("failed to generate environment variables: " + generated.error);
      }
      env := generated.value;
    }
    var probes := ProbeSet(None, None);
    if "healthcheck" in service {
      probes := GenerateProbes(service["healthcheck"]);
    }
    var workingDir := Lookup(service, "working_dir");
    r := Ok(Container(
      name, image.s, Tokens(service, "command"), Tokens(service, "entrypoint"),
      if workingDir.Str? then workingDir.s else "",
      ports, env, ResourcesOf(service), [], probes.liveness, probes.readiness,
      GenerateSecurityContext(service), options.imagePullPolicy));
  }

  /** GenerateDeployment, as a value. */
  function DeploymentFor(name: string, service: Value, options: GeneratorOptions): Result<Deployment>
  {
    if !service.Map? then Err("invalid service format for " + name)
    else match ContainerFor(name, service.fields, options)
      case Err(e) => Err("failed to generate container for " + name + ": " + e)
      case Ok(c) =>
        match VolumesFor(service.fields)
        case Err(e) => Err("failed to generate volumes for " + name + ": " + e)
        case Ok(vm) =>
          var container := if |vm.volumes| > 0 then c.(volumeMounts := vm.mounts) else c;
          var selector := map["app" := name];
          Ok(Deployment("apps/v1", "Deployment",
            Metadata(name, options.namespace, AppLabels(options, name)),
            DeploymentSpec(options.replicas, selector,
              PodTemplateSpec(Metadata("", "", selector), PodSpec([container], vm.volumes, "Always")))))
  }

  /** GenerateDeployment. */
  method GenerateDeployment(name: string, service: Value, options: GeneratorOptions) returns (r: Result<Deployment>)
    ensures r == DeploymentFor(name, service, options)
  {
    if !service.Map? {
      return Err("invalid service format for " + name);
    }
    var container := GenerateContainer(name, service.fields, options);
    if container.Err? {
      return Err("failed to generate container for " + name + ": " + container.error);
    }
    var volumes := GenerateVolumes(service.fields);
    if volumes.Err? {
      return Err("failed to generate volumes for " + name + ": " + volumes.error);
    }
    var c := container.value;
    if |volumes.value.volumes| > 0 {
      c := c.(volumeMounts := volumes.value.mounts);
    }
    var selector := map["app" := name];
    r := Ok(Deployment("apps/v1", "Deployment",
      Metadata(name, options.namespace, AppLabels(options, name)),
      DeploymentSpec(options.replicas, selector,
        PodTemplateSpec(Metadata("", "", selector), PodSpec([c], volumes.value.volumes, "Always")))));
  }

  /** A generated Deployment is named after the service, is of kind Deployment, carries
    * the option labels with `app=<name>`, selects and labels its pods with exactly
    * `{app: name}`, restarts Always and runs exactly one container, named after the
    * service and running its image. */
  lemma DeploymentShape(name: string, service: Value, options: GeneratorOptions)
    requires DeploymentFor(name, service, options).Ok?
    ensures var d := DeploymentFor(name, service, options).value;
      d.GetName() == name && d.GetKind() == "Deployment"
      && d.metadata.labels == AppLabels(options, name) && d.metadata.namespace == options.namespace
      && d.spec.selector == map["app" := name] && d.spec.template.metadata.labels == map["app" := name]
      && d.spec.replicas == options.replicas
      && d.spec.template.spec.restartPolicy == "Always"
      && |d.spec.template.spec.containers| == 1
      && d.spec.template.spec.containers[0].name == name
      && Lookup(service.fields, "image") == Str(d.spec.template.spec.containers[0].image)
  {
  }

  /** Without a string image there is no Deployment. */
  lemma DeploymentNeedsImage(name: string, service: map<string, Value>, options: GeneratorOptions)
    requires !Lookup(service, "image").Str?
    ensures DeploymentFor(name, Map(service), options)
            == Err("failed to generate container for " + name + ": " + ("no image specified for service " + name))
  {
    assert ContainerFor(name, service, options) == Err("no image specified for service " + name);
  }

  /** Pod volumes and mounts are set together, and only when there is a volume. */
  lemma DeploymentVolumes(name: string, service: map<string, Value>, options: GeneratorOptions)
    requires DeploymentFor(name, Map(service), options).Ok?
    ensures var pod := DeploymentFor(name, Map(service), options).value.spec.template.spec;
      pod.volumes == VolumesFor(service).value.volumes
      && pod.containers[0].volumeMounts == (if |pod.volumes| > 0 then VolumesFor(service).value.mounts else [])
  {
  }
}
