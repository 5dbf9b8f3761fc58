/**
 * The field validators of the backend: three generic validators over Go
 * `interface{}` values (string, integer, array) and the format checks for
 * Kubernetes names, port and volume mappings, environment entries and the
 * compose file version. Each returns the list of validation errors it finds;
 * an empty list means the value is valid. The regular expressions of the
 * source are written out as hand-made recognisers.
 */
module Validation {
  import opened Wrappers
  import opened Text
  import opened Values

  // ---------------------------------------------------------------------
  // Errors

  /** The machine-readable error codes. */
  datatype Code =
    | InvalidType | Required | MinLength | MaxLength | InvalidPattern
    | MinValue | MaxValue | InvalidName
    | InvalidPortFormat | InvalidEnvFormat
    | InvalidVolumeFormat | InvalidHostPath | InvalidContainerPath | InvalidVolumeOption
    | UnsupportedVersion
  {
    function Text(): string
    {
      match this
      case InvalidType => "INVALID_TYPE"
      case Required => "REQUIRED"
      case MinLength => "MIN_LENGTH"
      case MaxLength => "MAX_LENGTH"
      case InvalidPattern => "INVALID_PATTERN"
      case MinValue => "MIN_VALUE"
      case MaxValue => "MAX_VALUE"
      case InvalidName => "INVALID_NAME"
      case InvalidPortFormat => "INVALID_PORT_FORMAT"
      case InvalidEnvFormat => "INVALID_ENV_FORMAT"
      case InvalidVolumeFormat => "INVALID_VOLUME_FORMAT"
      case InvalidHostPath => "INVALID_HOST_PATH"
      case InvalidContainerPath => "INVALID_CONTAINER_PATH"
      case InvalidVolumeOption => "INVALID_VOLUME_OPTION"
      case UnsupportedVersion => "UNSUPPORTED_VERSION"
    }
  }

  /** Each message a validator can report, with the values its text shows. */
  datatype Msg =
    | ExpectedString | ExpectedInteger | ExpectedArray | FieldRequired
    | MinimumLength(limit: int, got: int) | MaximumLength(limit: int, got: int)
    | PatternMismatch(source: string)
    | MinimumValue(limit: int, got: int) | MaximumValue(limit: int, got: int)
    | HyphenAtEdge
    | PortRequired | PortFormat
    | EnvRequired | EnvFormat
    | VolumeRequired | VolumeFormat | HostPathEmpty | ContainerPathEmpty | VolumeOption(option: string)
    | VersionRequired | VersionUnsupported(version: string)
  {
    /** The code that goes with the message. */
    function Code(): Code
    {
      match this
      case ExpectedString | ExpectedInteger | ExpectedArray => InvalidType
      case FieldRequired | PortRequired | EnvRequired | VolumeRequired | VersionRequired => Required
      case MinimumLength(_, _) => MinLength
      case MaximumLength(_, _) => MaxLength
      case PatternMismatch(_) => InvalidPattern
      case MinimumValue(_, _) => MinValue
      case MaximumValue(_, _) => MaxValue
      case HyphenAtEdge => InvalidName
      case PortFormat => InvalidPortFormat
      case EnvFormat => InvalidEnvFormat
      case VolumeFormat => InvalidVolumeFormat
      case HostPathEmpty => InvalidHostPath
      case ContainerPathEmpty => InvalidContainerPath
      case VolumeOption(_) => InvalidVolumeOption
      case VersionUnsupported(_) => UnsupportedVersion
    }

    /** The message text. */
    function Text(): string
    {
      match this
      case ExpectedString => "expected string value"
      case ExpectedInteger => "expected integer value"
      case ExpectedArray => "expected array value"
      case FieldRequired => "field is required"
      case MinimumLength(limit, got) => "minimum length is " + Itoa(limit) + ", got " + Itoa(got)
      case MaximumLength(limit, got) => "maximum length is " + Itoa(limit) + ", got " + Itoa(got)
      case PatternMismatch(source) => "value does not match required pattern: " + source
      case MinimumValue(limit, got) => "minimum value is " + Itoa(limit) + ", got " + Itoa(got)
      case MaximumValue(limit, got) => "maximum value is " + Itoa(limit) + ", got " + Itoa(got)
      case HyphenAtEdge => "name cannot start or end with a hyphen"
      case PortRequired => "port mapping is required"
      case PortFormat => "invalid port mapping format"
      case EnvRequired => "environment variable is required"
      case EnvFormat => "invalid environment variable format (should be KEY=value or KEY)"
      case VolumeRequired => "volume mapping is required"
      case VolumeFormat => "volume mapping should be in format host_path:container_path[:options]"
      case HostPathEmpty => "host path cannot be empty"
      case ContainerPathEmpty => "container path cannot be empty"
      case VolumeOption(option) => "invalid volume option: " + option
      case VersionRequired => "docker-compose version is required"
      case VersionUnsupported(version) => "unsupported docker-compose version: " + version
    }
  }

  /** One validation error; `field` is empty except for the errors of array items. */
  datatype ValidationError = ValidationError(field: string, msg: Msg)
  {
    function Code(): Code { msg.Code() }
    function Message(): string { msg.Text() }
  }

  /** The error `msg` when `failed` holds, nothing otherwise. */
  function Raise(failed: bool, msg: Msg): seq<ValidationError>
  {
    if failed then [ValidationError("", msg)] else []
  }

  // ---------------------------------------------------------------------
  // StringValidator

  /** A compiled regular expression: its source text and the strings it matches. */
  datatype Pattern = Pattern(source: string, matches: string -> bool)

  datatype StringValidator = StringValidator(
    required: bool, minLength: int, maxLength: int, pattern: Option<Pattern>, allowEmpty: bool)

  /** The string a value is validated as: a non-string counts as "". */
  function StringOf(value: Value): string
  {
    if value.Str? then value.s else ""
  }

  /** The value is neither nil nor a string. */
  predicate WrongType(value: Value)
  {
    !value.Null? && !value.Str?
  }

  /** Length and pattern checks are skipped: a required value is missing, or an
    * empty value is allowed. */
  predicate ChecksSkipped(v: StringValidator, str: string)
  {
    str == "" && (v.required || v.allowEmpty)
  }

  predicate TooShort(v: StringValidator, str: string)
  {
    v.minLength > 0 && ByteLength(str) < v.minLength
  }

  predicate TooLong(v: StringValidator, str: string)
  {
    v.maxLength > 0 && ByteLength(str) > v.maxLength
  }

  predicate Mismatch(v: StringValidator, str: string)
  {
    v.pattern.Some? && !v.pattern.value.matches(str)
  }

  function PatternSource(v: StringValidator): string
  {
    if v.pattern.Some? then v.pattern.value.source else ""
  }

  /** The value a string validator accepts, stated check by check. */
  predicate StringAccepts(v: StringValidator, value: Value)
  {
    var str := StringOf(value);
    !WrongType(value) && !(v.required && str == "")
    && (ChecksSkipped(v, str) || (!TooShort(v, str) && !TooLong(v, str) && !Mismatch(v, str)))
  }

  /** The checks of one value: the type check, then the required check (which
    * stops), then the empty-allowed exit, then length and pattern. */
  function StringValidate(v: StringValidator, value: Value): (errors: seq<ValidationError>)
    ensures errors == [] <==> StringAccepts(v, value)
    ensures errors == Raise(WrongType(value), ExpectedString)
      + Raise(v.required && StringOf(value) == "", FieldRequired)
      + Raise(!ChecksSkipped(v, StringOf(value)) && TooShort(v, StringOf(value)),
              MinimumLength(v.minLength, ByteLength(StringOf(value))))
      + Raise(!ChecksSkipped(v, StringOf(value)) && TooLong(v, StringOf(value)),
              MaximumLength(v.maxLength, ByteLength(StringOf(value))))
      + Raise(!ChecksSkipped(v, StringOf(value)) && Mismatch(v, StringOf(value)), PatternMismatch(PatternSource(v)))
  {
    var str := StringOf(value);
    var typeErrors := Raise(WrongType(value), ExpectedString);
    if v.required && str == "" then
      typeErrors + [ValidationError("", FieldRequired)]
    else if str == "" && v.allowEmpty then
      typeErrors
    else
      var n := ByteLength(str);
      typeErrors
      + Raise(v.minLength > 0 && n < v.minLength, MinimumLength(v.minLength, n))
      + Raise(v.maxLength > 0 && n > v.maxLength, MaximumLength(v.maxLength, n))
      + Raise(Mismatch(v, str), PatternMismatch(PatternSource(v)))
  }

  /** A non-string value adds INVALID_TYPE first and is then checked as the empty string. */
  lemma StringWrongTypeFirst(v: StringValidator, value: Value)
    requires WrongType(value)
    ensures StringValidate(v, value) == [ValidationError("", ExpectedString)] + StringValidate(v, Str(""))
  {
    assert StringOf(value) == StringOf(Str(""));
    assert Raise(WrongType(value), ExpectedString) == [ValidationError("", ExpectedString)];
  }

  /** A missing required value ends the list with REQUIRED: no length or pattern error follows. */
  lemma StringRequiredStops(v: StringValidator, value: Value)
    requires v.required && StringOf(value) == ""
    ensures var errors := StringValidate(v, value);
      |errors| == (if WrongType(value) then 2 else 1) && errors[|errors| - 1].Code() == Required
  {
  }

  // ---------------------------------------------------------------------
  // IntValidator

  datatype IntValidator = IntValidator(required: bool, min: Option<int>, max: Option<int>)

  /** The integer an int, int32, int64 or float64 value converts to. */
  function IntOf(value: Value): Option<int>
  {
    match value
    case Int(i) => Some(i)
    case Int32(i) => Some(i)
    case Int64(i) => Some(i)
    case Float(f, _) => Some(Truncate(f))
    case _ => None
  }

  predicate WithinBounds(v: IntValidator, n: int)
  {
    (v.min.None? || n >= v.min.value) && (v.max.None? || n <= v.max.value)
  }

  function IntValidate(v: IntValidator, value: Value): (errors: seq<ValidationError>)
    ensures errors == [] <==> (value.Null? && !v.required) || (IntOf(value).Some? && WithinBounds(v, IntOf(value).value))
    ensures value.Null? && v.required ==> errors == [ValidationError("", FieldRequired)]
    ensures !value.Null? && IntOf(value).None? ==> errors == [ValidationError("", ExpectedInteger)]
    ensures IntOf(value).Some? ==> |errors| <= 2 && forall e :: e in errors ==> e.Code() in {MinValue, MaxValue}
    ensures |errors| == 2 ==> errors[0].Code() == MinValue && errors[1].Code() == MaxValue
  {
    match IntOf(value)
    case None =>
      if value.Null? then Raise(v.required, FieldRequired)
      else [ValidationError("", ExpectedInteger)]
    case Some(n) =>
      Raise(v.min.Some? && n < v.min.value, MinimumValue(if v.min.Some? then v.min.value else 0, n))
      + Raise(v.max.Some? && n > v.max.value, MaximumValue(if v.max.Some? then v.max.value else 0, n))
  }

  /** With a minimum not above the maximum, a number breaks at most one bound. */
  lemma IntOneBound(v: IntValidator, value: Value)
    requires v.min.Some? && v.max.Some? && v.min.value <= v.max.value
    ensures |IntValidate(v, value)| <= 1
  {
  }

  // ---------------------------------------------------------------------
  // ArrayValidator and the Validator interface

  /** The three implementations of the `Validator` interface. */
  datatype Validator =
    | StringRule(s: StringValidator)
    | IntRule(i: IntValidator)
    | ArrayRule(a: ArrayValidator)

  datatype ArrayValidator = ArrayValidator(required: bool, minLength: int, maxLength: int, item: Option<Validator>)

  /** `Validator.Validate`, dispatched on the implementation. */
  function Validate(v: Validator, value: Value): seq<ValidationError>
    decreases v, 1
  {
    match v
    case StringRule(s) => StringValidate(s, value)
    case IntRule(i) => IntValidate(i, value)
    case ArrayRule(a) => ArrayValidate(a, value)
  }

  /** The items an array value holds: a `[]interface{}` as is, a `[]string` item by item. */
  function ArrayOf(value: Value): Option<seq<Value>>
  {
    match value
    case List(items) => Some(items)
    case StrList(strs) => Some(Strings(strs))
    case _ => None
  }

  /** The errors of one item, each re-labelled with the item's position. */
  function Relabel(errors: seq<ValidationError>, field: string): (r: seq<ValidationError>)
    ensures |r| == |errors|
    ensures forall k :: 0 <= k < |r| ==> r[k] == ValidationError(field, errors[k].msg)
  {
    if errors == [] then [] else [ValidationError(field, errors[0].msg)] + Relabel(errors[1..], field)
  }

  /** Go `fmt.Sprintf("[%d]", i)`. */
  function IndexField(i: nat): string
  {
    "[" + NatToString(i) + "]"
  }

  /** The errors each item gets from the item validator, item by item. */
  function ItemResults(item: Validator, items: seq<Value>): (r: seq<seq<ValidationError>>)
    ensures |r| == |items|
    decreases item, 2
  {
    seq(|items|, i requires 0 <= i < |items| => Validate(item, items[i]))
  }

  /** The item errors from position `from` on, in item order, each labelled `[i]`. */
  function Labelled(results: seq<seq<ValidationError>>, from: nat): seq<ValidationError>
    requires from <= |results|
    decreases |results| - from
  {
    if from == |results| then []
    else Relabel(results[from], IndexField(from)) + Labelled(results, from + 1)
  }

  function ArrayLengthErrors(a: ArrayValidator, n: nat): seq<ValidationError>
  {
    Raise(a.minLength > 0 && n < a.minLength, MinimumLength(a.minLength, n))
    + Raise(a.maxLength > 0 && n > a.maxLength, MaximumLength(a.maxLength, n))
  }

  function ArrayValidate(a: ArrayValidator, value: Value): (errors: seq<ValidationError>)
    ensures value.Null? ==> errors == Raise(a.required, FieldRequired)
    ensures !value.Null? && ArrayOf(value).None? ==> errors == [ValidationError("", ExpectedArray)]
    decreases ArrayRule(a), 0
  {
    match ArrayOf(value)
    case None =>
      if value.Null? then Raise(a.required, FieldRequired)
      else [ValidationError("", ExpectedArray)]
    case Some(items) =>
      var lengthErrors := ArrayLengthErrors(a, |items|);
      if a.item.None? then lengthErrors
      else lengthErrors + Labelled(ItemResults(a.item.value, items), 0)
  }

  /** Each error of item `i` appears in the item errors with field `[i]`. */
  lemma {:induction false} LabelledKeep(results: seq<seq<ValidationError>>, from: nat, i: nat, k: nat)
    requires from <= i < |results| && k < |results[i]|
    ensures ValidationError(IndexField(i), results[i][k].msg) in Labelled(results, from)
    decreases |results| - from
  {
    var head := Relabel(results[from], IndexField(from));
    assert Labelled(results, from) == head + Labelled(results, from + 1);
    if from < i {
      LabelledKeep(results, from + 1, i, k);
    } else {
      assert head[k] == ValidationError(IndexField(i), results[i][k].msg);
    }
  }

  /** Every item error names the position of an item. */
  lemma {:induction false} LabelledFields(results: seq<seq<ValidationError>>, from: nat)
    requires from <= |results|
    ensures forall e :: e in Labelled(results, from) ==> exists i :: from <= i < |results| && e.field == IndexField(i)
    decreases |results| - from
  {
    if from < |results| {
      LabelledFields(results, from + 1);
      var head := Relabel(results[from], IndexField(from));
      forall e | e in head ensures e.field == IndexField(from) {
        var k :| 0 <= k < |head| && head[k] == e;
      }
    }
  }

  /** No item error at all iff every item passes. */
  lemma {:induction false} LabelledNone(results: seq<seq<ValidationError>>, from: nat)
    requires from <= |results|
    ensures Labelled(results, from) == [] <==> forall i :: from <= i < |results| ==> results[i] == []
    decreases |results| - from
  {
    if from < |results| {
      LabelledNone(results, from + 1);
      var head := Relabel(results[from], IndexField(from));
      assert Labelled(results, from) == head + Labelled(results, from + 1);
      assert head == [] <==> results[from] == [];
    }
  }

  /** An array passes iff its length is within the limits and every item passes. */
  lemma ArrayValidateOk(a: ArrayValidator, items: seq<Value>)
    requires a.item.Some?
    ensures ArrayValidate(a, List(items)) == [] <==>
      (a.minLength <= 0 || |items| >= a.minLength) && (a.maxLength <= 0 || |items| <= a.maxLength)
      && forall i :: 0 <= i < |items| ==> Validate(a.item.value, items[i]) == []
  {
    var results := ItemResults(a.item.value, items);
    LabelledNone(results, 0);
    assert ArrayValidate(a, List(items)) == ArrayLengthErrors(a, |items|) + Labelled(results, 0);
    assert forall i :: 0 <= i < |items| ==> results[i] == Validate(a.item.value, items[i]);
  }

  /** The length errors come first; every later error is an item's, labelled with its position,
    * and each error of each item is there. */
  lemma ArrayLengthFirst(a: ArrayValidator, items: seq<Value>)
    requires a.item.Some?
    ensures var errors := ArrayValidate(a, List(items));
      var n := |ArrayLengthErrors(a, |items|)|;
      |errors| >= n && errors[..n] == ArrayLengthErrors(a, |items|)
      && (forall e :: e in errors[n..] ==> exists i :: 0 <= i < |items| && e.field == IndexField(i))
      && (forall i, k :: 0 <= i < |items| && 0 <= k < |Validate(a.item.value, items[i])| ==>
            ValidationError(IndexField(i), Validate(a.item.value, items[i])[k].msg) in errors[n..])
  {
    var results := ItemResults(a.item.value, items);
    var lengthErrors := ArrayLengthErrors(a, |items|);
    LabelledFields(results, 0);
    forall i, k | 0 <= i < |items| && 0 <= k < |Validate(a.item.value, items[i])|
      ensures ValidationError(IndexField(i), Validate(a.item.value, items[i])[k].msg) in Labelled(results, 0)
    {
      assert results[i] == Validate(a.item.value, items[i]);
      LabelledKeep(results, 0, i, k);
    }
    assert ArrayValidate(a, List(items))[|lengthErrors|..] == Labelled(results, 0);
  }

  // ---------------------------------------------------------------------
  // Kubernetes names

  predicate LowerAlnum(c: char)
  {
    'a' <= c <= 'z' || '0' <= c <= '9'
  }

  /** `^[a-z0-9]([-a-z0-9]*[a-z0-9])?$`: lower-case letters, digits and hyphens,
    * starting and ending with a letter or a digit. */
  predicate IsDnsName(s: string)
  {
    |s| > 0 && LowerAlnum(s[0]) && LowerAlnum(s[|s| - 1])
    && forall i :: 0 <= i < |s| ==> LowerAlnum(s[i]) || s[i] == '-'
  }

  const KubernetesNamePattern := Pattern("^[a-z0-9]([-a-z0-9]*[a-z0-9])?$", IsDnsName)

  const KubernetesNameValidator := StringValidator(true, 1, 253, Some(KubernetesNamePattern), false)

  /** The pattern check already excludes a leading or trailing hyphen, so the
    * extra INVALID_NAME check never fires. */
  function ValidateKubernetesName(name: string): (errors: seq<ValidationError>)
    ensures errors == [] <==> IsDnsName(name) && |name| <= 253
    ensures name == "" ==> errors == [ValidationError("", FieldRequired)]
    ensures forall e :: e in errors ==> e.Code() != InvalidName
  {
    var errors := StringValidate(KubernetesNameValidator, Str(name));
    KubernetesNameErrors(name);
    if errors == [] && (HasPrefix(name, "-") || HasSuffix(name, "-")) then
      errors + [ValidationError("", HyphenAtEdge)]
    else errors
  }

  /** What the name validator alone reports: nothing exactly for a DNS name of at
    * most 253 characters, which has no hyphen at either end; REQUIRED alone for
    * the empty name; never INVALID_NAME. */
  lemma KubernetesNameErrors(name: string)
    ensures var errors := StringValidate(KubernetesNameValidator, Str(name));
      (errors == [] <==> IsDnsName(name) && |name| <= 253)
      && (errors == [] ==> !HasPrefix(name, "-") && !HasSuffix(name, "-"))
      && (name == "" ==> errors == [ValidationError("", FieldRequired)])
      && (forall e :: e in errors ==> e.Code() != InvalidName)
  {
    var errors := StringValidate(KubernetesNameValidator, Str(name));
    DnsNameIsAscii(name);
    if errors == [] {
      DnsNameEdges(name);
    }
  }

  lemma DnsNameIsAscii(name: string)
    ensures IsDnsName(name) ==> ByteLength(name) == |name|
  {
    if IsDnsName(name) {
      assert forall i :: 0 <= i < |name| ==> name[i] as int < 0x80;
      AsciiByteLength(name);
    }
  }

  /** A DNS label neither starts nor ends with a hyphen. */
  lemma DnsNameEdges(name: string)
    requires IsDnsName(name)
    ensures !HasPrefix(name, "-") && !HasSuffix(name, "-")
  {
    assert name[..1][0] != '-' && name[|name| - 1..][0] != '-';
  }

  // ---------------------------------------------------------------------
  // Port mappings

  /** `[\d.]+`. */
  predicate IsAddress(s: string)
  {
    |s| > 0 && forall i :: 0 <= i < |s| ==> IsDigit(s[i]) || s[i] == '.'
  }

  /** `\d+/(tcp|udp)`. */
  predicate IsDigitsWithProtocol(s: string)
  {
    |s| > 4 && IsDigits(s[..|s| - 4]) && (s[|s| - 4..] == "/tcp" || s[|s| - 4..] == "/udp")
  }

  /** `^\d+$`. */
  predicate PortOnly(s: string)
  {
    IsDigits(s)
  }

  /** `^\d+:\d+$`. */
  predicate HostContainer(s: string)
  {
    var p := Split(s, ":"); |p| == 2 && IsDigits(p[0]) && IsDigits(p[1])
  }

  /** `^\d+:\d+/(tcp|udp)$`. */
  predicate HostContainerProtocol(s: string)
  {
    var p := Split(s, ":"); |p| == 2 && IsDigits(p[0]) && IsDigitsWithProtocol(p[1])
  }

  /** `^[\d.]+:\d+:\d+$`. */
  predicate AddressHostContainer(s: string)
  {
    var p := Split(s, ":"); |p| == 3 && IsAddress(p[0]) && IsDigits(p[1]) && IsDigits(p[2])
  }

  /** `^[\d.]+:\d+:\d+/(tcp|udp)$`. */
  predicate AddressHostContainerProtocol(s: string)
  {
    var p := Split(s, ":"); |p| == 3 && IsAddress(p[0]) && IsDigits(p[1]) && IsDigitsWithProtocol(p[2])
  }

  /** The patterns tried in turn. */
  const PortPatterns: seq<string -> bool> :=
    [PortOnly, HostContainer, HostContainerProtocol, AddressHostContainer, AddressHostContainerProtocol]

  /** A port mapping in one of the five accepted forms. */
  predicate IsPortMapping(s: string)
  {
    PortOnly(s) || HostContainer(s) || HostContainerProtocol(s)
    || AddressHostContainer(s) || AddressHostContainerProtocol(s)
  }

  lemma PortPatternsCover(s: string)
    ensures (exists j :: 0 <= j < |PortPatterns| && PortPatterns[j](s)) <==> IsPortMapping(s)
  {
    assert PortPatterns[0](s) == PortOnly(s) && PortPatterns[1](s) == HostContainer(s)
      && PortPatterns[2](s) == HostContainerProtocol(s) && PortPatterns[3](s) == AddressHostContainer(s)
      && PortPatterns[4](s) == AddressHostContainerProtocol(s);
  }

  method ValidatePortMapping(port: string) returns (errors: seq<ValidationError>)
    ensures port == "" ==> errors == [ValidationError("", PortRequired)]
    ensures port != "" ==> (errors == [] <==> IsPortMapping(port))
    ensures port != "" && !IsPortMapping(port) ==> errors == [ValidationError("", PortFormat)]
  {
    errors := [];
    if port == "" {
      errors := errors + [ValidationError("", PortRequired)];
      return;
    }
    PortPatternsCover(port);
    var valid := false;
    var i := 0;
    while i < |PortPatterns|
      invariant 0 <= i <= |PortPatterns|
      invariant valid ==> IsPortMapping(port)
      invariant !valid ==> forall j :: 0 <= j < i ==> !PortPatterns[j](port)
    {
      if PortPatterns[i](port) {
        valid := true;
        break;
      }
      i := i + 1;
    }
    if !valid {
      errors := errors + [ValidationError("", PortFormat)];
    }
  }

  // ---------------------------------------------------------------------
  // Environment entries

  predicate NameStart(c: char)
  {
    'A' <= c <= 'Z' || c == '_'
  }

  predicate NameChar(c: char)
  {
    NameStart(c) || IsDigit(c)
  }

  /** `[A-Z0-9_]*(?:=.*)?$`: more name characters, then optionally `=` and a
    * value on one line (`.` does not match a newline). */
  predicate EnvTail(s: string)
  {
    s == [] || (s[0] == '=' && '\n' !in s[1..]) || (NameChar(s[0]) && EnvTail(s[1..]))
  }

  /** `^[A-Z_][A-Z0-9_]*(?:=.*)?$`. */
  predicate IsEnvEntry(s: string)
  {
    |s| > 0 && NameStart(s[0]) && EnvTail(s[1..])
  }

  function ValidateEnvironmentVariable(envVar: string): (errors: seq<ValidationError>)
    ensures envVar == "" ==> errors == [ValidationError("", EnvRequired)]
    ensures envVar != "" ==> (errors == [] <==> IsEnvEntry(envVar)) && |errors| <= 1
  {
    if envVar == "" then [ValidationError("", EnvRequired)]
    else if !IsEnvEntry(envVar) then [ValidationError("", EnvFormat)]
    else []
  }

  /** Example: `NAME=value` is accepted. */
  lemma EnvEntryWithValue()
    ensures ValidateEnvironmentVariable("PORT=8080") == []
  {
    assert "PORT=8080"[1..] == "ORT=8080" && "ORT=8080"[1..] == "RT=8080" && "RT=8080"[1..] == "T=8080";
    assert "T=8080"[1..] == "=8080" && "=8080"[1..] == "8080";
    assert EnvTail("=8080") && EnvTail("T=8080") && EnvTail("RT=8080") && EnvTail("ORT=8080");
  }

  /** Example: a bare upper-case name is accepted. */
  lemma EnvEntryBareName()
    ensures ValidateEnvironmentVariable("DEBUG") == []
  {
    assert "DEBUG"[1..] == "EBUG" && "EBUG"[1..] == "BUG" && "BUG"[1..] == "UG" && "UG"[1..] == "G" && "G"[1..] == "";
    assert EnvTail("G") && EnvTail("UG") && EnvTail("BUG") && EnvTail("EBUG");
  }

  /** Example: a lower-case name is rejected. */
  lemma EnvEntryLowerCase()
    ensures ValidateEnvironmentVariable("port") == [ValidationError("", EnvFormat)]
  {
    assert !NameStart("port"[0]);
  }

  // ---------------------------------------------------------------------
  // Volume mappings

  const VolumeOptions: seq<string> := ["ro", "rw", "z", "Z"]

  /** One option of the comma-separated list is acceptable once trimmed. */
  predicate GoodOption(o: string)
  {
    TrimSpace(o) in VolumeOptions
  }

  /** The trimmed option when it is not acceptable, nothing otherwise. */
  function BadOption(o: string): seq<string>
  {
    if GoodOption(o) then [] else [TrimSpace(o)]
  }

  /** The trimmed options of a comma-separated list that are not ro, rw, z or Z, in order. */
  function BadOptions(options: seq<string>): seq<string>
  {
    FlatMap(options, BadOption)
  }

  /** One INVALID_VOLUME_OPTION error per bad option, in order. */
  function OptionErrors(bad: seq<string>): (r: seq<ValidationError>)
    ensures |r| == |bad|
  {
    if bad == [] then [] else [ValidationError("", VolumeOption(bad[0]))] + OptionErrors(bad[1..])
  }

  lemma {:induction false} OptionErrorsAppend(a: seq<string>, b: seq<string>)
    ensures OptionErrors(a + b) == OptionErrors(a) + OptionErrors(b)
  {
    if a != [] {
      assert (a + b)[1..] == a[1..] + b;
      OptionErrorsAppend(a[1..], b);
    } else {
      assert a + b == b;
    }
  }

  lemma BadOptionsEmpty(options: seq<string>)
    ensures BadOptions(options) == [] <==> forall k :: 0 <= k < |options| ==> GoodOption(options[k])
  {
    FlatMapEmpty(options, BadOption);
    forall k | 0 <= k < |options|
      ensures BadOption(options[k]) == [] <==> GoodOption(options[k])
    {
    }
  }

  /** The loop step over the options: one more option, one more error when it is bad. */
  lemma OptionStep(errors: seq<ValidationError>, options: seq<string>, i: nat, opt: string, valid: bool)
    requires i < |options| && errors == OptionErrors(BadOptions(options[..i]))
    requires opt == TrimSpace(options[i]) && (valid <==> opt in VolumeOptions)
    ensures valid ==> errors == OptionErrors(BadOptions(options[..i + 1]))
    ensures !valid ==> errors + [ValidationError("", VolumeOption(opt))] == OptionErrors(BadOptions(options[..i + 1]))
  {
    var prefix := BadOptions(options[..i]);
    var one := BadOptions([options[i]]);
    PrefixSnoc(options, i);
    FlatMapAppend(options[..i], [options[i]], BadOption);
    OptionErrorsAppend(prefix, one);
    assert [options[i]][1..] == [];
    assert OptionErrors(one) == (if GoodOption(options[i]) then [] else [ValidationError("", VolumeOption(TrimSpace(options[i])))]);
  }

  /** The path errors of a volume mapping with 2 or 3 segments. */
  function PathErrors(parts: seq<string>): seq<ValidationError>
    requires |parts| >= 2
  {
    Raise(parts[0] == "", HostPathEmpty) + Raise(parts[1] == "", ContainerPathEmpty)
  }

  /** A volume mapping every check accepts: 2 or 3 segments, both paths
    * non-empty, and every option of a third segment acceptable. */
  predicate IsVolumeMapping(volume: string)
  {
    var parts := Split(volume, ":");
    volume != "" && 2 <= |parts| <= 3 && parts[0] != "" && parts[1] != ""
    && (|parts| == 3 ==> forall k :: 0 <= k < |Split(parts[2], ",")| ==> GoodOption(Split(parts[2], ",")[k]))
  }

  /** The errors of a volume mapping are empty exactly for the mappings every check accepts. */
  lemma VolumeMappingOk(volume: string)
    requires volume != "" && 2 <= |Split(volume, ":")| <= 3
    ensures var parts := Split(volume, ":");
      PathErrors(parts) + (if |parts| == 3 then OptionErrors(BadOptions(Split(parts[2], ","))) else []) == []
      <==> IsVolumeMapping(volume)
  {
    var parts := Split(volume, ":");
    if |parts| == 3 {
      BadOptionsEmpty(Split(parts[2], ","));
    }
  }

  method ValidateVolumeMapping(volume: string) returns (errors: seq<ValidationError>)
    ensures volume == "" ==> errors == [ValidationError("", VolumeRequired)]
    ensures volume != "" && !(2 <= |Split(volume, ":")| <= 3) ==> errors == [ValidationError("", VolumeFormat)]
    ensures volume != "" && 2 <= |Split(volume, ":")| <= 3 ==>
      var parts := Split(volume, ":");
      errors == PathErrors(parts) + (if |parts| == 3 then OptionErrors(BadOptions(Split(parts[2], ","))) else [])
  {
    errors := [];
    if volume == "" {
      errors := errors + [ValidationError("", VolumeRequired)];
      return;
    }
    var parts := Split(volume, ":");
    if |parts| < 2 || |parts| > 3 {
      errors := errors + [ValidationError("", VolumeFormat)];
      return;
    }
    if parts[0] == "" {
      errors := errors + [ValidationError("", HostPathEmpty)];
    }
    if parts[1] == "" {
      errors := errors + [ValidationError("", ContainerPathEmpty)];
    }
    assert errors == PathErrors(parts);
    if |parts| == 3 {
      var optionErrors := CheckOptions(Split(parts[2], ","));
      errors := errors + optionErrors;
    }
  }

  /** The loop over the comma-separated options of a volume mapping. */
  method CheckOptions(options: seq<string>) returns (errors: seq<ValidationError>)
    ensures errors == OptionErrors(BadOptions(options))
  {
    errors := [];
    var i := 0;
    while i < |options|
      invariant 0 <= i <= |options|
      invariant errors == OptionErrors(BadOptions(options[..i]))
    {
      var opt := TrimSpace(options[i]);
      var valid := IsOneOf(opt, VolumeOptions);
      OptionStep(errors, options, i, opt, valid);
      if !valid {
        errors := errors + [ValidationError("", VolumeOption(opt))];
      }
      i := i + 1;
    }
    PrefixWhole(options);
  }

  // ---------------------------------------------------------------------
  // Compose file version

  const SupportedVersions: seq<string> := ["3.0", "3.1", "3.2", "3.3", "3.4", "3.5", "3.6", "3.7", "3.8", "3.9"]

  method ValidateDockerComposeVersion(version: string) returns (errors: seq<ValidationError>)
    ensures version == "" ==> errors == [ValidationError("", VersionRequired)]
    ensures version != "" ==> (errors == [] <==> version in SupportedVersions)
    ensures version != "" && version !in SupportedVersions ==> errors == [ValidationError("", VersionUnsupported(version))]
  {
    errors := [];
    if version == "" {
      errors := errors + [ValidationError("", VersionRequired)];
      return;
    }
    var valid := IsOneOf(version, SupportedVersions);
    if !valid {
      errors := errors + [ValidationError("", VersionUnsupported(version))];
    }
  }
}
