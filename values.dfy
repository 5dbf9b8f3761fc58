/**
 * Go `interface{}` values as the YAML decoder and the normaliser produce them,
 * with the `%T` and `%v` renderings used in the converter's messages.
 */
module Values {
  import opened Text

  /** A service's attachment to one network (compose `networks:` entry). */
  datatype NetworkConfig = NetworkConfig(aliases: seq<string>, ipv4Address: string, ipv6Address: string)

  /** A service's dependency on another one (compose `depends_on:` entry). */
  datatype DependencyConfig = DependencyConfig(condition: string)

  /**
   * A dynamically typed Go value. `List` and `Map` are what the YAML decoder
   * yields (`[]interface{}`, `map[string]interface{}`); `StrList`, `StrMap`,
   * `NetMap` and `DepMap` are the typed slices and maps the normaliser stores
   * back into a service. A `Float` carries its value and its `%v` text.
   */
  datatype Value =
    | Null
    | Str(s: string)
    | Int(i: int)
    | Int32(i: int)
    | Int64(i: int)
    | Float(f: real, text: string)
    | Bool(b: bool)
    | List(items: seq<Value>)
    | Map(fields: map<string, Value>)
    | StrList(strs: seq<string>)
    | StrMap(entries: map<string, string>)
    | NetMap(nets: map<string, NetworkConfig>)
    | DepMap(deps: map<string, DependencyConfig>)

  /** Go `m[k]` on a `map[string]interface{}`: a missing key reads as nil. */
  function Lookup(m: map<string, Value>, k: string): (v: Value)
    ensures k !in m ==> v == Null
    ensures k in m ==> v == m[k]
  {
    if k in m then m[k] else Null
  }

  /** Go `%T`. */
  function TypeName(v: Value): string
  {
    match v
    case Null => "<nil>"
    case Str(_) => "string"
    case Int(_) => "int"
    case Int32(_) => "int32"
    case Int64(_) => "int64"
    case Float(_, _) => "float64"
    case Bool(_) => "bool"
    case List(_) => "[]interface {}"
    case Map(_) => "map[string]interface {}"
    case StrList(_) => "[]string"
    case StrMap(_) => "map[string]string"
    case NetMap(_) => "map[string]docker.NetworkConfig"
    case DepMap(_) => "map[string]docker.DependencyConfig"
  }

  /** The string items of a list, in order; other items are dropped. */
  function StringItems(items: seq<Value>): (r: seq<string>)
    ensures |r| <= |items|
    ensures forall x :: x in r <==> Str(x) in items
  {
    if items == [] then []
    else (if items[0].Str? then [items[0].s] else []) + StringItems(items[1..])
  }

  /** A list of strings as a list of values, in the same order. */
  function Strings(ss: seq<string>): (r: seq<Value>)
    ensures |r| == |ss| && forall i :: 0 <= i < |ss| ==> r[i] == Str(ss[i])
  {
    seq(|ss|, i requires 0 <= i < |ss| => Str(ss[i]))
  }

  /** Reading the strings back out of such a list gives the original list. */
  lemma {:induction false} StringItemsOfStrings(ss: seq<string>)
    ensures StringItems(Strings(ss)) == ss
    decreases |ss|
  {
    if ss != [] {
      StringItemsOfStrings(ss[1..]);
      assert Strings(ss)[1..] == Strings(ss[1..]);
    }
  }

  /** The string items of a concatenation are those of each part, in order. */
  lemma {:induction false} StringItemsAppend(a: seq<Value>, b: seq<Value>)
    ensures StringItems(a + b) == StringItems(a) + StringItems(b)
    decreases |a|
  {
    if a != [] {
      var h := if a[0].Str? then [a[0].s] else [];
      assert (a + b)[0] == a[0] && (a + b)[1..] == a[1..] + b;
      StringItemsAppend(a[1..], b);
      calc {
        StringItems(a + b);
        h + StringItems(a[1..] + b);
        h + (StringItems(a[1..]) + StringItems(b));
        (h + StringItems(a[1..])) + StringItems(b);
        StringItems(a) + StringItems(b);
      }
    } else {
      assert a + b == b;
    }
  }

  /** Go `%v` of a value. Maps print with their keys in ascending order, as `fmt` does. */
  function Show(v: Value): string
    decreases v, 1
  {
    match v
    case Null => "<nil>"
    case Str(s) => s
    case Int(i) => Itoa(i)
    case Int32(i) => Itoa(i)
    case Int64(i) => Itoa(i)
    case Float(_, text) => text
    case Bool(b) => if b then "true" else "false"
    case List(items) => "[" + ShowItems(v, items) + "]"
    case Map(m) => "map[" + ShowFields(v, m, SortedKeys(m.Keys)) + "]"
    case StrList(ss) => "[" + Join(ss, " ") + "]"
    case StrMap(m) => "map[" + Join(ShowEntries(m, SortedKeys(m.Keys)), " ") + "]"
    case NetMap(m) => "map[" + Join(ShowNets(m, SortedKeys(m.Keys)), " ") + "]"
    case DepMap(m) => "map[" + Join(ShowDeps(m, SortedKeys(m.Keys)), " ") + "]"
  }

  function ShowItems(ghost parent: Value, items: seq<Value>): string
    requires forall x :: x in items ==> x < parent
    decreases parent, 0, |items|
  {
    if items == [] then ""
    else
      assert items[0] in items;
      assert forall x :: x in items[1..] ==> x in items;
      Show(items[0]) + (if |items| == 1 then "" else " " + ShowItems(parent, items[1..]))
  }

  function ShowFields(ghost parent: Value, m: map<string, Value>, keys: seq<string>): string
    requires parent == Map(m)
    requires forall k :: k in keys ==> k in m
    decreases parent, 0, |keys|
  {
    if keys == [] then ""
    else
      keys[0] + ":" + Show(m[keys[0]])
      + (if |keys| == 1 then "" else " " + ShowFields(parent, m, keys[1..]))
  }

  function ShowEntries(m: map<string, string>, keys: seq<string>): seq<string>
    requires forall k :: k in keys ==> k in m
  {
    if keys == [] then [] else [keys[0] + ":" + m[keys[0]]] + ShowEntries(m, keys[1..])
  }

  function ShowNet(c: NetworkConfig): string
  {
    "{[" + Join(c.aliases, " ") + "] " + c.ipv4Address + " " + c.ipv6Address + "}"
  }

  function ShowNets(m: map<string, NetworkConfig>, keys: seq<string>): seq<string>
    requires forall k :: k in keys ==> k in m
  {
    if keys == [] then [] else [keys[0] + ":" + ShowNet(m[keys[0]])] + ShowNets(m, keys[1..])
  }

  function ShowDeps(m: map<string, DependencyConfig>, keys: seq<string>): seq<string>
    requires forall k :: k in keys ==> k in m
  {
    if keys == [] then [] else [keys[0] + ":{" + m[keys[0]].condition + "}"] + ShowDeps(m, keys[1..])
  }
}
