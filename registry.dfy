/**
 * The converter registry: a name-to-converter map that refuses duplicates,
 * with lookups by supported content type and by name. A converter is seen
 * through the three descriptors the registry reads from it (its name, its
 * description and its supported content types); a nil converter is `None`.
 */
module Registry {
  import opened Wrappers
  import opened Text

  datatype Converter = Converter(name: string, description: string, supportedTypes: seq<string>)

  /** The record `GetAvailableConverters` lists; the registry never sets `version`. */
  datatype ConverterInfo = ConverterInfo(
    name: string, description: string, supportedTypes: seq<string>, version: string)

  function InfoOf(c: Converter): ConverterInfo
  {
    ConverterInfo(c.name, c.description, c.supportedTypes, "")
  }

  datatype RegistryError =
    | NilConverter
    | EmptyName
    | AlreadyRegistered(name: string)
    | NoConverterFor(contentType: string)
    | UnknownName(name: string)

  function Message(e: RegistryError): string
  {
    match e
    case NilConverter => "converter cannot be nil"
    case EmptyName => "converter name cannot be empty"
    case AlreadyRegistered(name) => "converter with name '" + name + "' already registered"
    case NoConverterFor(t) => "no converter found for content type: " + t
    case UnknownName(name) => "converter with name '" + name + "' not found"
  }

  /** Records made in key order from a map whose entries are filed under their
    * own names: one per entry, each under a different name. */
  lemma Listed(m: map<string, Converter>, names: seq<string>, infos: seq<ConverterInfo>)
    requires forall n :: n in m ==> m[n].name == n
    requires names == SortedKeys(m.Keys) && |infos| == |names|
    requires forall j :: 0 <= j < |names| ==> infos[j] == InfoOf(m[names[j]])
    ensures |infos| == |m|
    ensures forall i :: 0 <= i < |infos| ==> infos[i].name in m && infos[i] == InfoOf(m[infos[i].name])
    ensures forall i, j :: 0 <= i < j < |infos| ==> infos[i].name != infos[j].name
    ensures forall n :: n in m ==> exists i :: 0 <= i < |infos| && infos[i].name == n
  {
    assert |m.Keys| == |m|;
    forall i | 0 <= i < |infos|
      ensures infos[i].name == names[i]
    {
    }
    forall i, j | 0 <= i < j < |infos|
      ensures infos[i].name != infos[j].name
    {
      SortedKeysDistinct(m.Keys, i, j);
    }
    forall n | n in m
      ensures exists i :: 0 <= i < |infos| && infos[i].name == n
    {
      var i :| 0 <= i < |names| && names[i] == n;
      assert infos[i].name == n;
    }
  }

  class ConverterRegistry {
    var converters: map<string, Converter>

    /** Every entry is filed under its converter's own, non-empty name. */
    ghost predicate Valid()
      reads this
    {
      forall n :: n in converters ==> n != "" && converters[n].name == n
    }

    /** Some registered converter supports `contentType`. */
    ghost predicate Supports(contentType: string)
      reads this
    {
      exists n :: n in converters && contentType in converters[n].supportedTypes
    }

    /** `NewRegistry`: an empty registry. */
    constructor ()
      ensures Valid() && converters == map[]
    {
      converters := map[];
    }

    /** `Register`: files a converter under its name, unless it is nil, its
      * name is empty or the name is taken; a refused converter changes nothing. */
    method Register(converter: Option<Converter>) returns (err: Option<RegistryError>)
      requires Valid()
      modifies this
      ensures Valid()
      ensures converter.None? ==> err == Some(NilConverter)
      ensures converter.Some? && converter.value.name == "" ==> err == Some(EmptyName)
      ensures converter.Some? && converter.value.name != "" && converter.value.name in old(converters) ==>
        err == Some(AlreadyRegistered(converter.value.name))
      ensures err.Some? ==> converters == old(converters)
      ensures err.None? ==>
        converter.Some? && converter.value.name !in old(converters) &&
        converters == old(converters)[converter.value.name := converter.value]
    {
      if converter.None? {
        return Some(NilConverter);
      }
      var name := converter.value.name;
      if name == "" {
        return Some(EmptyName);
      }
      if name in converters {
        return Some(AlreadyRegistered(name));
      }
      converters := converters[name := converter.value];
      return None;
    }

    /** `GetConverter`: a registered converter that lists `contentType`, found by
      * scanning the converters and their types; an error exactly when none does.
      * Go visits the map in no fixed order, so which converter is returned when
      * several qualify is left open. */
    method GetConverter(contentType: string) returns (r: Result<Converter>)
      ensures r.Ok? ==> r.value in converters.Values && contentType in r.value.supportedTypes
      ensures r.Err? <==> !Supports(contentType)
      ensures r.Err? ==> r.error == Message(NoConverterFor(contentType))
    {
      var names := SortedKeys(converters.Keys);
      for i := 0 to |names|
        invariant forall j :: 0 <= j < i ==> contentType !in converters[names[j]].supportedTypes
      {
        var converter := converters[names[i]];
        var found := IsOneOf(contentType, converter.supportedTypes);
        if found {
          return Ok(converter);
        }
      }
      forall n | n in converters
        ensures contentType !in converters[n].supportedTypes
      {
        var j :| 0 <= j < |names| && names[j] == n;
      }
      return Err(Message(NoConverterFor(contentType)));
    }

    /** `GetAvailableConverters`: one record per registered converter. */
    method GetAvailableConverters() returns (infos: seq<ConverterInfo>)
      requires Valid()
      ensures |infos| == |converters|
      ensures forall i :: 0 <= i < |infos| ==>
        infos[i].name in converters && infos[i] == InfoOf(converters[infos[i].name])
      ensures forall i, j :: 0 <= i < j < |infos| ==> infos[i].name != infos[j].name
      ensures forall n :: n in converters ==> exists i :: 0 <= i < |infos| && infos[i].name == n
    {
      var names := SortedKeys(converters.Keys);
      infos := [];
      for i := 0 to |names|
        invariant |infos| == i
        invariant forall j :: 0 <= j < i ==> infos[j] == InfoOf(converters[names[j]])
      {
        infos := infos + [InfoOf(converters[names[i]])];
      }
      Listed(converters, names, infos);
    }

    /** `GetConverterByName`: the converter filed under `name`, or an error when there is none. */
    method GetConverterByName(name: string) returns (r: Result<Converter>)
      ensures name in converters ==> r == Ok(converters[name])
      ensures name !in converters ==> r == Err(Message(UnknownName(name)))
    {
      if name !in converters {
        return Err(Message(UnknownName(name)));
      }
      return Ok(converters[name]);
    }
  }
}
