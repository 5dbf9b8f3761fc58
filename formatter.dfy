/**
 * The text side of the YAML formatter: merging manifests into one
 * multi-document stream, splitting such a stream back into documents,
 * prefixing a comment header, and pruning empty fields from a decoded
 * document. Parsing and printing YAML itself is outside the model.
 */
module Formatter {
  import opened Wrappers
  import opened Text
  import opened Values

  /** What goes between two merged documents. */
  const Separator := "\n---\n"

  /** What the splitter cuts at. */
  const Marker := "---"

  // ---------------------------------------------------------------------
  // Merging and splitting multi-document streams

  /** Every file with its surrounding white space removed. */
  function Trimmed(files: seq<string>): seq<string>
  {
    MapSeq(files, TrimSpace)
  }

  /** The merged stream: the trimmed files, separated by `---` lines. */
  method MergeYAMLFiles(files: seq<string>) returns (merged: string)
    ensures merged == Join(Trimmed(files), Separator)
  {
    merged := "";
    for i := 0 to |files|
      invariant merged == Join(Trimmed(files[..i]), Separator)
    {
      MergeStep(files, i);
      if i > 0 {
        merged := merged + Separator;
      }
      merged := merged + TrimSpace(files[i]);
    }
    PrefixWhole(files);
  }

  lemma MergeStep(files: seq<string>, i: nat)
    requires i < |files|
    ensures Join(Trimmed(files[..i + 1]), Separator)
      == if i == 0 then TrimSpace(files[i]) else Join(Trimmed(files[..i]), Separator) + Separator + TrimSpace(files[i])
  {
    MapSeqSnoc(files, i, TrimSpace);
    JoinSnoc(Trimmed(files[..i]), TrimSpace(files[i]), Separator);
  }

  /** One piece of a split stream as a document: trimmed, and dropped when blank. */
  function Document(piece: string): seq<string>
  {
    var d := TrimSpace(piece);
    if d == "" then [] else [d]
  }

  /** The documents of the pieces, in order. */
  function Documents(pieces: seq<string>): seq<string>
  {
    FlatMap(pieces, Document)
  }

  /** Every document is non-empty and has no surrounding white space. */
  lemma DocumentsTrimmed(pieces: seq<string>)
    ensures forall d :: d in Documents(pieces) ==> d != "" && TrimSpace(d) == d
  {
    forall d | d in Documents(pieces) ensures d != "" && TrimSpace(d) == d {
      FlatMapIn(pieces, Document, d);
      var k :| 0 <= k < |pieces| && d in Document(pieces[k]);
      TrimSpaceIdempotent(pieces[k]);
    }
  }

  method SplitYAMLDocuments(content: string) returns (result: seq<string>)
    ensures result == Documents(Split(content, Marker))
  {
    var documents := Split(content, Marker);
    result := [];
    for i := 0 to |documents|
      invariant result == Documents(documents[..i])
    {
      FlatMapSnoc(documents, i, Document);
      var doc := TrimSpace(documents[i]);
      if doc != "" {
        result := result + [doc];
      }
    }
    PrefixWhole(documents);
  }

  /** A file that survives a merge and a split unchanged: non-blank once
    * trimmed, and free of the marker. */
  predicate Mergeable(file: string)
  {
    TrimSpace(file) != "" && !Contains(TrimSpace(file), Marker)
  }

  /** Splitting a merged stream gives back the trimmed files, as long as
    * none of them is blank or contains a marker of its own. */
  lemma SplitMerged(files: seq<string>)
    requires forall i :: 0 <= i < |files| ==> Mergeable(files[i])
    ensures Documents(Split(Join(Trimmed(files), Separator), Marker)) == Trimmed(files)
  {
    var ts := Trimmed(files);
    if ts == [] {
      assert Join(ts, Separator) == "";
      assert Split("", Marker) == [""];
      FlatMapCons("", [], Document);
      assert [""] + [] == [""];
      assert Document("") == [];
    } else {
      TrimmedPlain(files);
      SplitJoined("", ts);
      assert "" + Join(ts, Separator) == Join(ts, Separator);
    }
  }

  /** A trimmed, non-blank document without a marker. */
  predicate Plain(t: string)
  {
    t != "" && TrimSpace(t) == t && !Contains(t, Marker)
  }

  lemma TrimmedPlain(files: seq<string>)
    requires forall i :: 0 <= i < |files| ==> Mergeable(files[i])
    ensures All(Trimmed(files), Plain)
  {
    var ts := Trimmed(files);
    forall k | 0 <= k < |ts| ensures Plain(ts[k]) {
      assert Mergeable(files[k]);
      TrimSpaceIdempotent(files[k]);
    }
    AllIndex(ts, Plain);
  }

  lemma {:induction false} SplitJoined(lead: string, ts: seq<string>)
    requires lead == "" || lead == "\n"
    requires ts != [] && All(ts, Plain)
    ensures Documents(Split(lead + Join(ts, Separator), Marker)) == ts
    decreases |ts|
  {
    if |ts| == 1 {
      SplitJoinedLast(lead, ts[0]);
      HeadTail(ts);
      assert ts[1..] == [];
    } else {
      var t, later := ts[0], ts[1..];
      assert Plain(t) && All(later, Plain);
      var rest := Join(later, Separator);
      assert Join(ts, Separator) == t + Separator + rest by {
        JoinCons(ts, Separator);
      }
      assert Documents(Split("\n" + rest, Marker)) == later by {
        SplitJoined("\n", later);
      }
      SplitJoinedNext(lead, t, rest, later);
      HeadTail(ts);
    }
  }

  lemma SplitJoinedLast(lead: string, t: string)
    requires lead == "" || lead == "\n"
    requires Plain(t)
    ensures Documents(Split(lead + t, Marker)) == [t]
  {
    MarkerFreePadded(lead, t);
    SplitAbsent(lead + t, Marker);
    TrimPadded(lead, t, "");
    assert lead + t + "" == lead + t;
    FlatMapCons(lead + t, [], Document);
    assert [lead + t] + [] == [lead + t];
    assert Document(lead + t) == [t];
  }

  lemma SplitJoinedNext(lead: string, t: string, rest: string, later: seq<string>)
    requires lead == "" || lead == "\n"
    requires Plain(t)
    requires Documents(Split("\n" + rest, Marker)) == later
    ensures Documents(Split(lead + (t + Separator + rest), Marker)) == [t] + later
  {
    var head := lead + t;
    var pieces := Split("\n" + rest, Marker);
    assert Split(lead + (t + Separator + rest), Marker) == [head + "\n"] + pieces by {
      Regroup(lead, t, Separator, rest);
      MarkerFreePadded(lead, t);
      SplitAtSeparator(head, rest);
    }
    assert Document(head + "\n") == [t] by {
      TrimPadded(lead, t, "\n");
    }
    FlatMapCons(head + "\n", pieces, Document);
  }

  /** A new line in front of a marker-free text adds no marker. */
  lemma MarkerFreePadded(lead: string, t: string)
    requires lead == "" || lead == "\n"
    requires !Contains(t, Marker)
    ensures !Contains(lead + t, Marker)
  {
    if lead == "\n" {
      var s := lead + t;
      forall j | 0 <= j <= |s| ensures !OccursAt(s, Marker, j) {
        if j == 0 {
          assert s[0] == '\n';
        } else if j + 3 <= |s| {
          assert s[j..j + 3] == t[j - 1..j + 2];
          assert !OccursAt(t, Marker, j - 1);
        }
      }
    } else {
      assert lead + t == t;
    }
  }

  /** The first marker of `t + "\n---\n" + rest` is the one the separator brings. */
  lemma SplitAtSeparator(t: string, rest: string)
    requires !Contains(t, Marker)
    ensures Split(t + Separator + rest, Marker) == [t + "\n"] + Split("\n" + rest, Marker)
  {
    var s := t + Separator + rest;
    var n := |t|;
    SeparatorMarkerFirst(t, rest);
    assert s[..n + 1] == t + "\n";
    assert s[n + 4..] == "\n" + rest;
  }

  /** In `t + "\n---\n" + rest` the first marker starts just after the new line. */
  lemma SeparatorMarkerFirst(t: string, rest: string)
    requires !Contains(t, Marker)
    ensures Find(t + Separator + rest, Marker) == Some(|t| + 1)
  {
    var s := t + Separator + rest;
    var n := |t|;
    assert s[n] == '\n';
    assert s[n + 1..n + 4] == Marker;
    forall j | 0 <= j < n + 1 ensures !OccursAt(s, Marker, j) {
      if j + 3 <= n {
        assert s[j..j + 3] == t[j..j + 3];
        assert !OccursAt(t, Marker, j);
      } else {
        assert s[j..j + 3][n - j] == '\n';
      }
    }
    assert OccursAt(s, Marker, n + 1);
  }

  /** New lines around a trimmed, non-blank text trim away. */
  lemma TrimPadded(lead: string, t: string, trail: string)
    requires lead == "" || lead == "\n"
    requires trail == "" || trail == "\n"
    requires t != "" && TrimSpace(t) == t
    ensures TrimSpace(lead + t + trail) == t
  {
    assert !IsSpace(t[0]) && !IsSpace(t[|t| - 1]);
    var s := lead + t + trail;
    assert TrimLeft(t + trail) == t + trail;
    if lead == "\n" {
      assert s[1..] == t + trail;
    } else {
      assert s == t + trail;
    }
    assert TrimLeft(s) == t + trail;
    if trail == "\n" {
      assert (t + trail)[..|t|] == t;
    } else {
      assert t + trail == t;
    }
  }

  // ---------------------------------------------------------------------
  // Comment header

  /** A header line as a comment line: `# ` before it unless it is empty. */
  function Commented(line: string): string
  {
    if line == "" then "" else "# " + line
  }

  /** A header line written out, new line included. */
  function CommentLine(line: string): string
  {
    Commented(line) + "\n"
  }

  /** The comment block of a header, one line per header line. */
  function CommentBlock(lines: seq<string>): string
  {
    FlatMap(lines, CommentLine)
  }

  /** The header lines as comment lines, in order. */
  function CommentedLines(lines: seq<string>): seq<string>
  {
    if lines == [] then [] else [Commented(lines[0])] + CommentedLines(lines[1..])
  }

  method AddYAMLHeader(content: string, header: string) returns (result: string)
    ensures result == CommentBlock(Split(header, "\n")) + "\n" + content
  {
    var lines := Split(header, "\n");
    result := "";
    for i := 0 to |lines|
      invariant result == CommentBlock(lines[..i])
    {
      FlatMapSnoc(lines, i, CommentLine);
      var line := lines[i];
      CommentStep(result, line);
      if line != "" {
        result := result + "# ";
        result := result + line;
      }
      result := result + "\n";
    }
    PrefixWhole(lines);
    result := result + "\n";
    result := result + content;
  }

  /** Writing one header line onto the block. */
  lemma CommentStep(block: string, line: string)
    ensures (if line != "" then block + "# " + line else block) + "\n" == block + CommentLine(line)
  {
    if line != "" {
      Regroup(block, "# ", line, "\n");
    }
  }

  /** A line without a line break. */
  predicate OneLine(line: string)
  {
    '\n' !in line
  }

  /** Read back line by line, the block gives the commented header lines and
    * then whatever follows it. */
  lemma {:induction false} CommentBlockLines(lines: seq<string>, rest: string)
    requires All(lines, OneLine)
    ensures Split(CommentBlock(lines) + rest, "\n") == CommentedLines(lines) + Split(rest, "\n")
    decreases |lines|
  {
    if lines == [] {
      assert CommentBlock(lines) + rest == rest;
    } else {
      var line := Commented(lines[0]);
      var block := CommentBlock(lines[1..]);
      assert CommentBlock(lines) + rest == line + "\n" + (block + rest) by {
        HeadTail(lines);
        FlatMapCons(lines[0], lines[1..], CommentLine);
        Assoc(line + "\n", block, rest);
      }
      NoNewLineCommented(lines[0]);
      SplitCharCons(line, '\n', block + rest);
      CommentBlockLines(lines[1..], rest);
      Assoc([line], CommentedLines(lines[1..]), Split(rest, "\n"));
    }
  }

  lemma NoNewLineCommented(line: string)
    requires '\n' !in line
    ensures '\n' !in Commented(line)
  {
  }

  /** The lines of a file with a header: the header's lines as comments, one
    * blank line, then the content's own lines. */
  lemma HeaderLines(content: string, header: string)
    ensures var lines := Split(header, "\n");
      Split(CommentBlock(lines) + "\n" + content, "\n") == CommentedLines(lines) + [""] + Split(content, "\n")
  {
    var lines := Split(header, "\n");
    assert All(lines, OneLine) by {
      SplitPiecesFree(header, "\n");
      forall k | 0 <= k < |lines| ensures OneLine(lines[k]) {
        ContainsChar(lines[k], '\n');
      }
      AllIndex(lines, OneLine);
    }
    assert Split("\n" + content, "\n") == [""] + Split(content, "\n") by {
      SplitCharCons("", '\n', content);
      assert "" + ['\n'] + content == "\n" + content;
    }
    Assoc(CommentBlock(lines), "\n", content);
    CommentBlockLines(lines, "\n" + content);
    Assoc(CommentedLines(lines), [""], Split(content, "\n"));
  }

  // ---------------------------------------------------------------------
  // Pruning empty fields

  /** Go `isEmpty`: nil, "", an empty `[]interface{}` or `map[string]interface{}`,
    * and the `int` zero. Zeros of other numeric types compare unequal to the
    * untyped constant 0 through the interface, so they are not empty; neither
    * is a bool, nor any other type. */
  predicate IsEmpty(v: Value)
  {
    match v
    case Null => true
    case Str(s) => s == ""
    case List(items) => items == []
    case Map(fields) => fields == map[]
    case Int(i) => i == 0
    case _ => false
  }

  /** Only the `int` zero is an empty number, and a bool is never empty. */
  lemma EmptyNumbers(n: int, f: real, text: string, b: bool)
    ensures IsEmpty(Int(n)) <==> n == 0
    ensures !IsEmpty(Int32(n)) && !IsEmpty(Int64(n)) && !IsEmpty(Float(f, text))
    ensures !IsEmpty(Bool(b))
  {
  }

  /** Whether a field or item stays: not empty itself, and not empty once pruned. */
  predicate Kept(v: Value)
    decreases v, 2
  {
    !IsEmpty(v) && !IsEmpty(Cleaned(v))
  }

  /** Go `removeEmptyFields`: maps and lists lose their empty members at
    * every depth; every other value is returned as is. */
  function Cleaned(v: Value): Value
    decreases v, 1
  {
    match v
    case Map(fields) => Map(map k | k in fields && Kept(fields[k]) :: Cleaned(fields[k]))
    case List(items) => List(CleanedItems(items))
    case _ => v
  }

  /** The pruned items of a list that stay, in order. */
  function CleanedItems(items: seq<Value>): seq<Value>
  {
    if items == [] then []
    else (if Kept(items[0]) then [Cleaned(items[0])] else []) + CleanedItems(items[1..])
  }

  /** Go `removeEmptyFields`, building the pruned map or list one member at
    * a time and pruning each member before deciding whether it stays. */
  method RemoveEmptyFields(data: Value) returns (r: Value)
    ensures r == Cleaned(data)
    decreases data
  {
    match data
    case Map(fields) =>
      var result: map<string, Value> := map[];
      var pending := fields.Keys;
      while pending != {}
        invariant pending <= fields.Keys
        invariant result == KeptFields(fields, fields.Keys - pending)
        decreases |pending|
      {
        var key :| key in pending;
        var value := fields[key];
        KeptFieldsStep(fields, fields.Keys - pending, key);
        if !IsEmpty(value) {
          var cleaned := RemoveEmptyFields(value);
          if !IsEmpty(cleaned) {
            result := result[key := cleaned];
          }
        }
        assert fields.Keys - (pending - {key}) == (fields.Keys - pending) + {key};
        pending := pending - {key};
      }
      assert fields.Keys - pending == fields.Keys;
      r := Map(result);
    case List(items) =>
      var result: seq<Value> := [];
      for i := 0 to |items|
        invariant result == FlatMap(items[..i], KeptItem)
      {
        var item := items[i];
        FlatMapSnoc(items, i, KeptItem);
        if !IsEmpty(item) {
          var cleaned := RemoveEmptyFields(item);
          if !IsEmpty(cleaned) {
            result := result + [cleaned];
          }
        }
      }
      PrefixWhole(items);
      CleanedItemsFlat(items);
      r := List(result);
    case _ =>
      r := data;
  }

  /** The pruned members of a map among the keys seen so far. */
  function KeptFields(fields: map<string, Value>, seen: set<string>): map<string, Value>
  {
    map k | k in seen && k in fields && Kept(fields[k]) :: Cleaned(fields[k])
  }

  lemma KeptFieldsStep(fields: map<string, Value>, seen: set<string>, key: string)
    requires key in fields && key !in seen
    ensures KeptFields(fields, seen + {key})
      == if Kept(fields[key]) then KeptFields(fields, seen)[key := Cleaned(fields[key])] else KeptFields(fields, seen)
  {
  }

  /** A list item as it ends up in the pruned list: pruned, or gone. */
  function KeptItem(item: Value): seq<Value>
  {
    if Kept(item) then [Cleaned(item)] else []
  }

  lemma {:induction false} CleanedItemsFlat(items: seq<Value>)
    ensures CleanedItems(items) == FlatMap(items, KeptItem)
  {
    if items != [] {
      CleanedItemsFlat(items[1..]);
    }
  }

  /** No member of a map or list is empty, at any depth. */
  predicate Pruned(v: Value)
  {
    match v
    case Map(fields) => forall k :: k in fields ==> !IsEmpty(fields[k]) && Pruned(fields[k])
    case List(items) => forall x :: x in items ==> !IsEmpty(x) && Pruned(x)
    case _ => true
  }

  /** Nothing the pruning leaves behind is empty, at any depth. */
  lemma {:induction false} CleanedPruned(v: Value)
    ensures Pruned(Cleaned(v))
    decreases v, 1
  {
    match v
    case Map(fields) =>
      var result := Cleaned(v).fields;
      forall k | k in result ensures !IsEmpty(result[k]) && Pruned(result[k]) {
        assert k in fields && Kept(fields[k]) && result[k] == Cleaned(fields[k]);
        CleanedPruned(fields[k]);
      }
    case List(items) =>
      CleanedItemsPruned(items);
    case _ =>
  }

  lemma {:induction false} CleanedItemsPruned(items: seq<Value>)
    ensures forall x :: x in CleanedItems(items) ==> !IsEmpty(x) && Pruned(x)
  {
    if items != [] {
      CleanedPruned(items[0]);
      CleanedItemsPruned(items[1..]);
    }
  }

  /** A value with no empty member anywhere is left as it is. */
  lemma {:induction false} PrunedUnchanged(v: Value)
    requires Pruned(v)
    ensures Cleaned(v) == v
    decreases v, 1
  {
    match v
    case Map(fields) =>
      forall k | k in fields ensures Kept(fields[k]) && Cleaned(fields[k]) == fields[k] {
        PrunedUnchanged(fields[k]);
      }
      assert Cleaned(v).fields == fields;
    case List(items) =>
      PrunedItemsUnchanged(items);
    case _ =>
  }

  lemma {:induction false} PrunedItemsUnchanged(items: seq<Value>)
    requires forall x :: x in items ==> !IsEmpty(x) && Pruned(x)
    ensures CleanedItems(items) == items
  {
    if items != [] {
      assert items[0] in items;
      assert forall x :: x in items[1..] ==> x in items;
      PrunedUnchanged(items[0]);
      PrunedItemsUnchanged(items[1..]);
      HeadTail(items);
    }
  }

  /** Pruning twice prunes no more than pruning once. */
  lemma CleanedIdempotent(v: Value)
    ensures Cleaned(Cleaned(v)) == Cleaned(v)
  {
    CleanedPruned(v);
    PrunedUnchanged(Cleaned(v));
  }
}
