/**
 * The parts of Go's `strings`, `strconv` and `unicode` packages the converter
 * relies on, stated over `string == seq<char>`, and the fixed key order the
 * model uses wherever Go ranges over a map.
 */
module Text {
  import opened Wrappers

  const MaxInt32: int := 0x7FFF_FFFF
  const MaxInt64: int := 0x7FFF_FFFF_FFFF_FFFF

  // ---------------------------------------------------------------------
  // Sequences

  /** A prefix one element longer. */
  lemma PrefixSnoc<T>(s: seq<T>, i: nat)
    requires i < |s|
    ensures s[..i + 1] == s[..i] + [s[i]]
  {
  }

  /** A non-empty sequence is its head before its tail. */
  /** Dropping the last element of a slice. */
  lemma SliceLast<T>(s: seq<T>, i: nat, j: nat)
    requires i < j <= |s|
    ensures s[i..j][..j - 1 - i] == s[i..j - 1] && s[i..j][j - 1 - i] == s[j - 1]
  {
  }

  lemma HeadTail<T>(s: seq<T>)
    requires s != []
    ensures s == [s[0]] + s[1..]
  {
  }

  /** The prefix of full length. */
  lemma PrefixWhole<T>(s: seq<T>)
    ensures s[..|s|] == s
  {
  }

  /** Concatenation regrouped to the left. */
  lemma Regroup<T>(a: seq<T>, b: seq<T>, c: seq<T>, d: seq<T>)
    ensures a + (b + c + d) == a + b + c + d
  {
  }

  lemma Assoc<T>(a: seq<T>, b: seq<T>, c: seq<T>)
    ensures a + b + c == a + (b + c)
  {
  }

  /** The concatenation of f over the elements of xs, in order. */
  function FlatMap<T, U>(xs: seq<T>, f: T -> seq<U>): seq<U>
  {
    if xs == [] then [] else f(xs[0]) + FlatMap(xs[1..], f)
  }

  lemma {:induction false} FlatMapAppend<T, U>(a: seq<T>, b: seq<T>, f: T -> seq<U>)
    ensures FlatMap(a + b, f) == FlatMap(a, f) + FlatMap(b, f)
  {
    if a != [] {
      assert (a + b)[1..] == a[1..] + b;
      FlatMapAppend(a[1..], b, f);
    } else {
      assert a + b == b;
    }
  }

  /** f applied to every element, in order. */
  function MapSeq<T, U>(xs: seq<T>, f: T -> U): seq<U>
  {
    seq(|xs|, i requires 0 <= i < |xs| => f(xs[i]))
  }

  lemma MapSeqSnoc<T, U>(xs: seq<T>, i: nat, f: T -> U)
    requires i < |xs|
    ensures MapSeq(xs[..i + 1], f) == MapSeq(xs[..i], f) + [f(xs[i])]
  {
  }

  /** Every element satisfies p. */
  predicate All<T>(xs: seq<T>, p: T -> bool)
  {
    xs == [] || (p(xs[0]) && All(xs[1..], p))
  }

  lemma {:induction false} AllIndex<T>(xs: seq<T>, p: T -> bool)
    ensures All(xs, p) <==> forall k :: 0 <= k < |xs| ==> p(xs[k])
  {
    if xs != [] {
      AllIndex(xs[1..], p);
      assert forall k :: 1 <= k < |xs| ==> xs[k] == xs[1..][k - 1];
    }
  }

  lemma FlatMapCons<T, U>(x: T, xs: seq<T>, f: T -> seq<U>)
    ensures FlatMap([x] + xs, f) == f(x) + FlatMap(xs, f)
  {
    assert ([x] + xs)[1..] == xs;
  }

  /** One more element of the input, its image appended to the output. */
  lemma FlatMapSnoc<T, U>(xs: seq<T>, i: nat, f: T -> seq<U>)
    requires i < |xs|
    ensures FlatMap(xs[..i + 1], f) == FlatMap(xs[..i], f) + f(xs[i])
  {
    PrefixSnoc(xs, i);
    FlatMapAppend(xs[..i], [xs[i]], f);
    assert [xs[i]][1..] == [];
  }

  /** Whatever the concatenation holds comes from the image of one element. */
  lemma {:induction false} FlatMapIn<T, U>(xs: seq<T>, f: T -> seq<U>, y: U)
    requires y in FlatMap(xs, f)
    ensures exists k :: 0 <= k < |xs| && y in f(xs[k])
  {
    if y !in f(xs[0]) {
      FlatMapIn(xs[1..], f, y);
      var k :| 0 <= k < |xs[1..]| && y in f(xs[1..][k]);
      assert xs[1..][k] == xs[k + 1];
    }
  }

  lemma {:induction false} FlatMapEmpty<T, U>(xs: seq<T>, f: T -> seq<U>)
    ensures FlatMap(xs, f) == [] <==> forall k :: 0 <= k < |xs| ==> f(xs[k]) == []
  {
    if xs != [] {
      FlatMapEmpty(xs[1..], f);
      assert forall k :: 1 <= k < |xs| ==> xs[k] == xs[1..][k - 1];
    }
  }

  // ---------------------------------------------------------------------
  // Searching

  /** `sub` occurs in `s` starting at index `i`. */
  predicate OccursAt(s: string, sub: string, i: nat)
  {
    i + |sub| <= |s| && s[i..i + |sub|] == sub
  }

  /** The first index at or after `from` where `sub` occurs, if any. */
  function FindFrom(s: string, sub: string, from: nat): (r: Option<nat>)
    requires from <= |s|
    ensures r.Some? ==> from <= r.value && OccursAt(s, sub, r.value)
    ensures r.Some? ==> forall j :: from <= j < r.value ==> !OccursAt(s, sub, j)
    ensures r.None? ==> forall j :: from <= j <= |s| ==> !OccursAt(s, sub, j)
    decreases |s| - from
  {
    if OccursAt(s, sub, from) then Some(from)
    else if from == |s| then None
    else FindFrom(s, sub, from + 1)
  }

  /** Go `strings.Index`: the first occurrence of `sub` in `s`. */
  function Find(s: string, sub: string): (r: Option<nat>)
    ensures r.Some? ==> OccursAt(s, sub, r.value) && forall j :: 0 <= j < r.value ==> !OccursAt(s, sub, j)
    ensures r.None? ==> forall j :: 0 <= j <= |s| ==> !OccursAt(s, sub, j)
  {
    FindFrom(s, sub, 0)
  }

  /** Go `strings.Contains`. */
  predicate Contains(s: string, sub: string)
  {
    Find(s, sub).Some?
  }

  /** Go `strings.HasPrefix`. */
  predicate HasPrefix(s: string, prefix: string)
  {
    |prefix| <= |s| && s[..|prefix|] == prefix
  }

  /** Go `strings.HasSuffix`. */
  predicate HasSuffix(s: string, suffix: string)
  {
    |suffix| <= |s| && s[|s| - |suffix|..] == suffix
  }

  /** An occurrence at a known index makes `Contains` hold. */
  lemma OccursContains(s: string, sub: string, i: nat)
    requires OccursAt(s, sub, i)
    ensures Contains(s, sub)
  {
  }

  lemma ContainsChar(s: string, c: char)
    ensures Contains(s, [c]) <==> c in s
  {
    if c in s {
      var i :| 0 <= i < |s| && s[i] == c;
      assert OccursAt(s, [c], i);
    }
    if Contains(s, [c]) {
      var i := Find(s, [c]).value;
      assert s[i..i + 1] == [c];
      assert s[i] == c;
    }
  }

  // ---------------------------------------------------------------------
  // Splitting and joining

  /** Go `strings.Split` with a non-empty separator. */
  function Split(s: string, sep: string): (parts: seq<string>)
    requires |sep| > 0
    ensures |parts| >= 1
    decreases |s|
  {
    match Find(s, sep)
    case None => [s]
    case Some(i) => [s[..i]] + Split(s[i + |sep|..], sep)
  }

  /** Go `strings.Join`. */
  function Join(parts: seq<string>, sep: string): string
  {
    if |parts| == 0 then ""
    else if |parts| == 1 then parts[0]
    else parts[0] + sep + Join(parts[1..], sep)
  }

  /** Joining the pieces of a split with the same separator restores the input. */
  lemma {:induction false} JoinSplit(s: string, sep: string)
    requires |sep| > 0
    ensures Join(Split(s, sep), sep) == s
    decreases |s|
  {
    match Find(s, sep)
    case None =>
    case Some(i) =>
      var rest := s[i + |sep|..];
      var tail := Split(rest, sep);
      JoinSplit(rest, sep);
      assert Split(s, sep) == [s[..i]] + tail;
      assert ([s[..i]] + tail)[1..] == tail;
      assert Join(Split(s, sep), sep) == s[..i] + sep + rest;
      assert s[i..i + |sep|] == sep;
      assert s == s[..i] + s[i..i + |sep|] + rest;
  }

  lemma JoinCons(parts: seq<string>, sep: string)
    requires |parts| > 1
    ensures Join(parts, sep) == parts[0] + sep + Join(parts[1..], sep)
  {
  }

  /** Joining one more part: the separator goes between it and the earlier parts. */
  lemma {:induction false} JoinSnoc(parts: seq<string>, x: string, sep: string)
    ensures Join(parts + [x], sep) == if parts == [] then x else Join(parts, sep) + sep + x
    decreases |parts|
  {
    if |parts| > 1 {
      assert (parts + [x])[1..] == parts[1..] + [x];
      JoinSnoc(parts[1..], x, sep);
    } else if |parts| == 1 {
      assert (parts + [x])[1..] == [x];
    }
  }

  /** No piece of a split contains the separator. */
  lemma {:induction false} SplitPiecesFree(s: string, sep: string)
    requires |sep| > 0
    ensures forall k :: 0 <= k < |Split(s, sep)| ==> !Contains(Split(s, sep)[k], sep)
    decreases |s|
  {
    match Find(s, sep)
    case None =>
    case Some(i) =>
      SplitPiecesFree(s[i + |sep|..], sep);
      PrefixBeforeFirst(s, sep, i);
      assert Split(s, sep) == [s[..i]] + Split(s[i + |sep|..], sep);
  }

  /** The text before the first occurrence of `sub` does not contain `sub`. */
  lemma PrefixBeforeFirst(s: string, sub: string, i: nat)
    requires i <= |s| && |sub| > 0
    requires forall j :: 0 <= j < i ==> !OccursAt(s, sub, j)
    ensures !Contains(s[..i], sub)
  {
    var head := s[..i];
    forall j | 0 <= j <= |head| ensures !OccursAt(head, sub, j) {
      if j + |sub| <= |head| {
        assert j < i && !OccursAt(s, sub, j);
        assert head[j..j + |sub|] == s[j..j + |sub|];
      }
    }
  }

  /** A string without the separator splits into itself alone. */
  lemma SplitAbsent(s: string, sep: string)
    requires |sep| > 0 && !Contains(s, sep)
    ensures Split(s, sep) == [s]
  {
  }

  /** A one-character separator: splitting `a + [c] + b` where `a` is free of `c`. */
  lemma SplitCharCons(a: string, c: char, b: string)
    requires c !in a
    ensures Split(a + [c] + b, [c]) == [a] + Split(b, [c])
  {
    var s := a + [c] + b;
    assert OccursAt(s, [c], |a|);
    forall j | 0 <= j < |a| ensures !OccursAt(s, [c], j) {
      assert s[j..j + 1][0] == a[j];
    }
    assert Find(s, [c]) == Some(|a|);
    assert s[..|a|] == a;
    assert s[|a| + 1..] == b;
  }

  /** Go `strings.SplitN(s, sep, 2)`: at most two pieces, cut at the first separator. */
  function Cut(s: string, sep: string): (parts: seq<string>)
    requires |sep| > 0
    ensures 1 <= |parts| <= 2
    ensures |parts| == 1 <==> !Contains(s, sep)
    ensures |parts| == 1 ==> parts[0] == s
    ensures |parts| == 2 ==> s == parts[0] + sep + parts[1] && !Contains(parts[0], sep)
  {
    match Find(s, sep)
    case None => [s]
    case Some(i) =>
      assert s == s[..i] + sep + s[i + |sep|..] by {
        assert s[i..i + |sep|] == sep;
      }
      var head := s[..i];
      PrefixBeforeFirst(s, sep, i);
      [head, s[i + |sep|..]]
  }

  // ---------------------------------------------------------------------
  // White space

  /** Go `unicode.IsSpace`: the Latin-1 spaces and the Unicode White_Space characters. */
  predicate IsSpace(c: char)
  {
    var n := c as int;
    n == 0x09 || n == 0x0A || n == 0x0B || n == 0x0C || n == 0x0D || n == 0x20
    || n == 0x85 || n == 0xA0 || n == 0x1680 || (0x2000 <= n <= 0x200A)
    || n == 0x2028 || n == 0x2029 || n == 0x202F || n == 0x205F || n == 0x3000
  }

  /** Go `strings.TrimLeftFunc(s, unicode.IsSpace)`. */
  function TrimLeft(s: string): (r: string)
    ensures |r| <= |s| && r == s[|s| - |r|..]
    ensures r == [] || !IsSpace(r[0])
    ensures forall i :: 0 <= i < |s| - |r| ==> IsSpace(s[i])
  {
    if s == [] || !IsSpace(s[0]) then s else TrimLeft(s[1..])
  }

  /** Go `strings.TrimRightFunc(s, unicode.IsSpace)`. */
  function TrimRight(s: string): (r: string)
    ensures |r| <= |s| && r == s[..|r|]
    ensures r == [] || !IsSpace(r[|r| - 1])
    ensures forall i :: |r| <= i < |s| ==> IsSpace(s[i])
  {
    if s == [] || !IsSpace(s[|s| - 1]) then s else TrimRight(s[..|s| - 1])
  }

  /** Go `strings.TrimSpace`: drop leading and trailing white space. */
  function TrimSpace(s: string): (r: string)
    ensures |r| <= |s|
    ensures r == [] || (!IsSpace(r[0]) && !IsSpace(r[|r| - 1]))
    ensures s == [] || (!IsSpace(s[0]) && !IsSpace(s[|s| - 1])) ==> r == s
  {
    TrimRight(TrimLeft(s))
  }

  /** The trimmed text is a slice of the text with only white space cut off either end. */
  lemma TrimSpaceSlice(s: string)
    ensures exists i, j ::
              0 <= i <= j <= |s| && TrimSpace(s) == s[i..j]
              && (forall k :: 0 <= k < i ==> IsSpace(s[k])) && (forall k :: j <= k < |s| ==> IsSpace(s[k]))
  {
    var t := TrimLeft(s);
    TrimmedSlice(s, |s| - |t|, t, TrimRight(t));
  }

  /** Cutting white space from the end of a suffix left after cutting white space from
    * the front leaves a slice with white space on both sides. */
  lemma TrimmedSlice(s: string, i: nat, t: string, r: string)
    requires i <= |s| && t == s[i..] && (forall k :: 0 <= k < i ==> IsSpace(s[k]))
    requires |r| <= |t| && r == t[..|r|] && (forall k :: |r| <= k < |t| ==> IsSpace(t[k]))
    ensures exists i, j ::
              0 <= i <= j <= |s| && r == s[i..j]
              && (forall k :: 0 <= k < i ==> IsSpace(s[k])) && (forall k :: j <= k < |s| ==> IsSpace(s[k]))
  {
    assert r == s[i..i + |r|];
    forall k | i + |r| <= k < |s| ensures IsSpace(s[k]) { assert s[k] == t[k - i]; }
  }

  /** A trimmed string is its own trim. */
  lemma TrimSpaceIdempotent(s: string)
    ensures TrimSpace(TrimSpace(s)) == TrimSpace(s)
  {
  }

  /** Length of the longest space-free prefix. */
  function TokenLength(s: string): (n: nat)
    ensures n <= |s|
    ensures forall i :: 0 <= i < n ==> !IsSpace(s[i])
    ensures n == |s| || IsSpace(s[n])
  {
    if s == [] || IsSpace(s[0]) then 0 else 1 + TokenLength(s[1..])
  }

  /** Go `strings.Fields`: the maximal runs of non-space characters, in order. */
  function Fields(s: string): (fs: seq<string>)
    ensures forall k :: 0 <= k < |fs| ==> fs[k] != []
    ensures forall k, i :: 0 <= k < |fs| && 0 <= i < |fs[k]| ==> !IsSpace(fs[k][i])
    decreases |s|
  {
    if s == [] then []
    else if IsSpace(s[0]) then Fields(s[1..])
    else
      var n := TokenLength(s);
      [s[..n]] + Fields(s[n..])
  }

  /** Concatenation of a sequence of strings. */
  function Concat(fs: seq<string>): string
  {
    if fs == [] then "" else fs[0] + Concat(fs[1..])
  }

  /** `s` with every white-space character removed. */
  function Unspaced(s: string): string
  {
    if s == [] then "" else (if IsSpace(s[0]) then "" else [s[0]]) + Unspaced(s[1..])
  }

  lemma {:induction false} UnspacedAppend(a: string, b: string)
    ensures Unspaced(a + b) == Unspaced(a) + Unspaced(b)
    decreases |a|
  {
    if a != [] {
      UnspacedAppend(a[1..], b);
      assert (a + b)[1..] == a[1..] + b;
    } else {
      assert a + b == b;
    }
  }

  lemma {:induction false} UnspacedToken(s: string)
    requires forall i :: 0 <= i < |s| ==> !IsSpace(s[i])
    ensures Unspaced(s) == s
    decreases |s|
  {
    if s != [] {
      UnspacedToken(s[1..]);
    }
  }

  /** The fields of `s` together hold exactly its non-space characters, in order. */
  lemma {:induction false} FieldsKeepText(s: string)
    ensures Concat(Fields(s)) == Unspaced(s)
    decreases |s|
  {
    if s == [] {
    } else if IsSpace(s[0]) {
      FieldsKeepText(s[1..]);
    } else {
      var n := TokenLength(s);
      FieldsKeepText(s[n..]);
      UnspacedToken(s[..n]);
      UnspacedAppend(s[..n], s[n..]);
      assert s[..n] + s[n..] == s;
    }
  }

  /** Every character of `s` is white space. */
  predicate AllSpace(s: string)
  {
    forall k :: 0 <= k < |s| ==> IsSpace(s[k])
  }

  /** The gaps `gaps` interleaved with the words `fs`: gap, word, gap, ..., word, gap. */
  function Interleave(gaps: seq<string>, fs: seq<string>): (s: string)
    requires |gaps| == |fs| + 1
    decreases |fs|
  {
    if fs == [] then gaps[0] else gaps[0] + fs[0] + Interleave(gaps[1..], fs[1..])
  }

  /** Gaps between words: all white space, and at least one character between two words. */
  predicate Spacing(gaps: seq<string>, fs: seq<string>)
  {
    |gaps| == |fs| + 1
    && (forall k :: 0 <= k < |gaps| ==> AllSpace(gaps[k]))
    && (forall k :: 0 < k < |fs| ==> gaps[k] != [])
  }

  /** Words: non-empty and free of white space. */
  predicate Words(fs: seq<string>)
  {
    forall k :: 0 <= k < |fs| ==> fs[k] != [] && forall m :: 0 <= m < |fs[k]| ==> !IsSpace(fs[k][m])
  }

  /** The white space around and between the fields of a text. */
  ghost function FieldGaps(s: string): (gaps: seq<string>)
    ensures |gaps| == |Fields(s)| + 1
    ensures s != [] && IsSpace(s[0]) ==> gaps[0] != []
    decreases |s|
  {
    if s == [] then [[]]
    else if IsSpace(s[0]) then var g := FieldGaps(s[1..]); [[s[0]] + g[0]] + g[1..]
    else [[]] + FieldGaps(s[TokenLength(s)..])
  }

  /** The fields of a text are its maximal runs of non-space characters: the text is
    * white space interleaved with them, with white space between any two. */
  lemma FieldsSeparated(s: string)
    ensures exists gaps :: Spacing(gaps, Fields(s)) && Interleave(gaps, Fields(s)) == s
  {
    FieldGapsSpacing(s);
    FieldGapsJoin(s);
  }

  lemma {:induction false} FieldGapsSpacing(s: string)
    ensures Spacing(FieldGaps(s), Fields(s))
    decreases |s|
  {
    var gaps := FieldGaps(s);
    if s == [] {
    } else if IsSpace(s[0]) {
      var g := FieldGaps(s[1..]);
      FieldGapsSpacing(s[1..]);
      assert AllSpace(gaps[0]) by {
        forall k | 0 <= k < |gaps[0]| ensures IsSpace(gaps[0][k]) {
          if k > 0 { assert gaps[0][k] == g[0][k - 1]; }
        }
      }
      assert forall k :: 0 < k < |gaps| ==> gaps[k] == g[k];
    } else {
      var g := FieldGaps(s[TokenLength(s)..]);
      FieldGapsSpacing(s[TokenLength(s)..]);
      assert forall k :: 0 < k < |gaps| ==> gaps[k] == g[k - 1];
    }
  }

  lemma {:induction false} FieldGapsJoin(s: string)
    ensures Interleave(FieldGaps(s), Fields(s)) == s
    decreases |s|
  {
    var fs, gaps := Fields(s), FieldGaps(s);
    if s == [] {
    } else if IsSpace(s[0]) {
      var g := FieldGaps(s[1..]);
      FieldGapsJoin(s[1..]);
      assert gaps[0] == [s[0]] + g[0] && gaps[1..] == g[1..];
      InterleaveCons(s[0], gaps, g, fs);
      assert [s[0]] + s[1..] == s;
    } else {
      var n := TokenLength(s);
      FieldGapsJoin(s[n..]);
      assert gaps[0] == [] && gaps[1..] == FieldGaps(s[n..]);
      assert fs[0] == s[..n] && fs[1..] == Fields(s[n..]);
      InterleaveWord(gaps, fs);
      assert s[..n] + s[n..] == s;
    }
  }

  /** A word in front of the words, after an empty first gap. */
  lemma InterleaveWord(gaps: seq<string>, fs: seq<string>)
    requires |gaps| == |fs| + 1 && gaps[0] == [] && fs != []
    ensures Interleave(gaps, fs) == fs[0] + Interleave(gaps[1..], fs[1..])
  {
    assert [] + fs[0] == fs[0];
  }

  /** One more character at the front of the first gap. */
  lemma InterleaveCons(c: char, longer: seq<string>, gaps: seq<string>, fs: seq<string>)
    requires |gaps| == |fs| + 1 && |longer| == |gaps|
    requires longer[0] == [c] + gaps[0] && longer[1..] == gaps[1..]
    ensures Interleave(longer, fs) == [c] + Interleave(gaps, fs)
  {
    if fs != [] {
      Regroup([c], gaps[0], fs[0], Interleave(gaps[1..], fs[1..]));
    }
  }

  /** Words a text is spaced into are its fields: `Fields` is the only such split. */
  lemma {:induction false} SeparatedFields(s: string, gaps: seq<string>, fs: seq<string>)
    requires Words(fs) && Spacing(gaps, fs) && Interleave(gaps, fs) == s
    ensures fs == Fields(s)
    decreases |s|
  {
    if gaps[0] != [] {
      var g := LeadingSpace(s, gaps, fs);
      SeparatedFields(s[1..], g, fs);
    } else if fs == [] {
    } else {
      var rest := Interleave(gaps[1..], fs[1..]);
      LeadingWord(gaps, fs);
      FirstField(fs[0], rest);
      SpacingTail(gaps, fs);
      SeparatedFields(rest, gaps[1..], fs[1..]);
      assert fs == [fs[0]] + fs[1..];
    }
  }

  /** A text spaced by a non-empty first gap starts with white space; the rest of it is
    * spaced by the shorter gaps. */
  lemma LeadingSpace(s: string, gaps: seq<string>, fs: seq<string>) returns (g: seq<string>)
    requires Spacing(gaps, fs) && Interleave(gaps, fs) == s && gaps[0] != []
    ensures s != [] && IsSpace(s[0])
    ensures Spacing(g, fs) && Interleave(g, fs) == s[1..] && |s[1..]| < |s|
  {
    var c := gaps[0][0];
    g := [gaps[0][1..]] + gaps[1..];
    assert [c] + gaps[0][1..] == gaps[0];
    assert g[0] == gaps[0][1..] && g[1..] == gaps[1..];
    InterleaveCons(c, gaps, g, fs);
    assert IsSpace(s[0]) by { assert s[0] == gaps[0][0]; }
    assert AllSpace(g[0]) by {
      forall k | 0 <= k < |g[0]| ensures IsSpace(g[0][k]) { assert g[0][k] == gaps[0][k + 1]; }
    }
    assert forall k :: 0 < k < |g| ==> g[k] == gaps[k];
  }

  /** With an empty first gap, the text starts with the first word, followed by the end
    * of the text or by white space. */
  lemma LeadingWord(gaps: seq<string>, fs: seq<string>)
    requires Spacing(gaps, fs) && gaps[0] == [] && fs != []
    ensures var rest := Interleave(gaps[1..], fs[1..]);
      Interleave(gaps, fs) == fs[0] + rest && (rest == [] || IsSpace(rest[0]))
  {
    var rest := Interleave(gaps[1..], fs[1..]);
    assert Interleave(gaps, fs) == [] + fs[0] + rest;
    if rest != [] {
      if |fs| > 1 {
        assert gaps[1] != [] && rest[0] == gaps[1][0];
      } else {
        assert rest == gaps[1];
      }
      assert AllSpace(gaps[1]);
    }
  }

  /** A word followed by the end of the text or by white space is its first field. */
  lemma FirstField(w: string, rest: string)
    requires w != [] && (forall k :: 0 <= k < |w| ==> !IsSpace(w[k]))
    requires rest == [] || IsSpace(rest[0])
    ensures Fields(w + rest) == [w] + Fields(rest)
  {
    var s := w + rest;
    assert forall k :: 0 <= k < |w| ==> s[k] == w[k];
    assert |w| < |s| ==> s[|w|] == rest[0];
    TokenLengthOfWord(s, |w|);
    assert s[..|w|] == w && s[|w|..] == rest;
  }

  lemma SpacingTail(gaps: seq<string>, fs: seq<string>)
    requires Words(fs) && Spacing(gaps, fs) && fs != []
    ensures Words(fs[1..]) && Spacing(gaps[1..], fs[1..])
  {
    assert Words(fs[1..]) by {
      forall k | 0 <= k < |fs| - 1 ensures fs[1..][k] == fs[k + 1] { }
    }
    assert forall k :: 0 <= k < |gaps| - 1 ==> gaps[1..][k] == gaps[k + 1];
  }

  /** Text made only of white space has no fields. */
  lemma {:induction false} AllSpaceNoFields(s: string)
    requires AllSpace(s)
    ensures Fields(s) == []
    decreases |s|
  {
    if s != [] {
      assert IsSpace(s[0]);
      assert AllSpace(s[1..]) by {
        forall k | 0 <= k < |s| - 1 ensures IsSpace(s[1..][k]) { assert s[1..][k] == s[k + 1]; }
      }
      AllSpaceNoFields(s[1..]);
    }
  }

  /** A run of `m` non-space characters ending at the end of `s` or at white space is the
    * token `TokenLength` measures. */
  lemma TokenLengthOfWord(s: string, m: nat)
    requires 0 < m <= |s| && (forall k :: 0 <= k < m ==> !IsSpace(s[k]))
    requires m == |s| || IsSpace(s[m])
    ensures TokenLength(s) == m
  {
  }

  // ---------------------------------------------------------------------
  // Case mapping (ASCII letters)

  function LowerChar(c: char): char
  {
    if 'A' <= c <= 'Z' then (c as int + 32) as char else c
  }

  function UpperChar(c: char): char
  {
    if 'a' <= c <= 'z' then (c as int - 32) as char else c
  }

  /** Go `strings.ToLower`, for ASCII letters. */
  function ToLower(s: string): (r: string)
    ensures |r| == |s|
    ensures forall i :: 0 <= i < |s| ==> r[i] == LowerChar(s[i])
  {
    if s == [] then [] else [LowerChar(s[0])] + ToLower(s[1..])
  }

  /** Lower-casing works character by character, so it distributes over concatenation. */
  lemma ToLowerAppend(a: string, b: string)
    ensures ToLower(a + b) == ToLower(a) + ToLower(b)
  {
    assert forall i :: 0 <= i < |a + b| ==> ToLower(a + b)[i] == (ToLower(a) + ToLower(b))[i];
  }

  /** Go `strings.ToUpper`, for ASCII letters. */
  function ToUpper(s: string): (r: string)
    ensures |r| == |s|
    ensures forall i :: 0 <= i < |s| ==> r[i] == UpperChar(s[i])
  {
    if s == [] then [] else [UpperChar(s[0])] + ToUpper(s[1..])
  }

  // ---------------------------------------------------------------------
  // UTF-8 lengths

  /** Number of bytes in the UTF-8 encoding of one Unicode scalar value. */
  function RuneLength(c: char): (n: nat)
    ensures 1 <= n <= 4
    ensures n == 1 <==> c as int < 0x80
  {
    var v := c as int;
    if v < 0x80 then 1 else if v < 0x800 then 2 else if v < 0x10000 then 3 else 4
  }

  /** Number of bytes of the UTF-8 encoding of `s`: Go's `len` on a string. */
  function ByteLength(s: string): (n: nat)
    ensures |s| <= n <= 4 * |s|
  {
    if s == [] then 0 else RuneLength(s[0]) + ByteLength(s[1..])
  }

  /** A string of ASCII characters has one byte per character. */
  lemma {:induction false} AsciiByteLength(s: string)
    requires forall i :: 0 <= i < |s| ==> s[i] as int < 0x80
    ensures ByteLength(s) == |s|
  {
    if s != [] {
      assert forall i :: 0 <= i < |s[1..]| ==> s[1..][i] == s[i + 1];
      AsciiByteLength(s[1..]);
    }
  }

  /** Byte lengths add up over concatenation. */
  lemma {:induction false} ByteLengthAppend(a: string, b: string)
    ensures ByteLength(a + b) == ByteLength(a) + ByteLength(b)
  {
    if a == [] {
      assert a + b == b;
    } else {
      assert (a + b)[0] == a[0] && (a + b)[1..] == a[1..] + b;
      ByteLengthAppend(a[1..], b);
    }
  }

  // ---------------------------------------------------------------------
  // Membership with a flag

  /** The loop with a `valid` flag and an early `break` that tests membership. */
  method IsOneOf(s: string, options: seq<string>) returns (valid: bool)
    ensures valid <==> s in options
  {
    valid := false;
    var i := 0;
    while i < |options|
      invariant 0 <= i <= |options|
      invariant s !in options[..i]
    {
      if s == options[i] {
        valid := true;
        return;
      }
      assert options[..i + 1] == options[..i] + [options[i]];
      i := i + 1;
    }
    assert options[..i] == options;
  }

  // ---------------------------------------------------------------------
  // Decimal integers

  predicate IsDigit(c: char)
  {
    '0' <= c <= '9'
  }

  /** A non-empty run of ASCII decimal digits. */
  predicate IsDigits(s: string)
  {
    |s| > 0 && forall i :: 0 <= i < |s| ==> IsDigit(s[i])
  }

  function DigitValue(c: char): nat
    requires IsDigit(c)
  {
    c as int - '0' as int
  }

  function DigitChar(d: nat): (c: char)
    requires d < 10
    ensures IsDigit(c) && DigitValue(c) == d
  {
    ('0' as int + d) as char
  }

  /** The value of a string of decimal digits, most significant first. */
  function DigitsValue(s: string): nat
    requires forall i :: 0 <= i < |s| ==> IsDigit(s[i])
  {
    if s == [] then 0 else 10 * DigitsValue(s[..|s| - 1]) + DigitValue(s[|s| - 1])
  }

  /** Go `strconv.ParseInt(s, 10, bitSize)` where `max` is the largest value of the bit size:
    * an optional sign, then decimal digits, within range. */
  function ParseInt(s: string, max: int): (r: Option<int>)
    ensures r.Some? ==> -max - 1 <= r.value <= max
  {
    var body := if |s| > 0 && (s[0] == '-' || s[0] == '+') then s[1..] else s;
    if !IsDigits(body) then None
    else
      var v := if |s| > 0 && s[0] == '-' then -(DigitsValue(body) as int) else DigitsValue(body);
      if -max - 1 <= v <= max then Some(v) else None
  }

  /** Go `strconv.Atoi` on a 64-bit platform. */
  function Atoi(s: string): Option<int>
  {
    ParseInt(s, MaxInt64)
  }

  /** Go `strconv.ParseBool`: the accepted spellings of true and false. */
  function ParseBool(s: string): Option<bool>
  {
    if s in ["1", "t", "T", "TRUE", "true", "True"] then Some(true)
    else if s in ["0", "f", "F", "FALSE", "false", "False"] then Some(false)
    else None
  }

  /** Go `strconv.FormatBool`. */
  function FormatBool(b: bool): string
  {
    if b then "true" else "false"
  }

  /** Printing a boolean and parsing it back gives the boolean. */
  lemma ParseFormatBool(b: bool)
    ensures ParseBool(FormatBool(b)) == Some(b)
  {
    assert FormatBool(b) in (if b then ["1", "t", "T", "TRUE", "true", "True"] else ["0", "f", "F", "FALSE", "false", "False"]);
  }

  /** Decimal digits of a natural number, without leading zeros. */
  function NatToString(n: nat): (s: string)
    ensures IsDigits(s)
    decreases n
  {
    if n < 10 then [DigitChar(n)] else NatToString(n / 10) + [DigitChar(n % 10)]
  }

  /** Go `strconv.Itoa` (and `%d`). */
  function Itoa(n: int): string
  {
    if n < 0 then "-" + NatToString(-n) else NatToString(n)
  }

  lemma {:induction false} NatToStringValue(n: nat)
    ensures DigitsValue(NatToString(n)) == n
    decreases n
  {
    if n >= 10 {
      NatToStringValue(n / 10);
      var s := NatToString(n);
      assert s[..|s| - 1] == NatToString(n / 10);
    }
  }

  /** Printing an integer in decimal and parsing it back gives the integer. */
  lemma ParseItoa(n: int, max: int)
    requires -max - 1 <= n <= max
    ensures ParseInt(Itoa(n), max) == Some(n)
  {
    NatToStringValue(if n < 0 then -n else n);
    if n < 0 {
      assert Itoa(n)[1..] == NatToString(-n);
    } else {
      assert Itoa(n)[0] != '-' && Itoa(n)[0] != '+';
    }
  }

  /** The decimal text of an integer holds only digits and a leading minus sign. */
  lemma ItoaChars(n: int)
    ensures forall i :: 0 <= i < |Itoa(n)| ==> IsDigit(Itoa(n)[i]) || Itoa(n)[i] == '-'
  {
    if n < 0 {
      var t := NatToString(-n);
      assert forall i :: 1 <= i < |Itoa(n)| ==> Itoa(n)[i] == t[i - 1];
    }
  }

  /** Go's conversion of a float64 to an integer: truncation toward zero. */
  function Truncate(f: real): (r: int)
    ensures 0.0 <= f ==> r as real <= f < r as real + 1.0
    ensures f < 0.0 ==> r as real - 1.0 < f <= r as real
  {
    if f >= 0.0 then f.Floor else -((-f).Floor)
  }

  /** The Go conversion `int32(x)`: two's-complement wrap-around into [-2^31, 2^31). */
  function Wrap32(x: int): (r: int)
    ensures -MaxInt32 - 1 <= r <= MaxInt32
    ensures (r - x) % 0x1_0000_0000 == 0
    ensures -MaxInt32 - 1 <= x <= MaxInt32 ==> r == x
  {
    (x + 0x8000_0000) % 0x1_0000_0000 - 0x8000_0000
  }

  // ---------------------------------------------------------------------
  // Key order

  /** Strict lexicographic order on strings. */
  predicate Below(a: string, b: string)
  {
    if a == [] then b != []
    else b != [] && (a[0] < b[0] || (a[0] == b[0] && Below(a[1..], b[1..])))
  }

  lemma {:induction false} BelowIrreflexive(a: string)
    ensures !Below(a, a)
  {
    if a != [] {
      BelowIrreflexive(a[1..]);
    }
  }

  lemma {:induction false} BelowAsymmetric(a: string, b: string)
    ensures !(Below(a, b) && Below(b, a))
  {
    if a != [] && b != [] && a[0] == b[0] {
      BelowAsymmetric(a[1..], b[1..]);
    }
  }

  lemma {:induction false} BelowTransitive(a: string, b: string, c: string)
    requires Below(a, b) && Below(b, c)
    ensures Below(a, c)
  {
    if a != [] && a[0] == b[0] && b[0] == c[0] {
      BelowTransitive(a[1..], b[1..], c[1..]);
    }
  }

  lemma {:induction false} BelowTotal(a: string, b: string)
    ensures a == b || Below(a, b) || Below(b, a)
  {
    if a != [] && b != [] && a[0] == b[0] {
      BelowTotal(a[1..], b[1..]);
      if a[1..] == b[1..] {
        assert a == [a[0]] + a[1..] && b == [b[0]] + b[1..];
      }
    }
  }

  /** m is the least element of s. */
  predicate IsLeast(m: string, s: set<string>)
  {
    m in s && forall y :: y in s ==> y == m || Below(m, y)
  }

  /** Every finite non-empty set of strings has a least element. */
  lemma {:induction false} LeastExists(s: set<string>)
    requires s != {}
    ensures exists m :: IsLeast(m, s)
    decreases |s|
  {
    var x :| x in s;
    if s == {x} {
      assert IsLeast(x, s);
    } else {
      LeastExists(s - {x});
      var m :| IsLeast(m, s - {x});
      LeastWithOneMore(s, x, m);
    }
  }

  /** Adding one element to a set whose least element is known. */
  lemma LeastWithOneMore(s: set<string>, x: string, m: string)
    requires x in s && IsLeast(m, s - {x})
    ensures exists least :: IsLeast(least, s)
  {
    BelowTotal(x, m);
    if Below(x, m) {
      forall y | y in s ensures y == x || Below(x, y) {
        if y != x && y != m {
          BelowTransitive(x, m, y);
        }
      }
      assert IsLeast(x, s);
    } else {
      assert IsLeast(m, s);
    }
  }

  /** The least string of a non-empty set. */
  function Least(s: set<string>): (m: string)
    requires s != {}
    ensures m in s && forall y :: y in s ==> y == m || Below(m, y)
  {
    LeastExists(s);
    BelowAsymmetricAll();
    var m :| IsLeast(m, s);
    m
  }

  lemma BelowAsymmetricAll()
    ensures forall a, b :: !(Below(a, b) && Below(b, a))
  {
    forall a, b ensures !(Below(a, b) && Below(b, a)) {
      BelowAsymmetric(a, b);
    }
  }

  /** The elements of a finite set of strings in ascending order: the order in which
    * the model visits the keys of a map that Go would range over in random order. */
  function SortedKeys(s: set<string>): (r: seq<string>)
    ensures |r| == |s|
    ensures forall x :: x in r <==> x in s
    decreases |s|
  {
    if s == {} then []
    else
      var m := Least(s);
      [m] + SortedKeys(s - {m})
  }

  /** Each key appears once in the visiting order. */
  lemma {:induction false} SortedKeysDistinct(s: set<string>, i: nat, j: nat)
    requires i < j < |SortedKeys(s)|
    ensures SortedKeys(s)[i] != SortedKeys(s)[j]
    decreases |s|
  {
    var m := Least(s);
    if i > 0 {
      SortedKeysDistinct(s - {m}, i - 1, j - 1);
    } else {
      assert SortedKeys(s)[j] in SortedKeys(s - {m});
    }
  }
}
