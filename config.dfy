/**
 * The backend's configuration: the settings read from environment variables
 * with their defaults, the validation run on them at start-up, and the small
 * string helpers the loader uses to read comma-separated lists. The process
 * environment is a map parameter; a missing variable reads as "".
 */
module Config {
  import opened Wrappers
  import opened Text

  datatype TlsConfig = TlsConfig(enabled: bool, certFile: string, keyFile: string)

  datatype ServerConfig = ServerConfig(
    host: string, port: int, readTimeout: int, writeTimeout: int, tls: TlsConfig)

  datatype AppConfig = AppConfig(
    name: string, version: string, environment: string, debug: bool, maxFileSize: int)

  datatype LoggingConfig = LoggingConfig(level: string, format: string, outputPath: string)

  datatype CorsConfig = CorsConfig(
    allowedOrigins: seq<string>, allowedMethods: seq<string>, allowedHeaders: seq<string>,
    exposedHeaders: seq<string>, allowCredentials: bool, maxAge: int)

  datatype Config = Config(
    server: ServerConfig, app: AppConfig, logging: LoggingConfig, cors: CorsConfig)

  // ---------------------------------------------------------------------
  // Validation

  /** The reasons `validateConfig` gives, one per check. */
  datatype ConfigError =
    | InvalidPort(port: int)
    | InvalidEnvironment(environment: string)
    | InvalidLogLevel(level: string)
    | InvalidLogFormat(format: string)
    | InvalidMaxFileSize(size: int)
    | MissingCertFile
    | MissingKeyFile

  function Message(e: ConfigError): string
  {
    match e
    case InvalidPort(p) => "invalid server port: " + Itoa(p)
    case InvalidEnvironment(env) => "invalid environment: " + env
    case InvalidLogLevel(level) => "invalid log level: " + level
    case InvalidLogFormat(format) => "invalid log format: " + format
    case InvalidMaxFileSize(size) => "invalid max file size: " + Itoa(size)
    case MissingCertFile => "TLS cert file is required when TLS is enabled"
    case MissingKeyFile => "TLS key file is required when TLS is enabled"
  }

  const Environments: seq<string> := ["development", "staging", "production"]
  const LogLevels: seq<string> := ["debug", "info", "warn", "error"]

  // The seven checks, each on its own.
  predicate PortOk(c: Config) { 1 <= c.server.port <= 65535 }
  predicate EnvironmentOk(c: Config) { c.app.environment in Environments }
  predicate LevelOk(c: Config) { c.logging.level in LogLevels }
  predicate FormatOk(c: Config) { c.logging.format == "json" || c.logging.format == "text" }
  predicate SizeOk(c: Config) { c.app.maxFileSize > 0 }
  predicate CertOk(c: Config) { !c.server.tls.enabled || c.server.tls.certFile != "" }
  predicate KeyOk(c: Config) { !c.server.tls.enabled || c.server.tls.keyFile != "" }

  /** A configuration the server accepts: every check passes. */
  predicate Valid(c: Config)
  {
    PortOk(c) && EnvironmentOk(c) && LevelOk(c) && FormatOk(c) && SizeOk(c) && CertOk(c) && KeyOk(c)
  }

  /** The error `validateConfig` reports: that of the first check, in source order, that fails. */
  function FirstFailure(c: Config): (r: Option<ConfigError>)
    ensures r.None? <==> Valid(c)
    ensures r == Some(InvalidPort(c.server.port)) <==> !PortOk(c)
    ensures r == Some(InvalidEnvironment(c.app.environment)) <==> PortOk(c) && !EnvironmentOk(c)
    ensures r == Some(InvalidLogLevel(c.logging.level)) <==>
      PortOk(c) && EnvironmentOk(c) && !LevelOk(c)
    ensures r == Some(InvalidLogFormat(c.logging.format)) <==>
      PortOk(c) && EnvironmentOk(c) && LevelOk(c) && !FormatOk(c)
    ensures r == Some(InvalidMaxFileSize(c.app.maxFileSize)) <==>
      PortOk(c) && EnvironmentOk(c) && LevelOk(c) && FormatOk(c) && !SizeOk(c)
    ensures r == Some(MissingCertFile) <==>
      PortOk(c) && EnvironmentOk(c) && LevelOk(c) && FormatOk(c) && SizeOk(c) && !CertOk(c)
    ensures r == Some(MissingKeyFile) <==>
      PortOk(c) && EnvironmentOk(c) && LevelOk(c) && FormatOk(c) && SizeOk(c) && CertOk(c) && !KeyOk(c)
  {
    if !PortOk(c) then Some(InvalidPort(c.server.port))
    else if !EnvironmentOk(c) then Some(InvalidEnvironment(c.app.environment))
    else if !LevelOk(c) then Some(InvalidLogLevel(c.logging.level))
    else if !FormatOk(c) then Some(InvalidLogFormat(c.logging.format))
    else if !SizeOk(c) then Some(InvalidMaxFileSize(c.app.maxFileSize))
    else if !CertOk(c) then Some(MissingCertFile)
    else if !KeyOk(c) then Some(MissingKeyFile)
    else None
  }

  /** `validateConfig`, with its two membership loops. */
  method ValidateConfig(config: Config) returns (err: Option<ConfigError>)
    ensures err == FirstFailure(config)
  {
    if config.server.port < 1 || config.server.port > 65535 {
      return Some(InvalidPort(config.server.port));
    }
    var validEnv := IsOneOf(config.app.environment, Environments);
    if !validEnv {
      return Some(InvalidEnvironment(config.app.environment));
    }
    var validLevel := IsOneOf(config.logging.level, LogLevels);
    if !validLevel {
      return Some(InvalidLogLevel(config.logging.level));
    }
    if config.logging.format != "json" && config.logging.format != "text" {
      return Some(InvalidLogFormat(config.logging.format));
    }
    if config.app.maxFileSize <= 0 {
      return Some(InvalidMaxFileSize(config.app.maxFileSize));
    }
    if config.server.tls.enabled {
      if config.server.tls.certFile == "" {
        return Some(MissingCertFile);
      }
      if config.server.tls.keyFile == "" {
        return Some(MissingKeyFile);
      }
    }
    return None;
  }

  // ---------------------------------------------------------------------
  // Trimming ASCII white space

  /** The four bytes `trimSpace` removes. */
  predicate IsBlank(c: char)
  {
    c == ' ' || c == '\t' || c == '\n' || c == '\r'
  }

  /** Where the loop skipping leading blanks stops when it begins at `start`. */
  function SkipLeading(s: string, start: nat): (r: nat)
    requires start <= |s|
    ensures start <= r <= |s|
    ensures r < |s| ==> !IsBlank(s[r])
    decreases |s| - start
  {
    if start < |s| && IsBlank(s[start]) then SkipLeading(s, start + 1) else start
  }

  /** Where the loop skipping trailing blanks stops, moving `end` down towards `start`. */
  function SkipTrailing(s: string, start: nat, end: nat): (r: nat)
    requires start <= end <= |s|
    ensures start <= r <= end
    ensures r > start ==> !IsBlank(s[r - 1])
    decreases end
  {
    if end > start && IsBlank(s[end - 1]) then SkipTrailing(s, start, end - 1) else end
  }

  /** `s` without blanks at either end. */
  function Stripped(s: string): string
  {
    var start := SkipLeading(s, 0);
    s[start..SkipTrailing(s, start, |s|)]
  }

  /** Only blanks are skipped at the front. */
  lemma {:induction false} SkipLeadingBlanks(s: string, start: nat)
    requires start <= |s|
    ensures forall i :: start <= i < SkipLeading(s, start) ==> IsBlank(s[i])
    decreases |s| - start
  {
    if start < |s| && IsBlank(s[start]) {
      SkipLeadingBlanks(s, start + 1);
    }
  }

  /** Only blanks are skipped at the back. */
  lemma {:induction false} SkipTrailingBlanks(s: string, start: nat, end: nat)
    requires start <= end <= |s|
    ensures forall i :: SkipTrailing(s, start, end) <= i < end ==> IsBlank(s[i])
    decreases end
  {
    if end > start && IsBlank(s[end - 1]) {
      SkipTrailingBlanks(s, start, end - 1);
    }
  }

  /** The result of `trimSpace` is the slice of its input between the leading
    * and the trailing blanks, and it starts and ends with a non-blank. */
  lemma StrippedSlice(s: string)
    ensures var start := SkipLeading(s, 0);
      var end := SkipTrailing(s, start, |s|);
      Stripped(s) == s[start..end]
      && (forall i :: 0 <= i < start ==> IsBlank(s[i]))
      && (forall i :: end <= i < |s| ==> IsBlank(s[i]))
      && (start < end ==> !IsBlank(s[start]) && !IsBlank(s[end - 1]))
  {
    SkipLeadingBlanks(s, 0);
    SkipTrailingBlanks(s, SkipLeading(s, 0), |s|);
  }

  /** Trimming twice is trimming once. */
  lemma StrippedIdempotent(s: string)
    ensures Stripped(Stripped(s)) == Stripped(s)
  {
    var r := Stripped(s);
    StrippedSlice(s);
    if r != [] {
      assert SkipLeading(r, 0) == 0;
      assert SkipTrailing(r, 0, |r|) == |r|;
      assert r[0..|r|] == r;
    }
  }

  /** `trimSpace`: two loops move `start` and `end` inwards past blanks. */
  method TrimSpace(s: string) returns (r: string)
    ensures r == Stripped(s)
  {
    var start := 0;
    var end := |s|;
    while start < end && IsBlank(s[start])
      invariant 0 <= start <= end == |s|
      invariant SkipLeading(s, start) == SkipLeading(s, 0)
    {
      start := start + 1;
    }
    while end > start && IsBlank(s[end - 1])
      invariant start <= end <= |s|
      invariant SkipTrailing(s, start, end) == SkipTrailing(s, start, |s|)
    {
      end := end - 1;
    }
    r := s[start..end];
  }

  // ---------------------------------------------------------------------
  // Splitting on a one-character separator

  /** The pieces of `s` between occurrences of `c`, built left to right. */
  function SplitAt(s: string, c: char): (pieces: seq<string>)
    ensures |pieces| >= 1
    decreases |s|
  {
    if s == [] then [""]
    else
      var init := SplitAt(s[..|s| - 1], c);
      if s[|s| - 1] == c then init + [""]
      else init[..|init| - 1] + [init[|init| - 1] + [s[|s| - 1]]]
  }

  /** The pieces the loop of `splitString` has built after reading `t`; the last
    * one is still open. A separator longer or shorter than one character never
    * equals a single character, so it never splits. */
  function Progress(t: string, sep: string): (pieces: seq<string>)
    ensures |pieces| >= 1
  {
    if |sep| == 1 then SplitAt(t, sep[0]) else [t]
  }

  /** What `splitString` is meant to return: no pieces for "", otherwise every
    * piece, the last one included. */
  function Pieces(s: string, sep: string): seq<string>
  {
    if s == "" then [] else Progress(s, sep)
  }

  /** How one more character extends the pieces. */
  lemma ProgressStep(t: string, ch: char, sep: string)
    ensures var p := Progress(t, sep);
      Progress(t + [ch], sep) ==
        if [ch] == sep then p + [""] else p[..|p| - 1] + [p[|p| - 1] + [ch]]
  {
    if |sep| == 1 {
      SplitAtSnoc(t, ch, sep[0]);
      assert [ch] == sep <==> ch == sep[0];
    }
  }

  /** One turn of the loop of `splitString`: a separator closes the open piece,
    * any other character extends it. */
  lemma LoopStep(s: string, k: nat, sep: string, result: seq<string>, current: string)
    requires k < |s| && result + [current] == Progress(s[..k], sep)
    ensures [s[k]] == sep ==> result + [current] + [""] == Progress(s[..k + 1], sep)
    ensures [s[k]] != sep ==> result + [current + [s[k]]] == Progress(s[..k + 1], sep)
  {
    assert s[..k + 1] == s[..k] + [s[k]];
    ProgressStep(s[..k], s[k], sep);
    assert (result + [current])[..|result|] == result;
  }

  /** `splitString` as written: the loop closes the last piece only when the
    * byte index of the last character is `len(s)-1`, that is, when the last
    * character is encoded in one byte. */
  function SplitStringAsWritten(s: string, sep: string): seq<string>
  {
    if s == "" then []
    else if RuneLength(s[|s| - 1]) == 1 then Pieces(s, sep)
    else var p := Progress(s, sep); p[..|p| - 1]
  }

  /** The byte index of character `k` of `s`: the UTF-8 length of the characters before it. */
  function ByteOffset(s: string, k: nat): nat
    requires k <= |s|
  {
    if k == 0 then 0 else ByteOffset(s, k - 1) + RuneLength(s[k - 1])
  }

  /** The byte index advances by the length of the character just read. */
  lemma ByteIndexStep(s: string, k: nat)
    requires k < |s|
    ensures ByteLength(s[..k + 1]) == ByteLength(s[..k]) + RuneLength(s[k])
  {
    assert s[..k + 1] == s[..k] + [s[k]];
    ByteLengthAppend(s[..k], [s[k]]);
    assert [s[k]][1..] == [];
  }

  /** The byte index of character `k` is the byte length of the prefix before it. */
  lemma {:induction false} ByteOffsetLength(s: string, k: nat)
    requires k <= |s|
    ensures ByteOffset(s, k) == ByteLength(s[..k])
  {
    if k > 0 {
      ByteOffsetLength(s, k - 1);
      ByteIndexStep(s, k - 1);
    }
  }

  /** Every character takes at least one byte. */
  lemma {:induction false} ByteOffsetGrows(s: string, j: nat, k: nat)
    requires j <= k <= |s|
    ensures ByteOffset(s, k) >= ByteOffset(s, j) + (k - j)
    decreases k
  {
    if j < k {
      ByteOffsetGrows(s, j, k - 1);
    }
  }

  /** The byte index of character `k` is `len(s)-1` exactly when `k` is the
    * last character and it is one byte long. */
  lemma LastByteIndex(s: string, k: nat)
    requires k < |s|
    ensures ByteOffset(s, k) == ByteOffset(s, |s|) - 1 <==> k == |s| - 1 && RuneLength(s[k]) == 1
  {
    ByteOffsetGrows(s, k + 1, |s|);
  }

  /** The state of the loop of `splitString` after `k` characters: the last
    * piece is still open, unless the final one-byte character has closed it. */
  ghost predicate Scanned(s: string, sep: string, k: nat, result: seq<string>, current: string)
    requires 0 < k <= |s|
  {
    if k == |s| && RuneLength(s[k - 1]) == 1 then result == Progress(s, sep)
    else result + [current] == Progress(s[..k], sep)
  }

  /** One turn of the loop, including the test on the byte index. */
  lemma ScanTurn(s: string, sep: string, k: nat, result: seq<string>, current: string)
    requires k < |s| && result + [current] == Progress(s[..k], sep)
    ensures var next := if [s[k]] == sep then result + [current] else result;
      var open := if [s[k]] == sep then "" else current + [s[k]];
      var closes := ByteOffset(s, k) == ByteOffset(s, |s|) - 1;
      Scanned(s, sep, k + 1, if closes then next + [open] else next, open)
  {
    LoopStep(s, k, sep, result, current);
    LastByteIndex(s, k);
    if k + 1 == |s| {
      assert s[..k + 1] == s;
    }
  }

  /** `splitString` as written, ranging over the characters with their byte index. */
  method SplitString(s: string, sep: string) returns (result: seq<string>)
    ensures result == SplitStringAsWritten(s, sep)
  {
    if s == "" {
      return [];
    }
    result := [];
    var current := "";
    var n := ByteLength(s);
    assert n == ByteOffset(s, |s|) by {
      assert s[..|s|] == s;
      ByteOffsetLength(s, |s|);
    }
    var i := 0;
    for k := 0 to |s|
      invariant i == ByteOffset(s, k)
      invariant k == 0 ==> result == [] && current == ""
      invariant k > 0 ==> Scanned(s, sep, k, result, current)
    {
      var ch := s[k];
      assert result + [current] == Progress(s[..k], sep) by {
        if k == 0 {
          assert s[..0] == "";
        }
      }
      ScanTurn(s, sep, k, result, current);
      if [ch] == sep {
        result := result + [current];
        current := "";
      } else {
        current := current + [ch];
      }
      if i == n - 1 {
        result := result + [current];
      }
      i := i + RuneLength(ch);
    }
    if RuneLength(s[|s| - 1]) != 1 {
      assert s[..|s|] == s;
      assert (result + [current])[..|result|] == result;
    }
  }

  /** How one more character extends the pieces of `SplitAt`. */
  lemma SplitAtSnoc(t: string, ch: char, c: char)
    ensures var p := SplitAt(t, c);
      SplitAt(t + [ch], c) == if ch == c then p + [""] else p[..|p| - 1] + [p[|p| - 1] + [ch]]
  {
    assert (t + [ch])[..|t|] == t;
  }

  /** Example: cutting "a,é" at commas gives both items. */
  lemma SplitAtExample()
    ensures SplitAt("a,é", ',') == ["a", "é"]
  {
    assert SplitAt("a", ',') == ["a"] by {
      SplitAtSnoc("", 'a', ',');
      assert "" + ['a'] == "a";
    }
    assert SplitAt("a,", ',') == ["a", ""] by {
      SplitAtSnoc("a", ',', ',');
      assert "a" + [','] == "a,";
    }
    SplitAtSnoc("a,", 'é', ',');
    assert "a," + ['é'] == "a,é";
    assert "" + ['é'] == "é";
  }

  /** Example (the counterexample): a list ending in a multi-byte character loses its
    * last item. */
  lemma SplitStringDropsLastPiece()
    ensures SplitStringAsWritten("a,é", ",") == ["a"]
    ensures Pieces("a,é", ",") == ["a", "é"]
  {
    SplitAtExample();
    assert RuneLength("a,é"[2]) == 2;
    assert ["a", "é"][..1] == ["a"];
  }

  /** `splitString` with the last piece always closed after the loop. */
  method SplitStringCorrected(s: string, sep: string) returns (result: seq<string>)
    ensures result == Pieces(s, sep)
  {
    if s == "" {
      return [];
    }
    result := [];
    var current := "";
    for k := 0 to |s|
      invariant result + [current] == Progress(s[..k], sep)
    {
      var ch := s[k];
      LoopStep(s, k, sep, result, current);
      if [ch] == sep {
        result := result + [current];
        current := "";
      } else {
        current := current + [ch];
      }
    }
    assert s[..|s|] == s;
    result := result + [current];
  }

  /** Joining the pieces with the separator gives back the input. */
  lemma {:induction false} SplitAtJoin(s: string, c: char)
    ensures Join(SplitAt(s, c), [c]) == s
    decreases |s|
  {
    if s != [] {
      var t := s[..|s| - 1];
      var ch := s[|s| - 1];
      var init := SplitAt(t, c);
      SplitAtJoin(t, c);
      assert s == t + [ch];
      SplitAtSnoc(t, ch, c);
      if ch == c {
        JoinSnoc(init, "", [c]);
        assert t + [c] + "" == t + [c];
      } else {
        var front := init[..|init| - 1];
        var last := init[|init| - 1];
        assert init == front + [last];
        JoinSnoc(front, last, [c]);
        JoinSnoc(front, last + [ch], [c]);
        if front != [] {
          Assoc(Join(front, [c]) + [c], last, [ch]);
        }
      }
    }
  }

  /** No piece contains the separator. */
  lemma {:induction false} SplitAtFree(s: string, c: char)
    ensures forall p :: p in SplitAt(s, c) ==> c !in p
    decreases |s|
  {
    if s != [] {
      var init := SplitAt(s[..|s| - 1], c);
      SplitAtFree(s[..|s| - 1], c);
      if s[|s| - 1] != c {
        assert c !in init[|init| - 1];
        forall p | p in SplitAt(s, c)
          ensures c !in p
        {
          if p !in init[..|init| - 1] {
            assert p == init[|init| - 1] + [s[|s| - 1]];
          }
        }
      }
    }
  }

  /** The intended split of a non-empty string on a one-character separator:
    * its pieces join back to the string and none contains the separator. */
  lemma PiecesJoin(s: string, sep: string)
    requires s != "" && |sep| == 1
    ensures Join(Pieces(s, sep), sep) == s
    ensures forall p :: p in Pieces(s, sep) ==> sep[0] !in p
  {
    assert sep == [sep[0]];
    SplitAtJoin(s, sep[0]);
    SplitAtFree(s, sep[0]);
  }

  // ---------------------------------------------------------------------
  // splitAndTrim

  /** A piece as `splitAndTrim` keeps it: trimmed, and dropped when blank. */
  function TrimmedPiece(p: string): seq<string>
  {
    if Stripped(p) == "" then [] else [Stripped(p)]
  }

  /** The items of a comma-separated list, over `splitString` as written. */
  function SplitTrimmed(s: string, sep: string): seq<string>
  {
    FlatMap(SplitStringAsWritten(s, sep), TrimmedPiece)
  }

  /** The pieces `splitString` returns are the intended ones, except that the
    * last is lost when the last character takes more than one byte. */
  lemma AsWrittenPieces(s: string, sep: string)
    ensures s == "" || RuneLength(s[|s| - 1]) == 1 ==> SplitStringAsWritten(s, sep) == Pieces(s, sep)
    ensures s != "" && RuneLength(s[|s| - 1]) != 1 ==>
      var p := Pieces(s, sep); |p| >= 1 && SplitStringAsWritten(s, sep) == p[..|p| - 1]
    ensures forall x :: x in SplitStringAsWritten(s, sep) ==> x in Pieces(s, sep)
  {
    if s != "" && RuneLength(s[|s| - 1]) != 1 {
      var p := Pieces(s, sep);
      forall x | x in p[..|p| - 1] ensures x in p {
        var j :| 0 <= j < |p| - 1 && p[..|p| - 1][j] == x;
        assert p[j] == x;
      }
    }
  }

  /** `splitAndTrim`: the pieces of `splitString`, trimmed, the blank ones dropped. */
  method SplitAndTrim(s: string, sep: string) returns (result: seq<string>)
    ensures result == SplitTrimmed(s, sep)
  {
    result := [];
    var parts := SplitString(s, sep);
    for i := 0 to |parts|
      invariant result == FlatMap(parts[..i], TrimmedPiece)
    {
      var trimmed := TrimSpace(parts[i]);
      FlatMapSnoc(parts, i, TrimmedPiece);
      if trimmed != "" {
        result := result + [trimmed];
      }
    }
    assert parts[..|parts|] == parts;
  }

  /** What trimming keeps of one piece is non-empty, has no blanks at either
    * end, and holds no character the piece does not hold. */
  lemma TrimmedPieceItem(p: string, x: string)
    requires x in TrimmedPiece(p)
    ensures x != "" && Stripped(x) == x
    ensures forall c :: c in x ==> c in p
  {
    StrippedIdempotent(p);
    StrippedSlice(p);
    var start := SkipLeading(p, 0);
    forall c | c in x
      ensures c in p
    {
      var j :| 0 <= j < |x| && x[j] == c;
      assert x[j] == p[start + j];
    }
  }

  /** Every item is non-empty, has no blanks at either end and, for a
    * one-character separator, holds no separator. */
  lemma SplitTrimmedItems(s: string, sep: string)
    ensures forall x :: x in SplitTrimmed(s, sep) ==>
      x != "" && Stripped(x) == x && (|sep| == 1 ==> sep[0] !in x)
  {
    var pieces := SplitStringAsWritten(s, sep);
    AsWrittenPieces(s, sep);
    if s != "" && |sep| == 1 {
      PiecesJoin(s, sep);
    }
    forall x | x in SplitTrimmed(s, sep)
      ensures x != "" && Stripped(x) == x && (|sep| == 1 ==> sep[0] !in x)
    {
      FlatMapIn(pieces, TrimmedPiece, x);
      var k :| 0 <= k < |pieces| && x in TrimmedPiece(pieces[k]);
      TrimmedPieceItem(pieces[k], x);
      assert pieces[k] in pieces;
    }
  }

  // ---------------------------------------------------------------------
  // Environment variables

  /** `os.Getenv`: an unset variable reads as "". */
  function Getenv(env: map<string, string>, key: string): string
  {
    if key in env then env[key] else ""
  }

  /** The variable's value when it is set and not empty, else the default. */
  function GetEnvString(env: map<string, string>, key: string, defaultValue: string): (r: string)
    ensures key in env && env[key] != "" ==> r == env[key]
    ensures !(key in env && env[key] != "") ==> r == defaultValue
  {
    var value := Getenv(env, key);
    if value != "" then value else defaultValue
  }

  /** The variable parsed by `strconv.Atoi`, or the default when it is unset or does not parse. */
  function GetEnvInt(env: map<string, string>, key: string, defaultValue: int): (r: int)
    ensures key in env && Atoi(env[key]).Some? ==> r == Atoi(env[key]).value
    ensures !(key in env && Atoi(env[key]).Some?) ==> r == defaultValue
  {
    var value := Getenv(env, key);
    if value != "" then
      match Atoi(value)
      case Some(n) => n
      case None => defaultValue
    else defaultValue
  }

  /** The variable parsed as a decimal 64-bit integer, or the default. */
  function GetEnvInt64(env: map<string, string>, key: string, defaultValue: int): (r: int)
    ensures key in env && ParseInt(env[key], MaxInt64).Some? ==> r == ParseInt(env[key], MaxInt64).value
    ensures !(key in env && ParseInt(env[key], MaxInt64).Some?) ==> r == defaultValue
  {
    var value := Getenv(env, key);
    if value != "" then
      match ParseInt(value, MaxInt64)
      case Some(n) => n
      case None => defaultValue
    else defaultValue
  }

  /** The variable parsed by `strconv.ParseBool`, or the default. */
  function GetEnvBool(env: map<string, string>, key: string, defaultValue: bool): (r: bool)
    ensures key in env && ParseBool(env[key]).Some? ==> r == ParseBool(env[key]).value
    ensures !(key in env && ParseBool(env[key]).Some?) ==> r == defaultValue
  {
    var value := Getenv(env, key);
    if value != "" then
      match ParseBool(value)
      case Some(b) => b
      case None => defaultValue
    else defaultValue
  }

  /** The items of the comma-separated variable, or the default when it is unset or empty.
    * A set variable whose items are all blank gives no items, not the default. */
  function GetEnvStringSlice(env: map<string, string>, key: string, defaultValue: seq<string>): (r: seq<string>)
    ensures key in env && env[key] != "" ==> r == SplitTrimmed(env[key], ",")
    ensures !(key in env && env[key] != "") ==> r == defaultValue
  {
    var value := Getenv(env, key);
    if value != "" then SplitTrimmed(value, ",") else defaultValue
  }

  /** Example: a list whose last item ends in a multi-byte character loses that
    * item, as `splitString` drops it. */
  lemma StringSliceDropsLastItem(env: map<string, string>, key: string, defaultValue: seq<string>)
    ensures GetEnvStringSlice(env[key := "a,é"], key, defaultValue) == ["a"]
  {
    SplitStringDropsLastPiece();
    assert Stripped("a") == "a" by {
      assert SkipLeading("a", 0) == 0;
      assert SkipTrailing("a", 0, 1) == 1;
      assert "a"[0..1] == "a";
    }
    assert FlatMap(["a"], TrimmedPiece) == TrimmedPiece("a") + FlatMap([], TrimmedPiece);
  }

  /** Setting a numeric variable to the decimal text of a 64-bit integer yields that integer. */
  lemma EnvIntRoundTrip(env: map<string, string>, key: string, n: int, defaultValue: int)
    requires -MaxInt64 - 1 <= n <= MaxInt64
    ensures GetEnvInt(env[key := Itoa(n)], key, defaultValue) == n
    ensures GetEnvInt64(env[key := Itoa(n)], key, defaultValue) == n
  {
    ParseItoa(n, MaxInt64);
  }

  /** Setting a boolean variable to "true" or "false" yields that boolean. */
  lemma EnvBoolRoundTrip(env: map<string, string>, key: string, b: bool, defaultValue: bool)
    ensures GetEnvBool(env[key := FormatBool(b)], key, defaultValue) == b
  {
    ParseFormatBool(b);
  }

  // ---------------------------------------------------------------------
  // Load

  /** The configuration `Load` builds from the environment, before validation. */
  function Loaded(env: map<string, string>): Config
  {
    Config(
      ServerConfig(
        GetEnvString(env, "SERVER_HOST", "localhost"),
        GetEnvInt(env, "SERVER_PORT", 8080),
        GetEnvInt(env, "SERVER_READ_TIMEOUT", 30),
        GetEnvInt(env, "SERVER_WRITE_TIMEOUT", 30),
        TlsConfig(
          GetEnvBool(env, "TLS_ENABLED", false),
          GetEnvString(env, "TLS_CERT_FILE", ""),
          GetEnvString(env, "TLS_KEY_FILE", ""))),
      AppConfig(
        GetEnvString(env, "APP_NAME", "devops-converter"),
        GetEnvString(env, "APP_VERSION", "1.0.0"),
        GetEnvString(env, "APP_ENV", "development"),
        GetEnvBool(env, "APP_DEBUG", true),
        GetEnvInt64(env, "APP_MAX_FILE_SIZE", 10 * 1024 * 1024)),
      LoggingConfig(
        GetEnvString(env, "LOG_LEVEL", "info"),
        GetEnvString(env, "LOG_FORMAT", "json"),
        GetEnvString(env, "LOG_OUTPUT_PATH", "stdout")),
      CorsConfig(
        GetEnvStringSlice(env, "CORS_ALLOWED_ORIGINS",
          ["http://localhost:3000", "http://localhost:8080", "http://localhost:5173", "http://localhost:5174"]),
        GetEnvStringSlice(env, "CORS_ALLOWED_METHODS", ["GET", "POST", "PUT", "DELETE", "OPTIONS"]),
        GetEnvStringSlice(env, "CORS_ALLOWED_HEADERS",
          ["Content-Type", "Authorization", "X-Requested-With", "Accept", "Origin"]),
        GetEnvStringSlice(env, "CORS_EXPOSED_HEADERS", []),
        GetEnvBool(env, "CORS_ALLOW_CREDENTIALS", true),
        GetEnvInt(env, "CORS_MAX_AGE", 86400)))
  }

  /** `Load`: the configuration read from the environment when it validates,
    * else the first validation error. */
  function Load(env: map<string, string>): (r: Result<Config>)
    ensures r.Ok? <==> Valid(Loaded(env))
    ensures r.Ok? ==> r.value == Loaded(env)
    ensures r.Err? ==> r.error == "invalid configuration: " + Message(FirstFailure(Loaded(env)).value)
  {
    var config := Loaded(env);
    match FirstFailure(config)
    case Some(e) => Err("invalid configuration: " + Message(e))
    case None => Ok(config)
  }

  /** With no variables set, the defaults load and validate. */
  lemma DefaultsLoad()
    ensures Load(map[]).Ok?
    ensures Load(map[]).value.server.port == 8080
    ensures Load(map[]).value.app.environment == "development"
    ensures Load(map[]).value.app.maxFileSize == 10 * 1024 * 1024
    ensures !Load(map[]).value.server.tls.enabled
  {
    var c := Loaded(map[]);
    assert c.app.environment == Environments[0];
    assert c.logging.level == LogLevels[1];
  }
}
