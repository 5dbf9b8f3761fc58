/**
 * The decisions of the conversion endpoints: the request-size ceiling, the
 * converter lookup, the HTTP code chosen from a conversion result, the file
 * type guessed from an uploaded file's name and the options read from the
 * upload form. Request binding, the multipart reader and the converter's own
 * work arrive as parameters.
 */
module Handlers {
  import opened Wrappers
  import opened Text
  import opened Values
  import Registry
  import CV = Converter
  import Kubernetes

  const StatusOk: int := 200
  const StatusBadRequest: int := 400
  const StatusRequestEntityTooLarge: int := 413
  const StatusInternalServerError: int := 500

  /** The largest content, in bytes, either endpoint accepts: 10 MiB. */
  const MaxContentBytes: int := 10 * 1024 * 1024

  /** The JSON body of `/convert`. */
  datatype ConvertRequest = ConvertRequest(
    contentType: string, content: string, options: map<string, Value>, filename: string)

  /** What the upload handler adds to the metadata of its answer. */
  datatype UploadedFile = UploadedFile(filename: string, size: int, fileType: string)

  /** An answer: a refusal with its error label and details, or the converter's
    * result with the code chosen for it. */
  datatype Response =
    | Refusal(code: int, error: string, details: string)
    | Converted(code: int, result: CV.ConversionResult, upload: Option<UploadedFile>)

  /** The conversion a converter performs, as seen by a handler: its result,
    * or the error it returned. */
  type Run = (Registry.Converter, CV.ConversionRequest) -> Result<CV.ConversionResult>

  // ---------------------------------------------------------------------
  // Status codes

  /** `Convert`'s code: 400 only for an unsuccessful result that lists errors. */
  function ConvertStatus(result: CV.ConversionResult): (code: int)
    ensures code == StatusBadRequest <==> !result.success && |result.errors| > 0
    ensures code == StatusOk <==> result.success || |result.errors| == 0
  {
    if !result.success && |result.errors| > 0 then StatusBadRequest else StatusOk
  }

  /** `UploadAndConvert`'s code: 400 for any unsuccessful result. */
  function UploadStatus(result: CV.ConversionResult): (code: int)
    ensures code == StatusBadRequest <==> !result.success
    ensures code == StatusOk <==> result.success
  {
    if !result.success then StatusBadRequest else StatusOk
  }

  /** The two endpoints agree on every result whose success means "no errors". */
  lemma StatusesAgree(result: CV.ConversionResult)
    requires result.success <==> result.errors == []
    ensures ConvertStatus(result) == UploadStatus(result)
  {
  }

  /** Example: they disagree on an unsuccessful result without errors. */
  lemma StatusesDiffer()
    ensures var r := CV.ConversionResult(false, [], [], [], None);
      ConvertStatus(r) == StatusOk && UploadStatus(r) == StatusBadRequest
  {
  }

  /** Every result the compose converter produces is answered alike by both endpoints. */
  lemma ConverterResultsAgree(req: CV.ConversionRequest, decode: CV.Decoder, gens: CV.Generators,
                              marshal: Kubernetes.Object -> string, durationText: int -> string)
    ensures var r := CV.Conversion(req, decode, gens, marshal, durationText);
      ConvertStatus(r) == UploadStatus(r)
  {
    CV.ConversionSpec(req, decode, gens, marshal, durationText);
  }

  // ---------------------------------------------------------------------
  // /convert

  /** How a handler answers what the converter returned: a converter error with
    * 500 "Conversion failed", a result with the code `status` chooses for it. */
  function Answer(outcome: Result<CV.ConversionResult>, status: CV.ConversionResult -> int,
                  upload: Option<UploadedFile>): (r: Response)
    ensures outcome.Err? ==> r == Refusal(StatusInternalServerError, "Conversion failed", outcome.error)
    ensures outcome.Ok? ==> r.Converted? && r.result == outcome.value && r.code == status(outcome.value)
                            && r.upload == upload
  {
    match outcome
    case Err(e) => Refusal(StatusInternalServerError, "Conversion failed", e)
    case Ok(result) => Converted(status(result), result, upload)
  }

  /** The converter's view of a `/convert` request. */
  function Request(req: ConvertRequest): CV.ConversionRequest
  {
    CV.ConversionRequest(req.contentType, req.content, req.options)
  }

  /** `Convert`: refuse an unreadable body (400) and content over the ceiling
    * (413) before any lookup; refuse a type no converter supports (400); answer a
    * converter error with 500; otherwise answer the result with `ConvertStatus`. */
  method Convert(registry: Registry.ConverterRegistry, bound: Result<ConvertRequest>, run: Run)
    returns (r: Response)
    ensures bound.Err? ==> r == Refusal(StatusBadRequest, "Invalid request format", bound.error)
    ensures bound.Ok? && ByteLength(bound.value.content) > MaxContentBytes ==>
      r == Refusal(StatusRequestEntityTooLarge, "File too large", "Maximum file size is 10MB")
    ensures bound.Ok? && ByteLength(bound.value.content) <= MaxContentBytes
            && !registry.Supports(bound.value.contentType) ==>
      r == Refusal(StatusBadRequest, "Unsupported conversion type",
                   Registry.Message(Registry.NoConverterFor(bound.value.contentType)))
    ensures bound.Ok? && ByteLength(bound.value.content) <= MaxContentBytes
            && registry.Supports(bound.value.contentType) ==>
      exists c :: c in registry.converters.Values && bound.value.contentType in c.supportedTypes
        && Answer(run(c, Request(bound.value)), ConvertStatus, None) == r
    ensures r.Refusal? && r.code == StatusInternalServerError ==> r.error == "Conversion failed"
    ensures r.Converted? ==>
      bound.Ok? && ByteLength(bound.value.content) <= MaxContentBytes && r.upload.None?
      && r.code == ConvertStatus(r.result)
      && exists c :: c in registry.converters.Values && bound.value.contentType in c.supportedTypes
                     && run(c, Request(bound.value)) == Ok(r.result)
  {
    if bound.Err? {
      return Refusal(StatusBadRequest, "Invalid request format", bound.error);
    }
    var req := bound.value;
    if ByteLength(req.content) > MaxContentBytes {
      return Refusal(StatusRequestEntityTooLarge, "File too large", "Maximum file size is 10MB");
    }
    var converter := registry.GetConverter(req.contentType);
    if converter.Err? {
      return Refusal(StatusBadRequest, "Unsupported conversion type", converter.error);
    }
    var result := run(converter.value, Request(req));
    if result.Err? {
      return Refusal(StatusInternalServerError, "Conversion failed", result.error);
    }
    r := Converted(ConvertStatus(result.value), result.value, None);
    assert Answer(result, ConvertStatus, None) == r;
  }

  // ---------------------------------------------------------------------
  // File type from a file name

  predicate NamesCompose(lower: string)
  {
    HasSuffix(lower, "docker-compose.yml") || HasSuffix(lower, "docker-compose.yaml")
    || Contains(lower, "compose")
  }

  /** `determineFileType`: "docker-compose" for a compose file name, tested
    * first; "dockerfile" for a name ending in "dockerfile"; "" otherwise, and for
    * the empty name. Letters are compared without regard to case. */
  function DetermineFileType(filename: string): (t: string)
    ensures filename == "" ==> t == ""
    ensures t == "" || t == "docker-compose" || t == "dockerfile"
  {
    if filename == "" then ""
    else
      var lower := ToLower(filename);
      if NamesCompose(lower) then "docker-compose"
      else if HasSuffix(lower, "dockerfile") then "dockerfile"
      else ""
  }

  /** Both suffix tests are special cases of containing "compose". */
  lemma ComposeSuffixesContain(s: string)
    ensures NamesCompose(s) <==> Contains(s, "compose")
  {
    if HasSuffix(s, "docker-compose.yml") {
      var i := |s| - |"docker-compose.yml"| + |"docker-"|;
      assert "docker-compose.yml"[7..14] == "compose";
      assert s[i..i + |"compose"|] == s[|s| - |"docker-compose.yml"|..][7..14];
      OccursContains(s, "compose", i);
    }
    if HasSuffix(s, "docker-compose.yaml") {
      var i := |s| - |"docker-compose.yaml"| + |"docker-"|;
      assert "docker-compose.yaml"[7..14] == "compose";
      assert s[i..i + |"compose"|] == s[|s| - |"docker-compose.yaml"|..][7..14];
      OccursContains(s, "compose", i);
    }
  }

  /** The file type, stated without the redundant suffix tests: a non-empty name
    * is a compose file exactly when, lower-cased, it contains "compose", and a
    * Dockerfile exactly when it does not but ends in "dockerfile". */
  lemma DetermineFileTypeSpec(filename: string)
    ensures DetermineFileType(filename) == "docker-compose" <==>
      filename != "" && Contains(ToLower(filename), "compose")
    ensures DetermineFileType(filename) == "dockerfile" <==>
      filename != "" && !Contains(ToLower(filename), "compose") && HasSuffix(ToLower(filename), "dockerfile")
    ensures DetermineFileType(filename) == "" <==>
      filename == "" || (!Contains(ToLower(filename), "compose") && !HasSuffix(ToLower(filename), "dockerfile"))
  {
    ComposeSuffixesContain(ToLower(filename));
  }

  lemma LowerCharIdempotent(c: char)
    ensures LowerChar(LowerChar(c)) == LowerChar(c)
  {
  }

  /** Lower-casing twice is lower-casing once. */
  lemma ToLowerIdempotent(s: string)
    ensures ToLower(ToLower(s)) == ToLower(s)
  {
    forall i | 0 <= i < |s|
      ensures ToLower(ToLower(s))[i] == ToLower(s)[i]
    {
      LowerCharIdempotent(s[i]);
    }
  }

  /** A name and its lower-cased form get the same file type. */
  lemma DetermineFileTypeIgnoresCase(filename: string)
    ensures DetermineFileType(ToLower(filename)) == DetermineFileType(filename)
  {
    ToLowerIdempotent(filename);
  }

  // ---------------------------------------------------------------------
  // Upload options

  /** Gin `PostForm`: a missing field reads as "". */
  function FormValue(form: map<string, string>, key: string): (v: string)
    ensures key !in form ==> v == ""
    ensures key in form ==> v == form[key]
  {
    if key in form then form[key] else ""
  }

  /** The string options of the upload form: kept when non-empty. */
  function TextOptions(form: map<string, string>): (o: map<string, Value>)
    ensures "namespace" in o <==> FormValue(form, "namespace") != ""
    ensures "serviceType" in o <==> FormValue(form, "serviceType") != ""
    ensures forall k :: k in o ==> (k == "namespace" || k == "serviceType") && o[k] == Str(FormValue(form, k))
  {
    var namespace := FormValue(form, "namespace");
    var serviceType := FormValue(form, "serviceType");
    var o: map<string, Value> := map[];
    var o := if namespace != "" then o["namespace" := Str(namespace)] else o;
    if serviceType != "" then o["serviceType" := Str(serviceType)] else o
  }

  /** The options `UploadAndConvert` builds from its form, as written: replicas is
    * stored as a Go `int` when the field parses as one. */
  function UploadOptions(form: map<string, string>): (o: map<string, Value>)
    ensures "replicas" in o <==> Atoi(FormValue(form, "replicas")).Some?
    ensures "replicas" in o ==> o["replicas"] == Int(Atoi(FormValue(form, "replicas")).value)
    ensures forall k :: k in o && k != "replicas" ==> k in TextOptions(form) && o[k] == TextOptions(form)[k]
  {
    var replicas := FormValue(form, "replicas");
    var o := TextOptions(form);
    if replicas != "" && Atoi(replicas).Some? then o["replicas" := Int(Atoi(replicas).value)] else o
  }

  /** The generator reads replicas only from a float, so the replicas given to the
    * upload form never reach it; namespace and service type do. */
  lemma UploadReplicasIgnored(form: map<string, string>)
    ensures CV.OptionsFrom(UploadOptions(form)).replicas == Kubernetes.DefaultGeneratorOptions().replicas
    ensures FormValue(form, "namespace") != "" ==>
      CV.OptionsFrom(UploadOptions(form)).namespace == FormValue(form, "namespace")
  {
  }

  /** The same form with replicas stored as a number the generator reads: what a
    * JSON body's number would have decoded to. */
  function UploadOptionsCorrected(form: map<string, string>): (o: map<string, Value>)
    ensures "replicas" in o <==> Atoi(FormValue(form, "replicas")).Some?
    ensures forall k :: k in o && k != "replicas" ==> k in TextOptions(form) && o[k] == TextOptions(form)[k]
  {
    var replicas := FormValue(form, "replicas");
    var o := TextOptions(form);
    if replicas != "" && Atoi(replicas).Some? then
      var r := Atoi(replicas).value;
      o["replicas" := Float(r as real, Itoa(r))]
    else o
  }

  /** With the correction, a replicas count that parses reaches the generator
    * (wrapped to 32 bits, as the generator's own conversion does). */
  lemma UploadReplicasApplied(form: map<string, string>)
    ensures Atoi(FormValue(form, "replicas")).Some? ==>
      CV.OptionsFrom(UploadOptionsCorrected(form)).replicas == Wrap32(Atoi(FormValue(form, "replicas")).value)
    ensures Atoi(FormValue(form, "replicas")).None? ==>
      CV.OptionsFrom(UploadOptionsCorrected(form)).replicas == Kubernetes.DefaultGeneratorOptions().replicas
  {
    var replicas := FormValue(form, "replicas");
    if Atoi(replicas).Some? {
      var r := Atoi(replicas).value;
      assert Truncate(r as real) == r;
    }
  }

  // ---------------------------------------------------------------------
  // /upload

  /** What opening and reading the uploaded file gave. */
  datatype ReadOutcome = OpenFailed(openError: string) | ReadFailed(readError: string) | Read(content: string)

  /** The multipart header of the uploaded file. */
  datatype Upload = Upload(filename: string, size: int)

  /** The type field of the form, or the type guessed from the file name. */
  function UploadType(form: map<string, string>, filename: string): (t: string)
    ensures FormValue(form, "type") != "" ==> t == FormValue(form, "type")
    ensures FormValue(form, "type") == "" ==> t == DetermineFileType(filename)
  {
    var fileType := FormValue(form, "type");
    if fileType == "" then DetermineFileType(filename) else fileType
  }

  /** `UploadAndConvert`: refuse a missing file (400) and one over the ceiling
    * (413); answer a failed open or read with 500; refuse when no type is given or
    * guessed (400) or none is supported (400); answer a converter error with 500;
    * otherwise answer the result with `UploadStatus`, recording the file. */
  method UploadAndConvert(registry: Registry.ConverterRegistry, file: Result<Upload>, read: ReadOutcome,
                          form: map<string, string>, run: Run) returns (r: Response)
    ensures file.Err? ==> r == Refusal(StatusBadRequest, "No file uploaded", file.error)
    ensures file.Ok? && file.value.size > MaxContentBytes ==>
      r == Refusal(StatusRequestEntityTooLarge, "File too large", "Maximum file size is 10MB")
    ensures file.Ok? && file.value.size <= MaxContentBytes && read.OpenFailed? ==>
      r == Refusal(StatusInternalServerError, "Failed to open uploaded file", read.openError)
    ensures file.Ok? && file.value.size <= MaxContentBytes && read.ReadFailed? ==>
      r == Refusal(StatusInternalServerError, "Failed to read uploaded file", read.readError)
    ensures file.Ok? && file.value.size <= MaxContentBytes && read.Read?
            && UploadType(form, file.value.filename) == "" ==>
      r == Refusal(StatusBadRequest, "Could not determine file type", "Please specify the file type")
    ensures file.Ok? && file.value.size <= MaxContentBytes && read.Read?
            && UploadType(form, file.value.filename) != ""
            && !registry.Supports(UploadType(form, file.value.filename)) ==>
      r == Refusal(StatusBadRequest, "Unsupported file type",
                   Registry.Message(Registry.NoConverterFor(UploadType(form, file.value.filename))))
    ensures file.Ok? && file.value.size <= MaxContentBytes && read.Read?
            && UploadType(form, file.value.filename) != ""
            && registry.Supports(UploadType(form, file.value.filename)) ==>
      var fileType := UploadType(form, file.value.filename);
      exists c :: c in registry.converters.Values && fileType in c.supportedTypes
        && Answer(run(c, CV.ConversionRequest(fileType, read.content, UploadOptions(form))), UploadStatus,
                  Some(UploadedFile(file.value.filename, file.value.size, fileType))) == r
    ensures r.Refusal? && r.code == StatusInternalServerError ==> r.error != "File too large"
    ensures r.Converted? ==>
      file.Ok? && file.value.size <= MaxContentBytes && read.Read?
      && r.code == UploadStatus(r.result)
      && var fileType := UploadType(form, file.value.filename);
      r.upload == Some(UploadedFile(file.value.filename, file.value.size, fileType))
      && exists c :: c in registry.converters.Values && fileType in c.supportedTypes
                     && run(c, CV.ConversionRequest(fileType, read.content, UploadOptions(form))) == Ok(r.result)
  {
    if file.Err? {
      return Refusal(StatusBadRequest, "No file uploaded", file.error);
    }
    var header := file.value;
    if header.size > MaxContentBytes {
      return Refusal(StatusRequestEntityTooLarge, "File too large", "Maximum file size is 10MB");
    }
    if read.OpenFailed? {
      return Refusal(StatusInternalServerError, "Failed to open uploaded file", read.openError);
    }
    if read.ReadFailed? {
      return Refusal(StatusInternalServerError, "Failed to read uploaded file", read.readError);
    }
    var fileType := FormValue(form, "type");
    if fileType == "" {
      fileType := DetermineFileType(header.filename);
    }
    if fileType == "" {
      return Refusal(StatusBadRequest, "Could not determine file type", "Please specify the file type");
    }
    var options := UploadOptions(form);
    var converter := registry.GetConverter(fileType);
    if converter.Err? {
      return Refusal(StatusBadRequest, "Unsupported file type", converter.error);
    }
    var result := run(converter.value, CV.ConversionRequest(fileType, read.content, options));
    if result.Err? {
      return Refusal(StatusInternalServerError, "Conversion failed", result.error);
    }
    var upload := Some(UploadedFile(header.filename, header.size, fileType));
    r := Converted(UploadStatus(result.value), result.value, upload);
    assert Answer(result, UploadStatus, upload) == r;
  }
}
