/**
 * The health endpoints' decisions: the state of the converter registry as a
 * service report, the overall status drawn from all service reports, the
 * HTTP code that status is answered with, and the readiness answer. Clock,
 * memory statistics and the JSON transport are not modelled.
 */
module Health {
  import opened Registry

  const StatusOk: int := 200
  const StatusPartialContent: int := 206
  const StatusServiceUnavailable: int := 503

  /** The one converter the service cannot do without. */
  const RequiredConverter: string := "docker-compose-to-kubernetes"
  const RequiredConverters: seq<string> := [RequiredConverter]

  /** The `details` a converter report carries. */
  datatype Details =
    | NoDetails
    | MissingDetails(missingConverters: seq<string>, availableCount: int)
    | AvailableDetails(availableConverters: int, converterList: seq<ConverterInfo>)

  datatype ServiceInfo = ServiceInfo(status: string, message: string, details: Details)

  // ---------------------------------------------------------------------
  // Overall status

  /** The overall status of a set of service statuses: "error" if any is
    * "error", else "degraded" if any is not "ok", else "ok". */
  function Worst(statuses: seq<string>): string
  {
    if "error" in statuses then "error"
    else if exists s :: s in statuses && s != "ok" then "degraded"
    else "ok"
  }

  /** The overall status depends only on which statuses occur, not on their order
    * or repetition: Go ranges over the service map in no fixed order. */
  lemma WorstOrderFree(a: seq<string>, b: seq<string>)
    requires forall s :: s in a <==> s in b
    ensures Worst(a) == Worst(b)
  {
  }

  /** One more status either keeps the overall status or makes it worse. */
  lemma WorstSnoc(ss: seq<string>, x: string)
    ensures Worst(ss + [x]) ==
      if x == "error" then "error"
      else if x == "ok" then Worst(ss)
      else if Worst(ss) == "error" then "error"
      else "degraded"
  {
    assert x in ss + [x];
    assert forall s :: s in ss + [x] <==> s in ss || s == x;
    if x == "ok" && "error" !in ss && Worst(ss) == "degraded" {
      var s :| s in ss && s != "ok";
      assert s in ss + [x];
    }
  }

  /** The loop of `HealthDetailed` over the statuses in the order Go visits
    * them: any status other than "ok" degrades, and "error" stops the scan. */
  method OverallStatus(statuses: seq<string>) returns (overall: string)
    ensures overall == Worst(statuses)
  {
    overall := "ok";
    var i := 0;
    while i < |statuses|
      invariant 0 <= i <= |statuses|
      invariant "error" !in statuses[..i]
      invariant overall == Worst(statuses[..i])
    {
      assert statuses[..i + 1] == statuses[..i] + [statuses[i]];
      WorstSnoc(statuses[..i], statuses[i]);
      if statuses[i] != "ok" {
        overall := "degraded";
        if statuses[i] == "error" {
          overall := "error";
          assert statuses[i] in statuses;
          return;
        }
      }
      i := i + 1;
    }
    assert statuses[..i] == statuses;
  }

  /** The HTTP code answered for an overall status. */
  function StatusCode(overall: string): (code: int)
    ensures overall == "error" ==> code == StatusServiceUnavailable
    ensures overall == "degraded" ==> code == StatusPartialContent
    ensures overall != "error" && overall != "degraded" ==> code == StatusOk
  {
    if overall == "error" then StatusServiceUnavailable
    else if overall == "degraded" then StatusPartialContent
    else StatusOk
  }

  // ---------------------------------------------------------------------
  // The converter report

  /** Whether some listed converter carries `name`. */
  predicate Listed(converters: seq<ConverterInfo>, name: string)
  {
    exists i :: 0 <= i < |converters| && converters[i].name == name
  }

  /** The required names no listed converter carries, in the order required. */
  function MissingNames(required: seq<string>, converters: seq<ConverterInfo>): (r: seq<string>)
    ensures forall n :: n in r <==> n in required && !Listed(converters, n)
  {
    if required == [] then []
    else
      (if Listed(converters, required[0]) then [] else [required[0]])
        + MissingNames(required[1..], converters)
  }

  /** `checkConverters`: "error" when no converter is registered, "degraded"
    * listing the missing names when the required converter is absent, "ok"
    * otherwise. */
  method CheckConverters(converters: seq<ConverterInfo>) returns (info: ServiceInfo)
    ensures info.status == "error" <==> |converters| == 0
    ensures info.status == "degraded" <==> |converters| > 0 && !Listed(converters, RequiredConverter)
    ensures info.status == "ok" <==> |converters| > 0 && Listed(converters, RequiredConverter)
    ensures info.status == "degraded" ==>
      info.details == MissingDetails(MissingNames(RequiredConverters, converters), |converters|)
    ensures info.status == "ok" ==> info.details == AvailableDetails(|converters|, converters)
  {
    if |converters| == 0 {
      return ServiceInfo("error", "No converters available", NoDetails);
    }
    var available: map<string, bool> := map[];
    for i := 0 to |converters|
      invariant forall n :: n in available <==> Listed(converters[..i], n)
      invariant forall n :: n in available ==> available[n]
    {
      available := available[converters[i].name := true];
      assert converters[..i + 1][i] == converters[i];
      forall n | Listed(converters[..i + 1], n)
        ensures n in available
      {
        var j :| 0 <= j < i + 1 && converters[..i + 1][j].name == n;
        if j < i {
          assert converters[..i][j] == converters[..i + 1][j];
        }
      }
      forall n | Listed(converters[..i], n)
        ensures Listed(converters[..i + 1], n)
      {
        var j :| 0 <= j < i && converters[..i][j].name == n;
        assert converters[..i + 1][j] == converters[..i][j];
      }
    }
    assert converters[..|converters|] == converters;
    var missingConverters: seq<string> := [];
    for k := 0 to |RequiredConverters|
      invariant missingConverters == MissingNames(RequiredConverters[..k], converters)
    {
      assert RequiredConverters[..k + 1] == RequiredConverters;
      if !(RequiredConverters[k] in available && available[RequiredConverters[k]]) {
        missingConverters := missingConverters + [RequiredConverters[k]];
      }
    }
    assert RequiredConverters[..1] == RequiredConverters;
    if |missingConverters| > 0 {
      return ServiceInfo("degraded", "Some required converters are missing",
        MissingDetails(missingConverters, |converters|));
    }
    return ServiceInfo("ok", "All converters are available", AvailableDetails(|converters|, converters));
  }

  // ---------------------------------------------------------------------
  // The endpoints

  /** `HealthDetailed`: the overall status over the one service checked (the
    * converters) and the HTTP code it is answered with. */
  method HealthDetailed(registry: ConverterRegistry) returns (overall: string, code: int)
    requires registry.Valid()
    ensures code == StatusServiceUnavailable <==> |registry.converters| == 0
    ensures code == StatusPartialContent <==>
      |registry.converters| > 0 && RequiredConverter !in registry.converters
    ensures code == StatusOk <==> RequiredConverter in registry.converters
    ensures overall == (if |registry.converters| == 0 then "error"
                        else if RequiredConverter !in registry.converters then "degraded"
                        else "ok")
    ensures code == StatusCode(overall)
  {
    var converters := registry.GetAvailableConverters();
    var info := CheckConverters(converters);
    assert Listed(converters, RequiredConverter) <==> RequiredConverter in registry.converters by {
      if RequiredConverter in registry.converters {
        var i :| 0 <= i < |converters| && converters[i].name == RequiredConverter;
      }
    }
    overall := OverallStatus([info.status]);
    assert info.status in [info.status];
    code := StatusCode(overall);
  }

  /** `Ready`: 503 "not ready" exactly when no converter is registered, else 200 "ready". */
  method Ready(registry: ConverterRegistry) returns (code: int, status: string)
    requires registry.Valid()
    ensures code == StatusServiceUnavailable <==> |registry.converters| == 0
    ensures code == StatusOk <==> |registry.converters| > 0
    ensures status == (if code == StatusOk then "ready" else "not ready")
  {
    var converters := registry.GetAvailableConverters();
    if |converters| == 0 {
      return StatusServiceUnavailable, "not ready";
    }
    return StatusOk, "ready";
  }
}
