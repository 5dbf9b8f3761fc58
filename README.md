# devops-converter: a verified model of the compose-to-Kubernetes converter

This project models the core of devops-converter in Dafny. devops-converter is
a web service that turns a docker-compose file into Kubernetes manifests. The
model follows the Go backend and one piece of the Vue front end, file by file:

| module | file | what it models |
|---|---|---|
| `Wrappers` | wrappers.dfy | `Option` and `Result`, the error paths of every operation |
| `Text` | text.dfy | the parts of Go's `strings` and `strconv` the code relies on; the ascending key order used wherever Go ranges over a map |
| `Values` | values.dfy | Go `interface{}` values as the YAML decoder produces them (nil, string, int, int32, int64, float, bool, list, map, `[]string`, `map[string]string`) |
| `Compose` | compose.dfy | the compose document and its normaliser (`backend/converters/docker/parser.go`, `types.go`) |
| `Kubernetes` | kubernetes.dfy | the Kubernetes objects, their `GetName`/`GetKind` accessors and the generator options (`backend/converters/kubernetes/types.go`) |
| `Generator` | generator.dfy | the Deployment generator and its string parsers (`kubernetes/generator.go`) |
| `ServiceGenerator` | services.dfy | the Service, ConfigMap, claim and Ingress generators (`kubernetes/service_generator.go`) |
| `Converter` | converter.dfy | validation, option extraction, per-service conversion, volumes and advisory warnings (`backend/converters/docker_compose_converter.go`) |
| `Validation` | validation.dfy | the field validators and format checks (`backend/utils/validation/validators.go`) |
| `Formatter` | formatter.dfy | merging, splitting and headers of YAML streams, and empty-field pruning (`backend/utils/yaml/formatter.go`) |
| `Config` | config.dfy | the environment-driven configuration, its validation and the hand-written string helpers (`backend/config/config.go`) |
| `Registry` | registry.dfy | the converter registry, a class over a name-to-converter map (`backend/converters/registry.go`) |
| `Middleware` | middleware.dfy | the per-client sliding-window rate limiter, a class over a map of timestamp lists, and the request id (`backend/api/middleware/middleware.go`) |
| `Health` | health.dfy | the overall status, its HTTP code, the converter report and readiness (`backend/api/handlers/health.go`) |
| `Handlers` | handlers.dfy | the decisions of the `/convert` and upload endpoints (`backend/api/handlers/convert.go`) |
| `Notifications` | notifications.dfy | the front end's notification list, a class changed in place (`frontend/src/stores/app.ts`) |

Loops in the source are methods with loop invariants. Each one is proved equal
to a specification function, and the properties the code promises are lemmas
about those functions. State that the source updates in place is a class: the
registry's map, the rate limiter's client map and the store's notification
list. The model follows the code where it departs from comments or tests:

- liveness and readiness probes are one and the same probe;
- the compose normaliser rejects `H:C:tcp` although the generators handle it;
- a single-segment volume such as `/app/node_modules` fails the whole Deployment;
- claim names `<svc>-<vol>` never match the pod volume names `volume-<i>`;
- `isEmpty` treats only the `int` zero as an empty number. An `int32`, `int64` or
  float zero is compared with the untyped constant 0 through an interface, so it
  is never equal to it;
- `splitString` drops the last item of a list whose final character takes more than
  one byte in UTF-8, and the configuration lists read through it lose that item;
- the upload form's replicas reaches the generator as an `int`, which the generator
  does not read, so an upload always gets the default replica count.

The two last points are recorded under Findings, each beside a corrected definition
that is proved to do what was evidently intended.

The YAML library is outside the model. Decoding is the parameter `decode` and
encoding the parameter `marshal`, both uninterpreted functions. Go's `%v` and
`time.Duration.String()` renderings are likewise parameters or precomputed strings.

## Model

| member | source | states |
|---|---|---|
| Compose.SegmentError | backend/converters/docker/parser.go:87-96 | no error is reported exactly when every non-empty segment after the first parses as an integer |
| Compose.PortAccepted | backend/converters/docker/parser.go:80-102 | a port entry is accepted iff it has no ':' and parses as an integer, or it has two or three ':'-separated segments whose non-empty segments after the first are integers |
| Compose.NormalizePorts | backend/converters/docker/parser.go:75-108 | succeeds iff every entry is accepted, then returns the entries unchanged and in order; otherwise reports the error of the first rejected entry |
| Compose.PortThreeSegments | backend/converters/docker/parser.go:80-96 | an entry of three colon-free segments is judged by its segments alone |
| Compose.PortExampleAddress | backend/converters/docker/parser.go:80-96 | "127.0.0.1:8080:80" is accepted: the first segment is never checked |
| Compose.PortExampleEmptyHost | backend/converters/docker/parser.go:88-90 | ":80" is accepted: an empty segment is skipped |
| Compose.PortExampleProtocol | backend/converters/docker/parser.go:91-95 | "8080:80:tcp" is rejected with "invalid port number: tcp", although the generators accept a protocol segment |
| Compose.PortExampleSlash | backend/converters/docker/parser.go:91-95 | "8080:80/tcp" is rejected with "invalid port number: 80/tcp" |
| Compose.EnvAssignLastWins | backend/converters/docker/parser.go:141-149 | assigning list entries front to back leaves each name holding the value of the last entry naming it, and no other names |
| Compose.LastAssignedAt | backend/converters/docker/parser.go:141-149 | the last entry naming a key supplies that key's value |
| Compose.LastAssignedNone | backend/converters/docker/parser.go:141-149 | a name no entry carries keeps what the map held before |
| Compose.FirstNonString | backend/converters/docker/parser.go:127-131 | the position of the first item that is not a string, or none when all are strings |
| Compose.NormalizeEnvironment | backend/converters/docker/parser.go:111-154 | nil gives an empty map; a generic map keeps its keys with each value's %v text; a string map is kept; any other shape is an error |
| Compose.EnvironmentFromList | backend/converters/docker/parser.go:125-150 | each entry's name (before the first '=') is a key holding the value of the last entry with that name, "" for a bare name |
| Compose.EnvironmentOfStrings | backend/converters/docker/parser.go:140-150 | a list of strings is assigned entry by entry, left to right |
| Compose.EnvironmentOnlyNames | backend/converters/docker/parser.go:125-150 | a name no entry carries is not a key of the result |
| Compose.EnvironmentRejectsNonString | backend/converters/docker/parser.go:127-131 | a list holding a non-string item fails with "invalid environment variable format: " and that item's text |
| Compose.FirstBadNetwork | backend/converters/docker/parser.go:179-188 | the first key whose network entry is neither nil nor a map, or none when all are well formed |
| Compose.NetworkConfigOf | backend/converters/docker/parser.go:190-204 | a map entry's config: the string items of an `aliases` list in order, and `ipv4_address` and `ipv6_address` when they are strings, "" otherwise |
| Compose.NormalizeNetworks | backend/converters/docker/parser.go:157-213 | nil gives no networks; `[]interface{}` and `[]string` yield exactly their strings, each with an empty config; a typed map comes back as it is; a generic map keeps its keys, a nil entry gets an empty config and a map entry NetworkConfigOf, or it fails naming a key with a malformed entry; other shapes fail |
| Compose.DependencyConfigOf | backend/converters/docker/parser.go:236-252 | the `condition` of a map entry when it is a string, and "" for anything else |
| Compose.NormalizeDependsOn | backend/converters/docker/parser.go:216-260 | nil gives no dependencies; `[]interface{}` and `[]string` yield exactly their strings with empty conditions; a typed map comes back as it is; a generic map keeps its keys, each with DependencyConfigOf its entry, so a non-map entry silently gets an empty condition; other shapes fail |
| Compose.NormalizeCommand | backend/converters/docker/parser.go:263-285 | a string becomes its words: non-empty runs without white space which, interleaved with white space (at least one character between two words), give back the string; a list keeps its strings in order; any other shape gives nil |
| Compose.NormalizeServiceShape | backend/converters/docker/parser.go:34-68 | a service normalises iff its ports, environment, networks and depends_on do, and the result keeps ports, image and volumes and holds each loose field in typed form |
| Compose.NormalizeServiceIdempotent | backend/converters/docker/parser.go:34-68 | normalising an already normalised service changes nothing |
| Compose.FirstFailure | backend/converters/docker/parser.go:34-69 | the first key, in visiting order, whose service fails to normalise, or none when every service succeeds |
| Compose.UpdatedInOrder | backend/converters/docker/parser.go:34-72 | succeeds iff every entry normalises, with the same keys each holding its normalised value; otherwise the error of some failing entry |
| Compose.UpdateInOrder | backend/converters/docker/parser.go:34-72 | the loop that writes each normalised service back and stops at the first failure computes `UpdatedInOrder` |
| Compose.FailureReported | backend/converters/docker/parser.go:34-72 | when the entries before position i succeed and entry i fails, the reported error is entry i's |
| Compose.UpdatedInOrderOk | backend/converters/docker/parser.go:34-72 | a map holding every entry's normalised value is the successful result |
| Compose.FirstFailurePrefix | backend/converters/docker/parser.go:34-69 | once a prefix of the visiting order contains a failure, the whole scan reports that failure |
| Compose.NormalizedServices | backend/converters/docker/parser.go:33-72 | every service normalised under its own key, or the error of a failing service |
| Compose.NormalizeServices | backend/converters/docker/parser.go:33-72 | the in-place loop over the services computes `NormalizedServices` |
| Compose.Normalized | backend/converters/docker/parser.go:19-29 | succeeds iff every service normalises, and then holds each service's normalised form under its name; the empty version becomes "3.8", any other version is kept, and volumes and service names are kept; a failure is prefixed with "failed to normalize services: " |
| Compose.ParseDockerCompose | backend/converters/docker/parser.go:12-30 | a decoding error is reported with the prefix "failed to parse docker-compose file: "; otherwise the result is `Normalized` of the decoded document |
| Kubernetes.DefaultGeneratorOptions | backend/converters/kubernetes/generator.go:25-34 | namespace "default", no labels or annotations, pull policy IfNotPresent, service type ClusterIP, one replica |
| Kubernetes.MergeLabels | backend/converters/kubernetes/generator.go:498-507 | the keys of both maps, the second map's value winning on a shared key and the first map's value kept otherwise |
| Kubernetes.AppLabels | backend/converters/kubernetes/generator.go:49 | the option labels with "app" set to the service name, and no other key |
| Values.StringItems | backend/converters/kubernetes/generator.go:483-490 | the string items of a list, in order and no more of them than the list holds; exactly the strings of the list occur |
| Values.StringItemsOfStrings | backend/converters/kubernetes/generator.go:483-490 | reading the strings back out of a list of strings gives the original list |
| Generator.ParsePortMapping | backend/converters/kubernetes/generator.go:199-244 | a container port is always a 32-bit value; more than three ':'-separated segments give "invalid port mapping format: " and the mapping |
| Generator.ContainerPortFromParts | backend/converters/kubernetes/generator.go:205-238 | the switch on the segment count yields a 32-bit container port, and the format error beyond three segments |
| Generator.NumberNotProtocol | backend/converters/kubernetes/generator.go:222 | a decimal number never names a protocol, so "IP:H:C" takes C as the container port |
| Generator.PortMappingSingle | backend/converters/kubernetes/generator.go:206-212 | "C" gives container port C (wrapped to 32 bits) over TCP |
| Generator.PortMappingPair | backend/converters/kubernetes/generator.go:213-219 | "H:C" ignores the host part and gives container port C over TCP |
| Generator.PortMappingAddress | backend/converters/kubernetes/generator.go:229-234 | "IP:H:C" with a numeric third segment gives container port C over TCP |
| Generator.PortMappingProtocol | backend/converters/kubernetes/generator.go:222-228 | "H:C:proto", with proto containing tcp or udp, gives container port C and the protocol upper-cased |
| Generator.NormalizedPairAccepted | backend/converters/kubernetes/generator.go:213-219 | a two-segment port the compose normaliser accepts, with a non-empty container segment, is also accepted here |
| Generator.ParseStringsOk | backend/converters/kubernetes/generator.go:181-193 | the port loop succeeds iff every string item parses; non-strings are skipped |
| Generator.ParseStringsValue | backend/converters/kubernetes/generator.go:181-195 | on success the parsed string items follow what was already collected, one per item and in order |
| Generator.ParseStringsError | backend/converters/kubernetes/generator.go:187-190 | a failure names a string item that does not parse, as "invalid port format <item>: <error>" |
| Generator.GenerateContainerPorts | backend/converters/kubernetes/generator.go:173-196 | the loop computes `ContainerPortsFor`: a non-list is "invalid ports format", otherwise one port per string item in order |
| Generator.Shown | backend/converters/kubernetes/generator.go:251-257 | each value of a generic map is rendered with %v, under the same keys |
| Generator.EnvVarsFromListLength | backend/converters/kubernetes/generator.go:265-283 | the list form keeps what was collected and adds exactly one variable per string item |
| Generator.EnvVarsFromListClosed | backend/converters/kubernetes/generator.go:265-283 | the list form is what was already collected followed by one variable per string item, in item order |
| Generator.EnvVarsFromListSpec | backend/converters/kubernetes/generator.go:265-283 | the list form's variable j is the name before the first '=' of string item j and the rest as value, "" for a bare name |
| Generator.EnvVarsFromMapSpec | backend/converters/kubernetes/generator.go:251-264 | the map forms append one variable per key, in the visiting order, each holding its key's value |
| Generator.EnvVarsListForm | backend/converters/kubernetes/generator.go:265-283 | a list environment always succeeds, with duplicates kept and in item order |
| Generator.EnvVarsMapForm | backend/converters/kubernetes/generator.go:258-264 | a string-map environment gives exactly one variable per key, each carrying its value |
| Generator.GenerateEnvVars | backend/converters/kubernetes/generator.go:247-289 | the method computes `EnvVarsFor`: map and list forms succeed, and any other shape is "unsupported environment format" |
| Generator.EnvVarsFromKeys | backend/converters/kubernetes/generator.go:251-264 | the map loop visits the keys in ascending order and appends one variable per key |
| Generator.ParseVolumeMapping | backend/converters/kubernetes/generator.go:325-356 | fails iff the mapping has fewer than two ':'-separated segments; the volume and its mount share the name volume-<index> |
| Generator.VolumeMappingForms | backend/converters/kubernetes/generator.go:332-353 | "host:container" mounts read-write and "host:container:ro" read-only, at the container path, with a host-path volume at the host path |
| Generator.AnonymousVolumeRejected | backend/converters/kubernetes/generator.go:326-330 | an entry without ':' (an anonymous volume such as /app/node_modules) is rejected with "invalid volume mapping format: " and the entry |
| Generator.VolumesFromOk | backend/converters/kubernetes/generator.go:306-319 | the volume loop succeeds iff every string entry parses at its own list position |
| Generator.VolumesFromLength | backend/converters/kubernetes/generator.go:306-321 | on a list of strings, success adds one volume and one mount per entry |
| Generator.VolumesFromAt | backend/converters/kubernetes/generator.go:306-321 | on a list of strings, entry j yields the volume and mount numbered by its position |
| Generator.VolumesForList | backend/converters/kubernetes/generator.go:292-322 | on a list of strings, generateVolumes fails iff some entry lacks a second segment; otherwise entry j becomes volume-<j> with its host path and a mount at its container path |
| Generator.VolumesOfStringsOk | backend/converters/kubernetes/generator.go:306-321 | the loop over a list of strings succeeds iff every entry has a second segment |
| Generator.VolumesOfStrings | backend/converters/kubernetes/generator.go:306-321 | the loop over well-formed strings builds one volume and one mount per entry, in order |
| Generator.GenerateVolumes | backend/converters/kubernetes/generator.go:292-322 | the method computes `VolumesFor`: no list means no volumes, otherwise one volume and mount per string entry |
| Generator.ParseDurationToSeconds | backend/converters/kubernetes/generator.go:509-538 | the result is a 32-bit value; a blank duration gives "empty duration" |
| Generator.DurationWithUnit | backend/converters/kubernetes/generator.go:519-537 | a number followed by s, m or h is that many seconds, minutes or hours in seconds |
| Generator.UnitSuffix | backend/converters/kubernetes/generator.go:519-527 | a trailing unit letter is split off with its multiplier |
| Generator.DurationBare | backend/converters/kubernetes/generator.go:528-537 | a bare 32-bit number is a count of seconds |
| Generator.DurationCompoundRejected | backend/converters/kubernetes/generator.go:532-535 | compound durations are not understood: "1m0s" is rejected with "invalid duration format: 1m0s" |
| Generator.GenerateProbes | backend/converters/kubernetes/generator.go:364-409 | liveness and readiness are the same probe; there is one iff the health check is a map with a non-empty test; its period and timeout come from parsable durations and its failure threshold from an int retries |
| Generator.Amounts | backend/converters/kubernetes/generator.go:418-434 | a block yields its memory string under "memory" and its cpus string under "cpu", and nothing else |
| Generator.GenerateResourceRequirements | backend/converters/kubernetes/generator.go:412-442 | none iff neither limits nor reservations names a memory or cpu amount; otherwise limits and requests are those amounts |
| Generator.GenerateSecurityContext | backend/converters/kubernetes/generator.go:445-475 | a context exists iff a user string is given or privileged or read_only is true; runAsUser is set iff the user is a decimal 64-bit integer |
| Generator.GenerateContainer | backend/converters/kubernetes/generator.go:90-170 | the method computes `ContainerFor`: the image is required, ports and environment errors are reported in that order, and probes, resources and security context never fail |
| Generator.GenerateDeployment | backend/converters/kubernetes/generator.go:37-87 | the method computes `DeploymentFor`: a non-map service, a container error or a volume error is reported with the service name |
| Generator.DeploymentShape | backend/converters/kubernetes/generator.go:43-73 | a Deployment is named after the service, carries the option labels plus app=<name>, selects and labels pods with exactly app=<name>, restarts Always and runs one container with the service's name and image |
| Generator.DeploymentNeedsImage | backend/converters/kubernetes/generator.go:68-71 | without a string image the result is "failed to generate container for <name>: no image specified for service <name>" |
| Generator.DeploymentVolumes | backend/converters/kubernetes/generator.go:76-84 | pod volumes and container mounts are set together from generateVolumes, and only when there is a volume |
| ServiceGenerator.ServicePortOf | backend/converters/kubernetes/service_generator.go:134-142 | the target port is the decimal text of the container port and reads back as it |
| ServiceGenerator.PortPair | backend/converters/kubernetes/service_generator.go:93-102 | an accepted port is named lower(protocol)-<target>, has a 32-bit port, and targets a port given in canonical decimal text |
| ServiceGenerator.ParseServicePortMapping | backend/converters/kubernetes/service_generator.go:75-143 | every accepted port is named lower(protocol)-<container>, has a 32-bit port and targets the container port by its decimal text; more than three segments give "invalid port mapping format: " and the mapping |
| ServiceGenerator.ServicePortFromParts | backend/converters/kubernetes/service_generator.go:82-132 | the switch on the segment count keeps the naming and range facts and the format error beyond three segments |
| ServiceGenerator.PortPairNumbers | backend/converters/kubernetes/service_generator.go:93-102 | two in-range decimal ports read back as themselves |
| ServiceGenerator.ServicePortSingle | backend/converters/kubernetes/service_generator.go:83-90 | "N" publishes N on target N, named tcp-N |
| ServiceGenerator.ServicePortPair | backend/converters/kubernetes/service_generator.go:91-102 | "H:C" publishes H on target C, named tcp-C |
| ServiceGenerator.ServicePortAddress | backend/converters/kubernetes/service_generator.go:117-129 | "IP:H:C" ignores the address and publishes H on target C |
| ServiceGenerator.ProtocolSwitch | backend/converters/kubernetes/service_generator.go:105-116 | three segments whose last names a protocol read the first two as host and container ports |
| ServiceGenerator.ServicePortProtocol | backend/converters/kubernetes/service_generator.go:105-116 | "H:C:proto" publishes H on target C with the protocol upper-cased |
| ServiceGenerator.ServiceTargetsContainerPort | backend/converters/kubernetes/service_generator.go:75-143 | a port the Service accepts is accepted by the container too, and the Service targets exactly the container's port with the same protocol |
| ServiceGenerator.GenerateServicePorts | backend/converters/kubernetes/service_generator.go:54-72 | the loop parses each string item in order, skips non-strings and stops at the first failure |
| ServiceGenerator.GenerateService | backend/converters/kubernetes/service_generator.go:10-51 | the method computes `ServiceFor`: no Service and no error without a non-empty ports list |
| ServiceGenerator.ServiceShape | backend/converters/kubernetes/service_generator.go:10-51 | a Service exists iff ports is a non-empty list whose string items all parse; it is named after the service, selects app=<name>, has the option type and labels, and one port per string item in order |
| ServiceGenerator.ServiceRejectsBadPort | backend/converters/kubernetes/service_generator.go:43-46 | one string item that does not parse fails the whole Service |
| ServiceGenerator.MissingChar | backend/converters/kubernetes/service_generator.go:240-246 | a pattern holding a character the name lacks does not match |
| ServiceGenerator.ContainingPatternIsSecret | backend/converters/kubernetes/service_generator.go:230-247 | any name containing a word that lower-cases to a pattern is secret-like, whatever surrounds it |
| ServiceGenerator.MonkeyIsSecret | backend/converters/kubernetes/service_generator.go:232-238 | "MONKEY" is secret-like, through "key" |
| ServiceGenerator.AuthorIsSecret | backend/converters/kubernetes/service_generator.go:232-238 | "AUTHOR" is secret-like, through "auth" |
| ServiceGenerator.PortNotSecret | backend/converters/kubernetes/service_generator.go:232-246 | "PORT" is not secret-like |
| ServiceGenerator.Public | backend/converters/kubernetes/service_generator.go:186-201 | exactly the entries whose names are not secret-like, with their values |
| ServiceGenerator.ConfigDataIsPublicEnvironment | backend/converters/kubernetes/service_generator.go:182-227 | for a map or all-string list, the ConfigMap data is the compose-normalised environment without its secret-like names |
| ServiceGenerator.PublicAmongStep | backend/converters/kubernetes/service_generator.go:187-201 | taking one more key adds its entry unless the key is secret-like |
| ServiceGenerator.PublicEntries | backend/converters/kubernetes/service_generator.go:186-201 | the map loops compute `Public` of the map |
| ServiceGenerator.PublicUpdate | backend/converters/kubernetes/service_generator.go:202-221 | dropping secret-like names commutes with one more assignment |
| ServiceGenerator.PublicAssignStep | backend/converters/kubernetes/service_generator.go:203-221 | one more list entry adds or replaces a non-secret assignment and otherwise leaves the data alone |
| ServiceGenerator.NormalizeEnvironmentForConfigMap | backend/converters/kubernetes/service_generator.go:182-227 | the method computes `ConfigData`: map and list forms succeed, any other shape is "unsupported environment format" |
| ServiceGenerator.GenerateConfigMap | backend/converters/kubernetes/service_generator.go:146-179 | the method computes `ConfigMapFor`: none without an environment or when no name survives |
| ServiceGenerator.ConfigMapShape | backend/converters/kubernetes/service_generator.go:146-179 | a ConfigMap is named <svc>-config, holds every non-secret name of a map environment with its value and no secret-like name, and is absent iff every name is secret-like |
| ServiceGenerator.ConfigMapListLastWins | backend/converters/kubernetes/service_generator.go:202-221 | in a list environment, the last entry naming a non-secret variable supplies its value |
| ServiceGenerator.Claims | backend/converters/kubernetes/service_generator.go:268-301 | no more claims than volume entries |
| ServiceGenerator.ClaimsStep | backend/converters/kubernetes/service_generator.go:268-301 | an entry yields one claim iff it is a string naming a volume (no leading '/' or '.', at least two segments) |
| ServiceGenerator.GeneratePersistentVolumeClaims | backend/converters/kubernetes/service_generator.go:250-304 | the method computes `ClaimsFor`: no list means no claims |
| ServiceGenerator.ClaimsOfEntries | backend/converters/kubernetes/service_generator.go:268-303 | the loop over the volume entries computes `Claims` |
| ServiceGenerator.ClaimsSpec | backend/converters/kubernetes/service_generator.go:268-301 | every claim asks for 1Gi ReadWriteOnce and carries the service labels, and every named-volume entry gives the claim <svc>-<volume> |
| ServiceGenerator.BindMountsHaveNoClaim | backend/converters/kubernetes/service_generator.go:275 | a path starting with '/' or '.' never gets a claim |
| ServiceGenerator.FirstHTTPPort | backend/converters/kubernetes/service_generator.go:325-353 | 0 iff no entry's container port is one of the common HTTP ports; otherwise the port of the first such entry |
| ServiceGenerator.GenerateIngressForService | backend/converters/kubernetes/service_generator.go:307-397 | the method, which stops at the first HTTP-looking port, computes `IngressFor` |
| ServiceGenerator.IngressShape | backend/converters/kubernetes/service_generator.go:355-396 | an Ingress exists iff some entry serves HTTP; it routes "/" of the host (default <svc>.local) to the service on the first such port |
| Converter.PlusAssociative | backend/converters/docker_compose_converter.go:93-105 | appending the files, errors and warnings of parts is associative, so the one-by-one appends of Convert equal one concatenation |
| Converter.ConcatAppend | backend/converters/docker_compose_converter.go:93-98 | appending one more part's files, errors and warnings to the running lists extends each list by exactly that part's |
| Converter.ConcatPrefix | backend/converters/docker_compose_converter.go:93-98 | after i + 1 services the accumulated lists are those after i, followed by the (i + 1)-th service's |
| Converter.ConcatWhole | backend/converters/docker_compose_converter.go:93-98 | once every part has been appended the running lists are the full concatenation |
| Converter.ConcatSpec | backend/converters/docker_compose_converter.go:93-105 | nothing is lost and nothing invented: every file, error and warning of every part is in the result and each one of the result comes from some part; no error overall iff no part has one |
| Converter.ConcatWithoutWarnings | backend/converters/docker_compose_converter.go:100-105 | parts that raise no warning (the volumes) add no warning |
| Converter.OutcomesOf | backend/converters/docker_compose_converter.go:93-98 | one outcome per key of the map, the i-th being the conversion of the i-th key in visiting order |
| Converter.OutcomesOfIndex | backend/converters/docker_compose_converter.go:93-98 | every entry of the map is converted |
| Converter.OutcomesOfKeep | backend/converters/docker_compose_converter.go:93-97 | every file, error and warning of every entry reaches the accumulated result |
| Converter.OutcomesOfSources | backend/converters/docker_compose_converter.go:93-97 | every file, error and warning of the accumulated result comes from some entry |
| Converter.OutcomesOfWithoutError | backend/converters/docker_compose_converter.go:93-107 | the accumulated errors are empty iff no entry reports an error |
| Converter.ValidationError | backend/converters/docker_compose_converter.go:43-54 | a request is valid iff its type is "docker-compose" and its content parses; any other type is refused as an unsupported content type, checked before parsing; an invalid file carries the parse error |
| Converter.Validate | backend/converters/docker_compose_converter.go:43-54 | Validate returns exactly the failure ValidationError describes |
| Converter.OptionsFrom | backend/converters/docker_compose_converter.go:123-157 | each option replaces its default only when it has the expected runtime type (string namespace, pull policy and service type; map labels and annotations rendered value by value with %v); replicas only from a float, truncated toward zero and wrapped to 32 bits, so a whole number within 32 bits is kept as it is; the default otherwise |
| Converter.ShowEach | backend/converters/docker_compose_converter.go:131-141 | each label or annotation value is rendered with %v, under the same key |
| Converter.ExtractGeneratorOptions | backend/converters/docker_compose_converter.go:123-157 | the extracted options are those OptionsFrom describes |
| Converter.ContainerFieldsKeys | backend/converters/docker_compose_converter.go:277-299 | the first part of serviceToMap sets image, ports, environment and volumes exactly when those fields are set |
| Converter.ProcessFieldsKeys | backend/converters/docker_compose_converter.go:301-315 | the second part adds command, entrypoint, working_dir and user exactly when set |
| Converter.RuntimeFieldsKeys | backend/converters/docker_compose_converter.go:317-369 | the last part adds privileged, read_only, healthcheck and deploy exactly when set |
| Converter.ServiceDataKeys | backend/converters/docker_compose_converter.go:273-372 | serviceToMap emits one key for each set field of the service and no other |
| Converter.ProcessFieldsKeep | backend/converters/docker_compose_converter.go:301-315 | the second part leaves the image, ports and volumes entries alone |
| Converter.RuntimeFieldsKeep | backend/converters/docker_compose_converter.go:317-369 | the last part leaves the image, ports and volumes entries alone |
| Converter.LaterFieldsKeep | backend/converters/docker_compose_converter.go:301-369 | everything after the first part leaves the image, ports and volumes entries alone |
| Converter.ContainerFieldsLists | backend/converters/docker_compose_converter.go:277-299 | the image is copied as a string, the environment as it is, and ports and volumes as lists holding the service's entries in order |
| Converter.ServiceDataLists | backend/converters/docker_compose_converter.go:273-299 | the generators read back the service's image, its environment and its ports and volumes in their original order; the ports, environment and volumes keys are present exactly when those fields are set |
| Converter.StringValues | backend/converters/docker_compose_converter.go:282-285 | copying the string list gives a value list whose strings are the original ones, in order |
| Converter.PutContainerFields | backend/converters/docker_compose_converter.go:277-299 | the first part of serviceToMap computed step by step equals ContainerFields |
| Converter.PutProcessFields | backend/converters/docker_compose_converter.go:301-315 | the second part equals ProcessFields |
| Converter.PutRuntimeFields | backend/converters/docker_compose_converter.go:317-369 | the last part, with health check and deploy blocks, equals RuntimeFields |
| Converter.ServiceToMap | backend/converters/docker_compose_converter.go:273-372 | serviceToMap equals ServiceData |
| Converter.UnsupportedAmongSpec | backend/converters/docker_compose_converter.go:430-479 | a feature is reported iff it is among those checked and the service uses it unsupportedly |
| Converter.AdvisoriesOfSpec | backend/converters/docker_compose_converter.go:430-479 | the i-th warning is the one for the i-th reported feature |
| Converter.RaiseAllSpec | backend/converters/docker_compose_converter.go:430-479 | running the checks one after the other appends the warnings of exactly the unsupported features, in check order |
| Converter.UnsupportedAmongOrdered | backend/converters/docker_compose_converter.go:430-479 | the reported features keep the order of the checks |
| Converter.AdvisoriesInOrder | backend/converters/docker_compose_converter.go:430-479 | the checks run networks, depends_on, pid, ipc, shm in that order |
| Converter.AdvisoriesSpec | backend/converters/docker_compose_converter.go:430-479 | checkUnsupportedFeatures raises one warning per unsupported feature and no other, in the order networks, depends_on, pid, ipc, shm |
| Converter.AdvisoryFields | backend/converters/docker_compose_converter.go:436-475 | each warning carries its feature's code and names the service; only the depends_on one carries a suggestion; the pid and ipc ones quote the mode |
| Converter.CheckUnsupportedFeatures | backend/converters/docker_compose_converter.go:430-479 | the warnings computed step by step are those Advisories describes |
| Converter.ClaimFiles | backend/converters/docker_compose_converter.go:248-263 | one file per claim, numbered by its position in the list |
| Converter.ManifestErrors | backend/converters/docker_compose_converter.go:168-214 | a service has no error iff both its Deployment and its Service generate |
| Converter.ManifestWarnings | backend/converters/docker_compose_converter.go:216-264 | a service's manifests raise no warning iff both its ConfigMap and its claims generate |
| Converter.ManifestFiles | backend/converters/docker_compose_converter.go:160-270 | every file of a service is for that service and none is a persistent-volume file |
| Converter.DeploymentFileFirst | backend/converters/docker_compose_converter.go:168-190 | a generated Deployment is the service's first file, marshalled as is |
| Converter.ClaimFilesPresent | backend/converters/docker_compose_converter.go:240-264 | every generated claim has its own numbered file |
| Converter.ServiceOutcomeSpec | backend/converters/docker_compose_converter.go:160-270 | a service's outcome is that of its manifests, followed by its unsupported-feature warnings |
| Converter.AppendClaimFiles | backend/converters/docker_compose_converter.go:248-263 | the claim loop appends exactly ClaimFiles to the files so far |
| Converter.GenerateManifests | backend/converters/docker_compose_converter.go:166-264 | the manifest half of convertService equals ManifestsOutcome |
| Converter.ConvertService | backend/converters/docker_compose_converter.go:160-270 | convertService equals ServiceOutcome |
| Converter.VolumeOutcomeShape | backend/converters/docker_compose_converter.go:379-424 | each volume yields exactly one file or one error, and never a warning |
| Converter.LocalVolumeFile | backend/converters/docker_compose_converter.go:381-423 | a volume with an empty or "local" driver yields its persistent volume: 1Gi, ReadWriteOnce, Retain, host path /mnt/data/<name> |
| Converter.ForeignVolumeError | backend/converters/docker_compose_converter.go:401-407 | any other driver yields an UNSUPPORTED_VOLUME_DRIVER error naming the driver and the volume |
| Converter.VolumesWithoutError | backend/converters/docker_compose_converter.go:379-426 | the volumes give no error iff every driver is local |
| Converter.VolumesOutcomeSpec | backend/converters/docker_compose_converter.go:379-426 | local volumes yield their files and others their errors, one bad volume not stopping its siblings; no error iff every driver is local |
| Converter.VolumesNeverWarn | backend/converters/docker_compose_converter.go:375-427 | convertVolumes raises no warning |
| Converter.VolumesOnlyVolumes | backend/converters/docker_compose_converter.go:375-427 | convertVolumes yields only persistent-volume files and driver errors |
| Converter.ConvertVolumes | backend/converters/docker_compose_converter.go:375-427 | convertVolumes computed step by step equals the concatenation of the volumes' outcomes |
| Converter.DocumentWithoutError | backend/converters/docker_compose_converter.go:88-107 | a parsed file converts successfully iff every service converts without error and every volume has a local driver |
| Converter.DocumentKeepsServices | backend/converters/docker_compose_converter.go:93-98 | the files, errors and warnings of every service reach the result |
| Converter.ConversionSpec | backend/converters/docker_compose_converter.go:57-120 | a request that fails validation gives exactly one VALIDATION_ERROR carrying the reason and nothing else; otherwise the result is that of the parsed file, the metadata counts services and volumes and repeats the version; success iff no error |
| Converter.ConvertServices | backend/converters/docker_compose_converter.go:88-98 | the service loop's accumulated files, errors and warnings are the concatenation of each service's outcome |
| Converter.Convert | backend/converters/docker_compose_converter.go:57-120 | Convert equals Conversion, whose meaning ConversionSpec states |
| Converter.ConversionSucceeds | backend/converters/docker_compose_converter.go:57-120 | a request that validates, whose every service yields its Deployment and its Service and whose every volume is local, succeeds, and each service has its Deployment file among the files |
| Converter.KubernetesManifests | backend/converters/docker_compose_converter.go:166-213 | with the real generators, a service that names an image, whose ports all parse for the container and the Service, whose environment is absent or a supported form and whose volume entries have two paths, yields its Deployment and its Service |
| Converter.SingleServiceConverts | backend/converters/docker_compose_converter.go:57-120 | a file with one service and no volumes, whose normalised service yields its Deployment and its Service, converts successfully with a file of type deployment |
| Converter.ExampleConverts | backend/main_test.go:41-77 | the web service with image nginx:latest, port "80:80" and ENV=production, converted in the "test" namespace by the real generators, succeeds and yields a file of type deployment |
| Validation.StringValidate | backend/utils/validation/validators.go:34-87 | a string validator accepts a value iff it is a string or nil, is not a missing required value, and (unless empty and allowed, or required and missing) meets both byte-length limits and the pattern; the errors come in the order type, required, min, max, pattern |
| Validation.StringWrongTypeFirst | backend/utils/validation/validators.go:37-46 | a value that is neither nil nor a string adds INVALID_TYPE first and is then checked as "" |
| Validation.StringRequiredStops | backend/utils/validation/validators.go:48-55 | a missing required value ends the list with REQUIRED: no length or pattern error follows |
| Validation.IntValidate | backend/utils/validation/validators.go:96-144 | nil passes unless required (then exactly REQUIRED); a non-integer type gives exactly INVALID_TYPE; an int, int32, int64 or float64 passes iff within the non-nil bounds, with MIN_VALUE before MAX_VALUE |
| Validation.IntOneBound | backend/utils/validation/validators.go:127-141 | with a minimum not above the maximum a number breaks at most one bound |
| Validation.Relabel | backend/utils/validation/validators.go:202-206 | each item error keeps its code and message and takes the item's position as its field |
| Validation.ItemResults | backend/utils/validation/validators.go:200-208 | every item is validated, one result per item |
| Validation.ArrayValidate | backend/utils/validation/validators.go:157-181 | nil passes unless required; a value that is not a list of values or of strings gives exactly INVALID_TYPE |
| Validation.LabelledKeep | backend/utils/validation/validators.go:201-207 | each error of item i appears labelled "[i]" |
| Validation.LabelledFields | backend/utils/validation/validators.go:201-207 | every item error names the position of an item |
| Validation.LabelledNone | backend/utils/validation/validators.go:199-208 | there is no item error iff every item passes |
| Validation.ArrayValidateOk | backend/utils/validation/validators.go:154-211 | an array passes iff its length is within the limits that are > 0 and every item passes |
| Validation.ArrayLengthFirst | backend/utils/validation/validators.go:183-208 | the length errors come first; every later error is an item's labelled with its position, and every error of every item is there |
| Validation.ValidateKubernetesName | backend/utils/validation/validators.go:214-235 | a name passes iff it matches the DNS-label pattern and is at most 253 bytes; "" gives REQUIRED; the INVALID_NAME hyphen check never fires |
| Validation.KubernetesNameErrors | backend/utils/validation/validators.go:214-235 | the name validator alone reports nothing exactly for a DNS label of at most 253 characters, which never has a hyphen at either end; REQUIRED alone for the empty name; never INVALID_NAME, so the extra hyphen check never fires |
| Validation.DnsNameIsAscii | backend/utils/validation/validators.go:218-221 | a DNS label is ASCII, so its byte length is its length |
| Validation.DnsNameEdges | backend/utils/validation/validators.go:225-232 | a name matching the pattern neither starts nor ends with a hyphen, which is why the hyphen check is dead |
| Validation.PortPatternsCover | backend/utils/validation/validators.go:275-289 | some pattern of the list matches iff the mapping has one of the five forms |
| Validation.ValidatePortMapping | backend/utils/validation/validators.go:263-299 | "" gives REQUIRED; any other mapping passes iff it has one of the five forms N, N:N, N:N/proto, ip:N:N, ip:N:N/proto, and otherwise gives exactly INVALID_PORT_FORMAT |
| Validation.ValidateEnvironmentVariable | backend/utils/validation/validators.go:302-324 | "" gives REQUIRED; any other entry passes iff it is an upper-case name optionally followed by "=" and a one-line value, with at most one error |
| Validation.EnvEntryWithValue | backend/utils/validation/validators.go:314 | "PORT=8080" is accepted |
| Validation.EnvEntryBareName | backend/utils/validation/validators.go:314 | "DEBUG" is accepted |
| Validation.EnvEntryLowerCase | backend/utils/validation/validators.go:314-321 | "port" is refused with INVALID_ENV_FORMAT |
| Validation.OptionErrors | backend/utils/validation/validators.go:381-387 | one INVALID_VOLUME_OPTION error per bad option |
| Validation.OptionErrorsAppend | backend/utils/validation/validators.go:372-388 | the option errors of two runs of options concatenate |
| Validation.BadOptionsEmpty | backend/utils/validation/validators.go:367-389 | no option error iff every trimmed option is ro, rw, z or Z |
| Validation.OptionStep | backend/utils/validation/validators.go:372-388 | one loop step adds an error exactly when the trimmed option is not acceptable |
| Validation.VolumeMappingOk | backend/utils/validation/validators.go:327-391 | a mapping of 2 or 3 segments has no error iff both paths are non-empty and every option of a third segment is acceptable |
| Validation.ValidateVolumeMapping | backend/utils/validation/validators.go:327-391 | "" gives REQUIRED, a segment count other than 2 or 3 gives exactly INVALID_VOLUME_FORMAT; otherwise the empty-path errors, then one error per bad option |
| Validation.CheckOptions | backend/utils/validation/validators.go:367-389 | the option loop's errors are one per bad trimmed option, in order |
| Validation.ValidateDockerComposeVersion | backend/utils/validation/validators.go:394-424 | "" gives REQUIRED; any other version passes iff it is one of 3.0 to 3.9, and otherwise gives exactly UNSUPPORTED_VERSION |
| Formatter.MergeYAMLFiles | backend/utils/yaml/formatter.go:33-44 | the merged stream is the trimmed files joined by "\n---\n" lines |
| Formatter.MergeStep | backend/utils/yaml/formatter.go:36-41 | one loop step writes the separator (except before the first file) and then the next trimmed file |
| Formatter.DocumentsTrimmed | backend/utils/yaml/formatter.go:47-59 | every document of a split is non-empty and has no surrounding white space |
| Formatter.SplitYAMLDocuments | backend/utils/yaml/formatter.go:47-59 | the documents are the trimmed non-blank pieces between "---" markers, in order |
| Formatter.SplitMerged | backend/utils/yaml/formatter.go:33-59 | splitting a merged stream gives back the trimmed files, provided none is blank or contains a marker of its own |
| Formatter.TrimmedPlain | backend/utils/yaml/formatter.go:40 | files that survive a merge trim to non-blank marker-free documents |
| Formatter.SplitJoined | backend/utils/yaml/formatter.go:38-52 | splitting documents joined by separators, after an optional new line, gives back the documents |
| Formatter.SplitJoinedLast | backend/utils/yaml/formatter.go:48-55 | the last document of a stream comes back alone |
| Formatter.SplitJoinedNext | backend/utils/yaml/formatter.go:48-55 | a document followed by a separator comes back first, followed by the rest |
| Formatter.MarkerFreePadded | backend/utils/yaml/formatter.go:48 | a new line in front of marker-free text adds no marker |
| Formatter.SplitAtSeparator | backend/utils/yaml/formatter.go:38-48 | the first marker of a document followed by the separator is the separator's |
| Formatter.TrimPadded | backend/utils/yaml/formatter.go:52 | new lines around a trimmed non-blank text trim away |
| Formatter.AddYAMLHeader | backend/utils/yaml/formatter.go:62-79 | the result is the comment block of the header's lines, a blank line, then the content |
| Formatter.CommentStep | backend/utils/yaml/formatter.go:67-73 | one header line is written as "# line" (nothing for an empty line) and a new line |
| Formatter.CommentBlockLines | backend/utils/yaml/formatter.go:66-73 | read back line by line, the block gives the commented header lines and then what follows |
| Formatter.NoNewLineCommented | backend/utils/yaml/formatter.go:68-71 | commenting a line adds no line break |
| Formatter.HeaderLines | backend/utils/yaml/formatter.go:62-79 | the lines of a file with a header are the commented header lines, one blank line, then the content's own lines |
| Formatter.EmptyNumbers | backend/utils/yaml/formatter.go:149-170 | only the int zero counts as empty; int32, int64 and float zeros do not (they compare unequal to the untyped 0 through the interface), and a bool is never empty |
| Formatter.RemoveEmptyFields | backend/utils/yaml/formatter.go:119-146 | the pruned value computed member by member equals Cleaned |
| Formatter.KeptFieldsStep | backend/utils/yaml/formatter.go:123-130 | one more key of a map keeps its pruned value exactly when it is not empty before or after pruning |
| Formatter.CleanedItemsFlat | backend/utils/yaml/formatter.go:134-141 | the pruned list holds each item's pruned value, or nothing for it, in order |
| Formatter.CleanedPruned | backend/utils/yaml/formatter.go:119-146 | nothing the pruning leaves is empty, at any depth |
| Formatter.CleanedItemsPruned | backend/utils/yaml/formatter.go:133-142 | every item left in a pruned list is non-empty and pruned itself |
| Formatter.PrunedUnchanged | backend/utils/yaml/formatter.go:119-146 | a value with no empty member at any depth is left as it is |
| Formatter.PrunedItemsUnchanged | backend/utils/yaml/formatter.go:133-142 | a list whose items are all non-empty and pruned is left as it is |
| Formatter.CleanedIdempotent | backend/utils/yaml/formatter.go:119-146 | pruning twice gives the same value as pruning once |
| Config.FirstFailure | backend/config/config.go:106-159 | a configuration is refused iff some check fails, and the error is that of the first failing check in the order port 1-65535, environment, log level, log format, positive file size, TLS cert, TLS key |
| Config.ValidateConfig | backend/config/config.go:106-159 | validateConfig, with its two membership loops, reports exactly FirstFailure |
| Config.SkipLeading | backend/config/config.go:246-248 | the leading loop stops at the end or at the first non-blank byte |
| Config.SkipTrailing | backend/config/config.go:251-253 | the trailing loop stops at start or just after a non-blank byte |
| Config.SkipLeadingBlanks | backend/config/config.go:246-248 | only blanks (space, tab, new line, carriage return) are skipped at the front |
| Config.SkipTrailingBlanks | backend/config/config.go:251-253 | only blanks are skipped at the back |
| Config.StrippedSlice | backend/config/config.go:241-256 | trimSpace returns the slice between the leading and the trailing blanks, and it starts and ends with a non-blank |
| Config.StrippedIdempotent | backend/config/config.go:241-256 | trimming twice is trimming once |
| Config.TrimSpace | backend/config/config.go:241-256 | the two loops compute Stripped |
| Config.SplitAt | backend/config/config.go:217-239 | splitting always yields at least one piece |
| Config.LoopStep | backend/config/config.go:225-232 | a separator character closes the open piece and starts an empty one; any other character extends the open piece |
| Config.ByteIndexStep | backend/config/config.go:225 | ranging over a string, the byte index advances by the UTF-8 length of the character just read |
| Config.ByteOffsetLength | backend/config/config.go:225 | the byte index of character k is the byte length of the characters before it |
| Config.ByteOffsetGrows | backend/config/config.go:225 | every character takes at least one byte |
| Config.LastByteIndex | backend/config/config.go:233 | the byte index equals len(s)-1 exactly at the last character when that character is one byte long |
| Config.ScanTurn | backend/config/config.go:225-236 | one loop turn, with the byte-index test, keeps the scanned state |
| Config.SplitString | backend/config/config.go:217-239 | splitString as written equals SplitStringAsWritten: the last piece is emitted only when the final character is one byte |
| Config.SplitAtSnoc | backend/config/config.go:225-232 | one more character extends the pieces as the loop does |
| Config.SplitAtExample | backend/config/config.go:217-239 | "a,é" split on ',' is meant to give ["a", "é"] |
| Config.SplitStringDropsLastPiece | backend/config/config.go:225-236 | as written, "a,é" split on "," gives ["a"], while the intended pieces are ["a", "é"] |
| Config.SplitStringCorrected | backend/config/config.go:217-239 | the corrected split returns no pieces for "" and otherwise every piece, the last included |
| Config.SplitAtJoin | backend/config/config.go:217-239 | joining the pieces with the separator gives back the input |
| Config.SplitAtFree | backend/config/config.go:226-228 | no piece contains the separator |
| Config.PiecesJoin | backend/config/config.go:217-239 | the intended split of a non-empty string on a one-character separator joins back to the string, and no piece holds the separator |
| Config.AsWrittenPieces | backend/config/config.go:217-239 | splitString as written returns the intended pieces when the text is empty or ends in a one-byte character, and all but the last piece otherwise; every piece it returns is an intended piece |
| Config.SplitAndTrim | backend/config/config.go:205-215 | splitAndTrim returns the trimmed non-blank pieces of splitString as written, in order |
| Config.TrimmedPieceItem | backend/config/config.go:209-212 | a kept item is non-empty, has no blanks at either end, and holds only characters of its piece |
| Config.SplitTrimmedItems | backend/config/config.go:205-215 | every item splitAndTrim returns (over splitString as written) is non-empty, unpadded and, for a one-character separator, free of the separator |
| Config.GetEnvString | backend/config/config.go:163-168 | the variable's value when set and non-empty, else the default |
| Config.GetEnvInt | backend/config/config.go:170-177 | the variable parsed by Atoi, else the default when unset, empty or unparsable |
| Config.GetEnvInt64 | backend/config/config.go:179-186 | the variable parsed as a decimal 64-bit integer, else the default |
| Config.GetEnvBool | backend/config/config.go:188-195 | the variable parsed by ParseBool, else the default |
| Config.GetEnvStringSlice | backend/config/config.go:197-203 | the items splitAndTrim finds in a set, non-empty variable, split on "," by splitString as written (none if all are blank), else the default |
| Config.StringSliceDropsLastItem | backend/config/config.go:197-239 | a list variable "a,é" reads as ["a"]: the item ending in a multi-byte character is lost |
| Config.EnvIntRoundTrip | backend/config/config.go:170-186 | a numeric variable set to the decimal text of a 64-bit integer reads back as that integer |
| Config.EnvBoolRoundTrip | backend/config/config.go:188-195 | a boolean variable set to "true" or "false" reads back as that boolean |
| Config.Load | backend/config/config.go:59-103 | Load succeeds iff the configuration read from the environment (lists through splitString as written) validates, returns that configuration, and otherwise reports "invalid configuration: " and the first failure |
| Config.DefaultsLoad | backend/config/config.go:63-102 | with no variables set the defaults load and validate: port 8080, development, 10 MiB, TLS off |
| Text.Find | backend/converters/docker/parser.go:132 | the first index where the separator occurs, and none exactly when it does not occur |
| Text.Split | backend/converters/docker/parser.go:81 | splitting on a non-empty separator always yields at least one piece |
| Text.JoinSplit | backend/converters/docker/parser.go:81 | joining the pieces of a split with the same separator restores the input |
| Text.SplitPiecesFree | backend/converters/kubernetes/generator.go:326 | no piece of a split contains the separator |
| Text.Cut | backend/converters/docker/parser.go:132 | cutting at the first separator gives one piece exactly when the separator is absent, and at most two |
| Text.TrimSpace | backend/converters/kubernetes/generator.go:511 | the trimmed text neither starts nor ends with white space, and text already so is left as it is |
| Text.TrimSpaceIdempotent | backend/utils/yaml/formatter.go:52 | trimming twice is trimming once |
| Text.TrimSpaceSlice | backend/converters/kubernetes/generator.go:511 | the trimmed text is a slice of the text, and everything cut off either end is white space |
| Text.Fields | backend/converters/docker/parser.go:271 | the fields are non-empty runs of non-space characters |
| Text.FieldsSeparated | backend/converters/docker/parser.go:271 | the fields are maximal: the text is white space interleaved with them, with at least one white-space character between two fields |
| Text.SeparatedFields | backend/converters/docker/parser.go:271 | any non-empty, space-free words the text is so interleaved with are its fields, so the split is unique |
| Text.AllSpaceNoFields | backend/converters/docker/parser.go:271 | a text of white space only has no fields |
| Text.FieldsKeepText | backend/converters/docker/parser.go:271 | the fields together hold exactly the non-space characters of the text, in order |
| Text.ToLower | backend/api/handlers/convert.go:337 | lower-casing keeps the length and maps each character on its own |
| Text.ByteLength | backend/utils/validation/validators.go:63 | a string is at least as many bytes long as it has characters, and at most four times as many |
| Text.ByteLengthAppend | backend/utils/validation/validators.go:63-76 | byte lengths add up over concatenation |
| Text.IsOneOf | backend/utils/validation/validators.go:372-380 | the loop with a valid flag and an early break finds exactly whether the value is among the options |
| Text.ParseInt | backend/config/config.go:179-186 | a parsed 64-bit integer lies within the range of its bit size |
| Text.ParseItoa | backend/config/config.go:170-186 | parsing the decimal text of an integer within range gives the integer back |
| Text.ParseFormatBool | backend/config/config.go:188-195 | parsing "true" or "false" gives the boolean back |
| Text.Truncate | backend/converters/docker_compose_converter.go:152-154 | converting a float64 to an integer truncates toward zero |
| Text.Wrap32 | backend/converters/kubernetes/generator.go:212 | an int32 conversion lands in the 32-bit range, is congruent to its input modulo 2^32, and keeps an input already in range |
| Text.SortedKeys | backend/converters/docker_compose_converter.go:93 | the keys of a map are each visited exactly once |
| Text.SortedKeysDistinct | backend/converters/docker_compose_converter.go:93 | no key is visited twice |
| Registry.Listed | backend/converters/registry.go:67-77 | records made from the registry's map list every registered converter once, each under its own name with its description and supported types |
| Registry.ConverterRegistry.constructor | backend/converters/registry.go:15-19 | a new registry is empty |
| Registry.ConverterRegistry.Register | backend/converters/registry.go:22-42 | a nil converter, an empty name or a taken name is refused with its own error and changes nothing; otherwise the converter is filed under its name and nothing else changes |
| Registry.ConverterRegistry.GetConverter | backend/converters/registry.go:45-60 | the result is a registered converter that lists the content type; an error, "no converter found for content type: " and the type, exactly when none does |
| Registry.ConverterRegistry.GetAvailableConverters | backend/converters/registry.go:63-78 | one record per registered converter, each under a different name, none missing |
| Registry.ConverterRegistry.GetConverterByName | backend/converters/registry.go:81-91 | the converter filed under the name, or the "not found" error when there is none |
| Middleware.RecentKeeps | backend/api/middleware/middleware.go:92-100 | pruning keeps exactly the timestamps less than a minute old and never grows the list |
| Middleware.RecentIdempotent | backend/api/middleware/middleware.go:92-100 | pruning an already pruned list changes nothing |
| Middleware.RateLimiter.constructor | backend/api/middleware/middleware.go:84-85 | a new limiter has no clients and the given limit |
| Middleware.RateLimiter.Handle | backend/api/middleware/middleware.go:87-123 | a request is let through iff the client is new or its pruned list holds fewer than the limit; a refused request only prunes its client's list, an accepted one appends its time to it; no other client's list changes, and no list outgrows the limit |
| Middleware.GenerateRequestID | backend/api/middleware/middleware.go:149-152 | the generated id is non-empty and parses back to the nanosecond clock it was made from |
| Middleware.RequestID | backend/api/middleware/middleware.go:35-47 | an incoming X-Request-ID is kept; without one the id is generated from the clock |
| Health.WorstOrderFree | backend/api/handlers/health.go:101-110 | the overall status depends only on which statuses occur, so the random order in which Go ranges over the services does not matter |
| Health.WorstSnoc | backend/api/handlers/health.go:102-109 | one more status either keeps the overall status or makes it worse: "error" wins, "ok" changes nothing, anything else degrades |
| Health.OverallStatus | backend/api/handlers/health.go:101-111 | the loop yields "error" if any service reports "error", else "degraded" if any reports something other than "ok", else "ok" |
| Health.StatusCode | backend/api/handlers/health.go:113-119 | "error" is answered with 503, "degraded" with 206, anything else with 200 |
| Health.MissingNames | backend/api/handlers/health.go:157-162 | a name is reported missing iff it is required and no listed converter carries it |
| Health.CheckConverters | backend/api/handlers/health.go:139-183 | "error" iff no converter is registered; "degraded", with the missing names and the count, iff some are but the required one is absent; "ok", with the count and the list, iff the required one is there |
| Health.HealthDetailed | backend/api/handlers/health.go:74-122 | the overall status is "error" for an empty registry, "degraded" when docker-compose-to-kubernetes is missing and "ok" otherwise; the code is StatusCode of it: 503 iff the registry is empty, 206 iff it is not empty but lacks that converter, 200 iff it is registered |
| Health.Ready | backend/api/handlers/health.go:186-202 | 503 "not ready" iff no converter is registered, otherwise 200 "ready" |
| Handlers.ConvertStatus | backend/api/handlers/convert.go:106-112 | the /convert endpoint answers 400 exactly for an unsuccessful result that lists errors, and 200 otherwise |
| Handlers.UploadStatus | backend/api/handlers/convert.go:322-325 | the upload endpoint answers 400 exactly for an unsuccessful result, and 200 otherwise |
| Handlers.StatusesAgree | backend/api/handlers/convert.go:106-325 | the two endpoints give the same code to every result whose success means "no errors" |
| Handlers.StatusesDiffer | backend/api/handlers/convert.go:106-325 | they differ on an unsuccessful result without errors: 200 on /convert, 400 on upload |
| Handlers.ConverterResultsAgree | backend/api/handlers/convert.go:106-325 | every result the compose converter produces gets the same code from both endpoints |
| Handlers.Convert | backend/api/handlers/convert.go:44-115 | an unreadable body is refused with 400 "Invalid request format"; content over 10 MiB with 413 before any lookup; a type no converter supports with 400 "Unsupported conversion type" and the registry's message; a converter error with 500 "Conversion failed"; otherwise some converter that supports the type is run on the request, and its result is answered with ConvertStatus or its error refused with 500 "Conversion failed" |
| Handlers.DetermineFileType | backend/api/handlers/convert.go:331-350 | an empty name has no type, and every type is "", "docker-compose" or "dockerfile" |
| Handlers.ComposeSuffixesContain | backend/api/handlers/convert.go:339-341 | both suffix tests are special cases of containing "compose" |
| Handlers.DetermineFileTypeSpec | backend/api/handlers/convert.go:331-350 | a non-empty name is a compose file iff, lower-cased, it contains "compose"; a Dockerfile iff it does not but ends in "dockerfile"; otherwise it has no type |
| Handlers.LowerCharIdempotent | backend/api/handlers/convert.go:337 | lower-casing a character twice is lower-casing it once |
| Handlers.ToLowerIdempotent | backend/api/handlers/convert.go:337 | lower-casing a name twice is lower-casing it once |
| Handlers.DetermineFileTypeIgnoresCase | backend/api/handlers/convert.go:331-350 | a name and its lower-cased form get the same type |
| Handlers.FormValue | backend/api/handlers/convert.go:240-266 | a missing form field reads as "" |
| Handlers.TextOptions | backend/api/handlers/convert.go:256-264 | namespace and serviceType become options exactly when non-empty, as strings |
| Handlers.UploadOptions | backend/api/handlers/convert.go:256-270 | as written, replicas becomes an int option exactly when the field parses as an integer; the other options are the text ones |
| Handlers.UploadReplicasIgnored | backend/api/handlers/convert.go:266-270 | as written, the replicas given to the upload form never reach the generator, which reads only a float; namespace does |
| Handlers.UploadOptionsCorrected | backend/api/handlers/convert.go:256-270 | with the correction, replicas becomes an option exactly when it parses, the other options being the text ones |
| Handlers.UploadReplicasApplied | backend/api/handlers/convert.go:266-270 | with the correction, a parsed replicas count reaches the generator, wrapped to 32 bits; without one the default stays |
| Handlers.UploadType | backend/api/handlers/convert.go:240-244 | the form's type field when given, otherwise the type guessed from the file name |
| Handlers.UploadAndConvert | backend/api/handlers/convert.go:194-328 | a missing file is refused with 400; a file over 10 MiB with 413; a failed open or read with 500; no given or guessed type with 400 "Could not determine file type"; an unsupported type with 400 "Unsupported file type"; otherwise some converter supporting the type is run on the content and the form's options as written (replicas as an int, which the generator ignores); its result is answered with UploadStatus and the upload's name, size and type, or its error refused with 500 "Conversion failed" |
| Notifications.FirstIndexOf | frontend/src/stores/app.ts:65 | findIndex gives the first position holding the id, or -1 exactly when no entry holds it |
| Notifications.RemovedAbsent | frontend/src/stores/app.ts:64-69 | removing an id no entry carries changes nothing |
| Notifications.RemovedPresent | frontend/src/stores/app.ts:64-69 | removing an id that occurs drops exactly one entry, the first with that id, and keeps the others in order |
| Notifications.RemoveUndoesAdd | frontend/src/stores/app.ts:48-69 | an entry added under an id no other entry carries is the one its timer removes, leaving the list as it was before |
| Notifications.FindIndex | frontend/src/stores/app.ts:65 | the front-to-back scan returns FirstIndexOf |
| Notifications.AppStore.constructor | frontend/src/stores/app.ts:10-17 | the store starts healthy with no notifications |
| Notifications.AppStore.AddNotification | frontend/src/stores/app.ts:48-62 | one entry is appended with the clock as its id and time, nothing else changes, and the five-second removal is set exactly for success and info |
| Notifications.AppStore.RemoveNotification | frontend/src/stores/app.ts:64-69 | the list loses its first entry with the id, if any |
| Notifications.AppStore.ClearNotifications | frontend/src/stores/app.ts:71-73 | the list becomes empty |
| Notifications.AppStore.RecordHealth | frontend/src/stores/app.ts:20-46 | the store is healthy exactly when the detailed health answer arrived with status "ok" |

## Left out

- YAML decoding and encoding (`yaml.Unmarshal`, `yaml.Marshal`, every `ToYAML`) are a foreign library. They appear as the parameters `decode` and `marshal`. Marshalling is total in the model, so the `YAML_MARSHAL_ERROR` and `YAML_MARSHAL_WARNING` branches of `convertService` and `convertVolumes` are not modelled.
- `FormatYAML`, `ValidateYAML`, `ConvertToYAML`, `ParseFromYAML` and `CleanEmptyFields` in formatter.go only wrap the YAML library. Only `removeEmptyFields` and `isEmpty`, which they use, are modelled.
- Go's `%v` rendering of scalars and `time.Duration.String()` are taken as given strings: a float carries its own text, and `durationText` is a parameter.
- Floating point is reduced to `real`. Go's conversion of a float64 to an integer is modelled as truncation toward zero (`Text.Truncate`). Rounding and overflow of float64 values are not modelled. `Handlers.UploadOptionsCorrected` stores the replicas count as an exact real, which a float64 cannot hold beyond 2^53.
- Go ranges over maps in random order. The model visits keys in ascending order (`Text.SortedKeys`). The converter's and parser's properties about all entries hold for any order; the exact order of files, errors and environment variables holds only for the ascending one.
- Registry.ConverterRegistry.GetConverter: when several converters support a type, Go may return any of them. The model returns the first in ascending name order, and its contract promises only some supporting converter.
- Concurrency is left out: the registry's `sync.RWMutex`, and the rate limiter's map, which Go shares across goroutines without a lock. Both are sequential objects.
- HTTP plumbing is left out: gin binding, JSON encoding, the CORS, Security, Logger and ErrorHandler middleware, `routes.go`, `main.go` and the `/validate` endpoint. The runtime statistics and version fields of `HealthDetailed` are also left out, as is `Health`/`Live`, which always answers "ok".
- Handlers.Convert: the bound request arrives as a `Result`, so the `binding:"required"` checks of gin are part of that parameter. The converter's `Convert` is the parameter `run`.
- Handlers.UploadAndConvert: the multipart reader is the parameter `read`, and one `Read` call is assumed to deliver the whole file. A short read is not modelled. The `uploaded_file` metadata is a separate `upload` field of the response rather than an entry of the metadata map.
- The clock is a parameter wherever it is used: nanoseconds in the rate limiter and the request id, milliseconds in the notification ids.
- Notifications.AppStore.AddNotification: the five-second `setTimeout` is the returned flag `autoRemove`. Two notifications added in the same millisecond share an id, and removal then takes the earlier one, as `findIndex` does.
- Notifications.AppStore.RecordHealth: `loadAppInfo` and `checkHealth` are reduced to their effect on `isHealthy`. The fetched objects and the request itself are not modelled.
- The process environment is a map parameter, and `godotenv.Load` is not modelled.
- Text.ToLower: lower-cases ASCII letters only, while Go's `strings.ToLower` folds every Unicode letter. A name that reaches an ASCII word only through such folding is judged differently: the Kelvin sign K, for example, lower-cases to k in Go.
- Text.ToUpper: upper-cases ASCII letters only, while Go's `strings.ToUpper` maps every Unicode letter. It is applied to the protocol segment of a port mapping; through Convert that segment is numeric or empty, because the normaliser rejects anything else, so the difference shows only when the generators are called directly.
- Strings are sequences of Unicode scalar values, so invalid UTF-8 is not representable. `Text.ByteLength` gives the UTF-8 byte length where Go's `len` is used.
- Middleware.RateLimiter.Handle: times are unbounded integers, so the saturation of Go's `time.Sub` is not modelled.
- `ValidateDockerImage` is not modelled. Its image-name pattern is a long regular expression, and nothing else in the core calls it.
- Kubernetes.GetName and Kubernetes.GetKind only read a field, so they carry no contract of their own.

## Findings

| source | as written | input that shows it | evidently intended | confidence | as-written member | corrected member |
|---|---|---|---|---|---|---|
| backend/config/config.go:225-236 | the loop closes the last piece only when the byte index `i` of the last character equals `len(s)-1`, which fails when that character takes more than one byte in UTF-8 | `splitString("a,é", ",")` returns `["a"]` | `["a", "é"]`: every piece, the last included | not executed | Config.SplitStringDropsLastPiece | Config.SplitStringCorrected |
| backend/api/handlers/convert.go:266-270 | the upload form's replicas is stored as a Go `int`, but `extractGeneratorOptions` (backend/converters/docker_compose_converter.go:152-154) reads replicas only from a `float64`, so the value is dropped | a form with `replicas=3` converts with 1 replica | the deployment has 3 replicas | not executed | Handlers.UploadReplicasIgnored | Handlers.UploadReplicasApplied |
