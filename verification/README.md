# CDS response path of the xDS v2 client

A Dafny model of how grpc-go's xDS v2 client handles the Cluster Discovery
Service (CDS). It covers three things. First, building and sending the CDS
`DiscoveryRequest`. Second, validating each `Cluster` resource. Third,
processing one `DiscoveryResponse` batch: the batch either replaces the
client's cluster cache as a whole or leaves it untouched. When it replaces the
cache, the registered CDS watcher's timer is stopped and its callback is
invoked once.

Files:
- `wrappers.dfy`: `Option` and `Result`.
- `cds_types.dfy`: module `CdsTypes`. It holds the data model: `Cluster`, the
  three-way resource `Envelope`, `CdsUpdate`, `DiscoveryRequest` and the error
  tags.
- `cds.dfy`: module `Cds`. It holds the pure logic: `NewCDSRequest`,
  `ValidateCluster`, `AdmitResource` (one loop iteration up to the cache
  insert), and `ScanBatch`, which gives the meaning of a whole batch. The
  lemmas that say what a batch yields are here too.
- `cds_client.dfy`: module `CdsClient`. It holds the classes `CdsWatcher`,
  `AdsStream` and `V2Client`. `V2Client.HandleCDSResponse` is the loop of
  `handleCDSResponse`, proved against `ScanBatch`. `V2Client.SendCDS` is here
  too. Two scenario methods use only the handler's contract.

Errors are tags (`HandleError`, `ValidationError`), not message strings. The
callback's `error` argument is recorded as a boolean: true when it is non-nil.

## Model

| member | source | states |
|---|---|---|
| `Cds.NewCDSRequest` | xds/internal/client/cds.go:31-37 | the request carries the client's node, the cluster type URL and the requested names unchanged |
| `CdsClient.V2Client.SendCDS` | xds/internal/client/cds.go:41-47 | the CDS request for the names goes onto the stream; the result is true exactly when the transport does not fail |
| `Cds.ValidateCluster` | xds/internal/client/cds.go:97-112 | accepts exactly EDS clusters whose EDS config source is ADS and whose lb policy is ROUND_ROBIN; the type is checked first, then ADS, then the lb policy, and the first failing check picks the error; a rejection returns the empty update; on acceptance the service name is the EDS service name (possibly empty) and doLRS is true exactly when the LRS server is `self` |
| `Cds.AdmitResource` | xds/internal/client/cds.go:62-80 | a resource is admitted exactly when it decodes to a Cluster that passes validation; an undecodable resource is an unmarshal error, a non-Cluster is an unexpected-type error, and a rejected cluster carries its validation reason; an admitted update's service name is the EDS service name, or the cluster's name when that is empty |
| `Cds.ScanBatch` | xds/internal/client/cds.go:60-86 | the first rejected resource fails the batch; otherwise a fresh map of each name to its admitted update, and the update of the last resource named `target[0]`; a successful non-empty batch has its first resource admitted |
| `Cds.ScanFailsOnFirstRejected` | xds/internal/client/cds.go:62-74 | a batch fails exactly when some resource is rejected, and then with the first rejected resource's error, even if earlier resources were valid |
| `Cds.ScanCacheKeys` | xds/internal/client/cds.go:61-86 | the cache built from a good batch has as keys exactly the batch's cluster names |
| `Cds.ScanCacheLastWins` | xds/internal/client/cds.go:76-81 | each cached name maps to the admitted update of the last resource with that name |
| `Cds.ScanMatchedIsLastTarget` | xds/internal/client/cds.go:82-84 | the watcher's update is that of the last resource named `target[0]`, or the zero update when none has that name |
| `Cds.DeliveredUpdateIsCached` | xds/internal/client/cds.go:81-93 | when the target is in the batch, the update passed to the callback is the one the new cache holds for it |
| `Cds.CallbackErrorIffTargetAbsent` | xds/internal/client/cds.go:88-91 | for a non-empty target name, the callback gets an error exactly when the target is absent from the batch |
| `Cds.EmptyTargetFoundYetReported` | xds/internal/client/cds.go:78-91 | for an empty target name the error does not mean "absent": a cluster named "" with no EDS service name is found and still reported as an error |
| `CdsClient.V2Client.HandleCDSResponse` | xds/internal/client/cds.go:51-95 | with no watcher it fails with no change; a rejected resource fails the call with that resource's error and leaves the cache, the timer and the callback log alone; a good batch replaces the cache by the batch's own map (keys exactly the batch names, not merged), stops the timer and logs exactly one callback with the matched update and an error iff its service name is empty |
| `CdsClient.ScanFailurePropagates` | xds/internal/client/cds.go:62-74 | once a prefix of the batch fails, the whole batch fails with the same error, so the handler's early returns agree with the batch's meaning |
| `CdsClient.CdsWatcher.StopTimer` | xds/internal/client/cds.go:92 | the timer is stopped; the targets and the callback log are unchanged |
| `CdsClient.CdsWatcher.Callback` | xds/internal/client/cds.go:93 | appends one invocation, with its update and error flag, to the callback log |

## Left out

- The client's mutex (`v2c.mu`) and any race between the expiry timer and a response. `HandleCDSResponse` is one atomic method.
- The expiry timer itself. Only its stopped flag is kept.
- Watcher registration and overwrite, and the timeout path. The CDS watcher is set by assigning `cdsWatcher`. Registration and timeout are not part of this model.
- Protobuf `Any` unmarshalling and the dynamic type assertion. A resource arrives as the three-way `Envelope`.
- The contents of the node proto. `Node` is a wrapper around an id.
- The text of error messages, and the `grpclog` warning in `sendCDS`.
- The stream transport. Whether `Send` fails is the parameter `transportFails`.
- The value of `clusterURL`. It is declared outside `cds.go`. The model uses the v2 Cluster type URL, `type.googleapis.com/envoy.api.v2.Cluster`.
- Unknown numeric enum values and a custom cluster type. An unknown `DiscoveryType` value, or a custom type set in the `cluster_type` oneof, makes `GetType()` differ from EDS, so it fails the type guard at `cds.go:100` like the non-EDS types modelled. An unknown `LbPolicy` value fails the lb-policy guard at `cds.go:104` like every policy other than ROUND_ROBIN.
- CdsClient.V2Client.HandleCDSResponse: requires the watcher's target list to be non-empty whenever the first resource of the batch is admitted. The loop compares `target[0]` once the first resource passes, so the code would panic there. A batch that is empty or whose first resource is rejected never indexes the target, and the model handles it like the code.
- CdsClient.V2Client.HandleCDSResponse: the callback is invoked on every good batch. The code keeps no "already notified" state, so a second good response to the same watcher calls it again. The model follows the code.
