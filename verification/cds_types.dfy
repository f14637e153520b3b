/**
 * The data model of the Cluster Discovery Service (CDS) response path of the
 * xDS v2 client: the parts of an Envoy `Cluster` resource that the client
 * reads, the envelope a resource arrives in, the update the client derives
 * from a cluster, the discovery request it sends, and the error tags.
 */
module CdsTypes {

  /** Envoy's `Cluster.DiscoveryType` enum. */
  datatype DiscoveryType = Static | StrictDns | LogicalDns | Eds | OriginalDst

  /** Envoy's `Cluster.LbPolicy` enum. */
  datatype LbPolicy =
    | RoundRobin | LeastRequest | RingHash | Random | OriginalDstLb
    | Maglev | ClusterProvided | LoadBalancingPolicyConfig

  /**
   * The fields of a decoded `Cluster` message that validation reads.
   * `hasAds` is "the EDS cluster config's EDS config source is ADS";
   * `edsServiceName` is the EDS cluster config's service name ("" when unset);
   * `lrsSelf` is "the LRS server config source has its `self` field set".
   */
  datatype Cluster = Cluster(
    name: string,
    ctype: DiscoveryType,
    hasAds: bool,
    edsServiceName: string,
    lbPolicy: LbPolicy,
    lrsSelf: bool)

  /**
   * A resource of a response, as protobuf `Any` unmarshalling leaves it:
   * undecodable, a message of some other type, or a `Cluster`.
   */
  datatype Envelope = DecodeError | NotCluster | ClusterRes(cluster: Cluster)

  /** `cdsUpdate`: what the client keeps per cluster and hands to the watcher. */
  datatype CdsUpdate = CdsUpdate(serviceName: string, doLRS: bool)

  /** Go's zero value of `cdsUpdate`; also validation's `emptyUpdate`. */
  const ZeroUpdate := CdsUpdate("", false)

  /** Why `validateCluster` rejects a cluster, one tag per guard. */
  datatype ValidationError = UnexpectedClusterType | UnexpectedEdsConfig | UnexpectedLbPolicy

  /** Why `handleCDSResponse` fails as a whole. */
  datatype HandleError =
    | NoWatcher
    | UnmarshalFailed
    | UnexpectedResourceType
    | Invalid(reason: ValidationError)

  /** The client's node identity; its contents are not modelled. */
  datatype Node = Node(id: string)

  /** The fields of a `DiscoveryRequest` that the CDS request sets. */
  datatype DiscoveryRequest = DiscoveryRequest(node: Node, typeUrl: string, resourceNames: seq<string>)

  /** The type URL of a v2 `Cluster` resource. */
  const ClusterUrl: string := "type.googleapis.com/envoy.api.v2.Cluster"
}
