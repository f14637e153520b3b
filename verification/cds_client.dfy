/**
 * The stateful part of the CDS response path: the single CDS watcher, the
 * client's cluster cache, the response handler that updates both, and the
 * request sender.
 */
module CdsClient {
  import opened Wrappers
  import opened CdsTypes
  import opened Cds

  /**
   * The registered CDS watch (`watchInfo`): the watched names, whether its
   * expiry timer has been stopped, and the log of its callback invocations,
   * each an update with "the error passed was non-nil".
   */
  class CdsWatcher {
    var target: seq<string>
    var timerStopped: bool
    ghost var calls: seq<(CdsUpdate, bool)>

    /** A freshly registered watch: timer armed, callback not yet invoked. */
    constructor (target: seq<string>)
      ensures this.target == target && !timerStopped && calls == []
    {
      this.target := target;
      timerStopped := false;
      calls := [];
    }

    /** `stopTimer`: disarms the expiry timer. */
    method StopTimer()
      modifies this
      ensures timerStopped
      ensures target == old(target) && calls == old(calls)
    {
      timerStopped := true;
    }

    /** Invokes the watcher's callback with `update` and an error that is non-nil iff `failed`. */
    method Callback(update: CdsUpdate, failed: bool)
      modifies this
      ensures calls == old(calls) + [(update, failed)]
      ensures target == old(target) && timerStopped == old(timerStopped)
    {
      calls := calls + [(update, failed)];
    }
  }

  /**
   * The outbound half of the ADS stream: `sent` records every request handed
   * to it. Whether the transport accepts a request is not decided here.
   */
  class AdsStream {
    var sent: seq<DiscoveryRequest>

    constructor ()
      ensures sent == []
    {
      sent := [];
    }

    /** `Send`: hands `req` to the transport, whose failure is `transportFails`. */
    method Send(req: DiscoveryRequest, transportFails: bool) returns (ok: bool)
      modifies this
      ensures ok == !transportFails
      ensures sent == old(sent) + [req]
    {
      sent := sent + [req];
      ok := !transportFails;
    }
  }

  /** The CDS-related state of `v2Client`. */
  class V2Client {
    var nodeProto: Node
    var cdsCache: map<string, CdsUpdate>
    /** `watchMap[cdsResource]`; null when no CDS watch is registered. */
    var cdsWatcher: CdsWatcher?

    constructor (node: Node)
      ensures nodeProto == node && cdsCache == map[] && cdsWatcher == null
    {
      nodeProto := node;
      cdsCache := map[];
      cdsWatcher := null;
    }

    /** `sendCDS`: sends a CDS request for `clusterName` and reports whether the send succeeded. */
    method SendCDS(stream: AdsStream, clusterName: seq<string>, transportFails: bool) returns (ok: bool)
      modifies stream
      ensures ok == !transportFails
      ensures stream.sent == old(stream.sent) + [NewCDSRequest(nodeProto, clusterName)]
    {
      ok := stream.Send(NewCDSRequest(nodeProto, clusterName), transportFails);
    }

    /**
     * `handleCDSResponse` on a response whose resources are `resources`.
     * Without a watcher it fails and changes nothing. A batch with a rejected
     * resource fails with that resource's error and changes nothing. A good
     * batch replaces the cache by the batch's own, stops the watcher's timer
     * and invokes its callback once, with an error iff the update's service
     * name is empty.
     */
    method HandleCDSResponse(resources: seq<Envelope>) returns (err: Option<HandleError>)
      requires cdsWatcher != null ==> TargetIndexable(resources, cdsWatcher.target)
      modifies this`cdsCache, cdsWatcher
      ensures cdsWatcher == old(cdsWatcher) && nodeProto == old(nodeProto)
      ensures old(cdsWatcher) == null ==> err == Some(NoWatcher) && cdsCache == old(cdsCache)
      ensures cdsWatcher != null ==>
                cdsWatcher.target == old(cdsWatcher.target) &&
                match ScanBatch(resources, cdsWatcher.target)
                case Failure(e) =>
                  err == Some(e) && cdsCache == old(cdsCache) &&
                  cdsWatcher.timerStopped == old(cdsWatcher.timerStopped) &&
                  cdsWatcher.calls == old(cdsWatcher.calls)
                case Success(s) =>
                  err == None && cdsCache == s.cache && cdsCache.Keys == Names(resources) &&
                  cdsWatcher.timerStopped &&
                  cdsWatcher.calls == old(cdsWatcher.calls) + [(s.matched, s.matched.serviceName == "")]
    {
      var wi := cdsWatcher;
      if wi == null {
        return Some(NoWatcher);
      }

      var returnUpdate := ZeroUpdate;
      var localCache: map<string, CdsUpdate> := map[];
      var i := 0;
      while i < |resources|
        invariant 0 <= i <= |resources|
        invariant ScanBatch(resources[..i], wi.target) == Success(Scan(localCache, returnUpdate))
      {
        var r := resources[i];
        assert resources[..i + 1][..i] == resources[..i];
        if r.DecodeError? {
          ScanFailurePropagates(resources, wi.target, i + 1);
          return Some(UnmarshalFailed);
        }
        if !r.ClusterRes? {
          ScanFailurePropagates(resources, wi.target, i + 1);
          return Some(UnexpectedResourceType);
        }
        var cluster := r.cluster;
        var v := ValidateCluster(cluster);
        if v.err.Some? {
          ScanFailurePropagates(resources, wi.target, i + 1);
          return Some(Invalid(v.err.value));
        }
        var update := v.update;
        // A cluster that names no EDS service is looked up under its own name.
        if update.serviceName == "" {
          update := update.(serviceName := cluster.name);
        }
        localCache := localCache[cluster.name := update];
        if cluster.name == wi.target[0] {
          returnUpdate := update;
        }
        i := i + 1;
      }
      assert resources[..i] == resources;
      ScanCacheKeys(resources, wi.target);
      cdsCache := localCache;

      var failed := returnUpdate.serviceName == "";
      wi.StopTimer();
      wi.Callback(returnUpdate, failed);
      return None;
    }
  }

  /** A batch whose prefix of length `n` fails, fails with the same error. */
  lemma {:induction false} ScanFailurePropagates(rs: seq<Envelope>, target: seq<string>, n: nat)
    requires n <= |rs| && TargetIndexable(rs, target)
    requires ScanBatch(rs[..n], target).Failure?
    ensures ScanBatch(rs, target) == ScanBatch(rs[..n], target)
    decreases |rs| - n
  {
    if n < |rs| {
      assert rs[..n + 1][..n] == rs[..n];
      ScanFailurePropagates(rs, target, n + 1);
    } else {
      assert rs[..n] == rs;
    }
  }

  /**
   * The concrete scenario of a good batch holding the target: the callback
   * gets the cluster's own name as service name and no error, and the cache
   * holds that same update.
   */
  method TargetFoundScenario()
  {
    var c := new V2Client(Node("node"));
    var w := new CdsWatcher(["A"]);
    c.cdsWatcher := w;
    var a := ClusterRes(Cluster("A", Eds, true, "", RoundRobin, false));
    var err := c.HandleCDSResponse([a]);
    assert NameOf(a) == "A";
    assert err == None;
    assert w.timerStopped;
    assert w.calls == [(CdsUpdate("A", false), false)];
    assert c.cdsCache == map["A" := CdsUpdate("A", false)];
  }

  /**
   * The concrete scenario of a batch with a non-EDS cluster: the call fails
   * with a validation error, the cache keeps its earlier contents and the
   * callback is not invoked.
   */
  method InvalidClusterScenario()
  {
    var c := new V2Client(Node("node"));
    var w := new CdsWatcher(["B"]);
    c.cdsWatcher := w;
    var good := ClusterRes(Cluster("A", Eds, true, "svc", RoundRobin, true));
    var err := c.HandleCDSResponse([good]);
    assert c.cdsCache == map["A" := CdsUpdate("svc", true)];
    var bad := ClusterRes(Cluster("B", Static, true, "", RoundRobin, false));
    err := c.HandleCDSResponse([good, bad]);
    assert AdmitResource(bad) == Failure(Invalid(UnexpectedClusterType));
    assert err == Some(Invalid(UnexpectedClusterType));
    assert c.cdsCache == map["A" := CdsUpdate("svc", true)];
    assert |w.calls| == 1;
  }

  /**
   * A watcher with no target names and a batch whose first resource does not
   * decode: the call fails with the unmarshal error before any name is
   * compared with the target.
   */
  method RejectedFirstWithoutTargetScenario()
  {
    var c := new V2Client(Node("node"));
    var w := new CdsWatcher([]);
    c.cdsWatcher := w;
    var err := c.HandleCDSResponse([DecodeError, NotCluster]);
    assert err == Some(UnmarshalFailed);
    assert c.cdsCache == map[];
    assert !w.timerStopped && w.calls == [];
  }
}
