/**
 * The pure part of the CDS response path: building the request, validating
 * one cluster, admitting one resource of a response, and the meaning of a
 * whole response batch (`ScanBatch`), with the properties of that meaning.
 */
module Cds {
  import opened Wrappers
  import opened CdsTypes

  /** `newCDSRequest`: a request for the clusters named `clusterName`. */
  function NewCDSRequest(node: Node, clusterName: seq<string>): (r: DiscoveryRequest)
    ensures r.typeUrl == ClusterUrl
    ensures r.resourceNames == clusterName && r.node == node
  {
    DiscoveryRequest(node, ClusterUrl, clusterName)
  }

  /** The three guards of `validateCluster`, all passed. */
  predicate Supported(c: Cluster)
  {
    c.ctype == Eds && c.hasAds && c.lbPolicy == RoundRobin
  }

  /** `validateCluster` returns an update together with a possibly nil error. */
  datatype Validated = Validated(update: CdsUpdate, err: Option<ValidationError>)

  /**
   * `validateCluster`: the guards are tried in order (type, then EDS config
   * source, then lb policy) and the first one that fails decides the error;
   * a rejection carries the empty update.
   */
  function ValidateCluster(c: Cluster): (r: Validated)
    ensures r.err.None? <==> Supported(c)
    ensures r.err == Some(UnexpectedClusterType) <==> c.ctype != Eds
    ensures r.err == Some(UnexpectedEdsConfig) <==> c.ctype == Eds && !c.hasAds
    ensures r.err == Some(UnexpectedLbPolicy) <==>
              c.ctype == Eds && c.hasAds && c.lbPolicy != RoundRobin
    ensures r.err.Some? ==> r.update == ZeroUpdate
    ensures r.err.None? ==> r.update.serviceName == c.edsServiceName
    ensures r.err.None? ==> (r.update.doLRS <==> c.lrsSelf)
  {
    var emptyUpdate := CdsUpdate("", false);
    if c.ctype != Eds then
      Validated(emptyUpdate, Some(UnexpectedClusterType))
    else if !c.hasAds then
      Validated(emptyUpdate, Some(UnexpectedEdsConfig))
    else if c.lbPolicy != RoundRobin then
      Validated(emptyUpdate, Some(UnexpectedLbPolicy))
    else
      Validated(CdsUpdate(c.edsServiceName, c.lrsSelf), None)
  }

  /** The name a resource is cached under ("" for a resource that is not a cluster). */
  function NameOf(e: Envelope): (name: string)
  {
    if e.ClusterRes? then e.cluster.name else ""
  }

  /**
   * One iteration of the loop of `handleCDSResponse` up to the cache insert:
   * unwrap the envelope, check it holds a `Cluster`, validate it, and fall
   * back to the cluster's own name when it names no EDS service.
   */
  function AdmitResource(e: Envelope): (r: Result<CdsUpdate, HandleError>)
    ensures r.Success? <==> e.ClusterRes? && Supported(e.cluster)
    ensures e.DecodeError? ==> r == Failure(UnmarshalFailed)
    ensures e.NotCluster? ==> r == Failure(UnexpectedResourceType)
    ensures e.ClusterRes? && !Supported(e.cluster) ==>
              r.Failure? && r.error.Invalid? && ValidateCluster(e.cluster).err == Some(r.error.reason)
    ensures r.Success? ==>
              r.value.serviceName ==
                (if e.cluster.edsServiceName == "" then e.cluster.name else e.cluster.edsServiceName)
    ensures r.Success? ==> (r.value.doLRS <==> e.cluster.lrsSelf)
    ensures r.Success? && r.value.serviceName == "" ==> NameOf(e) == ""
  {
    match e
    case DecodeError => Failure(UnmarshalFailed)
    case NotCluster => Failure(UnexpectedResourceType)
    case ClusterRes(c) =>
      var v := ValidateCluster(c);
      if v.err.Some? then Failure(Invalid(v.err.value))
      else if v.update.serviceName == "" then Success(v.update.(serviceName := c.name))
      else Success(v.update)
  }

  /**
   * The loop compares names with `target[0]` from the first admitted
   * resource on; a batch whose first resource is rejected never reaches it.
   */
  predicate TargetIndexable(rs: seq<Envelope>, target: seq<string>)
  {
    |rs| > 0 && AdmitResource(rs[0]).Success? ==> |target| > 0
  }

  /** What a fully processed batch yields: the replacement cache and the update for the watcher. */
  datatype Scan = Scan(cache: map<string, CdsUpdate>, matched: CdsUpdate)

  /**
   * The meaning of the loop of `handleCDSResponse` over the resources `rs`:
   * the first rejected resource fails the batch; otherwise each resource is
   * stored under its name in a fresh map, and the watcher's update is the one
   * of the resource named `target[0]`, a later one overriding an earlier one.
   * The target is only indexed once a resource has been admitted, that is,
   * when the first resource is.
   */
  function ScanBatch(rs: seq<Envelope>, target: seq<string>): (r: Result<Scan, HandleError>)
    requires TargetIndexable(rs, target)
    ensures r.Success? && |rs| > 0 ==> AdmitResource(rs[0]).Success?
  {
    if rs == [] then Success(Scan(map[], ZeroUpdate))
    else
      var e := rs[|rs| - 1];
      match ScanBatch(rs[..|rs| - 1], target)
      case Failure(err) => Failure(err)
      case Success(s) =>
        match AdmitResource(e)
        case Failure(err) => Failure(err)
        case Success(u) =>
          Success(Scan(s.cache[NameOf(e) := u], if NameOf(e) == target[0] then u else s.matched))
  }

  /** Every resource of `rs` is admitted. */
  predicate AllAdmitted(rs: seq<Envelope>)
  {
    forall i :: 0 <= i < |rs| ==> AdmitResource(rs[i]).Success?
  }

  /** `k` is the first resource of `rs` that is rejected. */
  predicate FirstRejected(rs: seq<Envelope>, k: int)
  {
    0 <= k < |rs| && AdmitResource(rs[k]).Failure? &&
    forall j :: 0 <= j < k ==> AdmitResource(rs[j]).Success?
  }

  /** No later resource of `rs` carries the name of resource `i`. */
  predicate LastNamed(rs: seq<Envelope>, i: int)
  {
    0 <= i < |rs| && forall j :: i < j < |rs| ==> NameOf(rs[j]) != NameOf(rs[i])
  }

  /** The names of the resources of `rs`. */
  function Names(rs: seq<Envelope>): (names: set<string>)
  {
    set i | 0 <= i < |rs| :: NameOf(rs[i])
  }

  /**
   * A batch fails exactly when one of its resources is rejected, and then
   * with the error of the first rejected resource, whatever came before it.
   */
  lemma {:induction false} ScanFailsOnFirstRejected(rs: seq<Envelope>, target: seq<string>)
    requires TargetIndexable(rs, target)
    ensures ScanBatch(rs, target).Success? <==> AllAdmitted(rs)
    ensures forall k :: FirstRejected(rs, k) ==>
              ScanBatch(rs, target) == Failure(AdmitResource(rs[k]).error)
  {
    if rs != [] {
      var p := rs[..|rs| - 1];
      ScanFailsOnFirstRejected(p, target);
      assert forall i :: 0 <= i < |p| ==> p[i] == rs[i];
      forall k | FirstRejected(rs, k)
        ensures ScanBatch(rs, target) == Failure(AdmitResource(rs[k]).error)
      {
        if k < |p| {
          assert FirstRejected(p, k);
        } else {
          assert AllAdmitted(p);
        }
      }
      if AllAdmitted(rs) {
        assert AllAdmitted(p);
      }
      if ScanBatch(rs, target).Success? {
        assert AllAdmitted(p);
      }
    }
  }

  /** The names of a batch are those of its prefix and of its last resource. */
  lemma NamesSnoc(rs: seq<Envelope>)
    requires rs != []
    ensures Names(rs) == Names(rs[..|rs| - 1]) + {NameOf(rs[|rs| - 1])}
  {
  }

  /** A successful non-empty batch is a successful prefix extended by one admitted resource. */
  lemma ScanSnoc(rs: seq<Envelope>, target: seq<string>)
    requires rs != [] && |target| > 0
    requires ScanBatch(rs, target).Success?
    ensures ScanBatch(rs[..|rs| - 1], target).Success?
    ensures AdmitResource(rs[|rs| - 1]).Success?
    ensures var s := ScanBatch(rs[..|rs| - 1], target).value;
            var e := rs[|rs| - 1];
            var u := AdmitResource(e).value;
            ScanBatch(rs, target).value ==
              Scan(s.cache[NameOf(e) := u], if NameOf(e) == target[0] then u else s.matched)
  {
  }

  /** A successful batch yields a cache whose keys are exactly the names in the batch. */
  lemma {:induction false} ScanCacheKeys(rs: seq<Envelope>, target: seq<string>)
    requires TargetIndexable(rs, target)
    requires ScanBatch(rs, target).Success?
    ensures ScanBatch(rs, target).value.cache.Keys == Names(rs)
  {
    if rs != [] {
      ScanSnoc(rs, target);
      ScanCacheKeys(rs[..|rs| - 1], target);
      NamesSnoc(rs);
    }
  }

  /**
   * In the cache of a successful batch, each name is bound to the update of
   * the last resource with that name.
   */
  lemma {:induction false} ScanCacheLastWins(rs: seq<Envelope>, target: seq<string>)
    requires TargetIndexable(rs, target)
    requires ScanBatch(rs, target).Success?
    ensures forall i :: LastNamed(rs, i) ==>
              AdmitResource(rs[i]).Success? &&
              NameOf(rs[i]) in ScanBatch(rs, target).value.cache &&
              ScanBatch(rs, target).value.cache[NameOf(rs[i])] == AdmitResource(rs[i]).value
  {
    if rs != [] {
      var p := rs[..|rs| - 1];
      var e := rs[|rs| - 1];
      ScanSnoc(rs, target);
      ScanCacheLastWins(p, target);
      var pc := ScanBatch(p, target).value.cache;
      var c := ScanBatch(rs, target).value.cache;
      assert c == pc[NameOf(e) := AdmitResource(e).value];
      forall i | LastNamed(rs, i)
        ensures AdmitResource(rs[i]).Success? && NameOf(rs[i]) in c &&
                c[NameOf(rs[i])] == AdmitResource(rs[i]).value
      {
        if i < |p| {
          assert rs[i] == p[i];
          assert NameOf(rs[i]) != NameOf(e);
          assert LastNamed(p, i);
        }
      }
    }
  }

  /**
   * The watcher's update is that of the last resource named `target[0]`, or
   * the zero update when no resource has that name.
   */
  lemma {:induction false} ScanMatchedIsLastTarget(rs: seq<Envelope>, target: seq<string>)
    requires |target| > 0
    requires ScanBatch(rs, target).Success?
    ensures target[0] !in Names(rs) ==> ScanBatch(rs, target).value.matched == ZeroUpdate
    ensures forall i :: LastNamed(rs, i) && NameOf(rs[i]) == target[0] ==>
              AdmitResource(rs[i]).Success? &&
              ScanBatch(rs, target).value.matched == AdmitResource(rs[i]).value
  {
    if rs != [] {
      var p := rs[..|rs| - 1];
      var e := rs[|rs| - 1];
      ScanSnoc(rs, target);
      ScanMatchedIsLastTarget(p, target);
      var pm := ScanBatch(p, target).value.matched;
      var m := ScanBatch(rs, target).value.matched;
      assert m == if NameOf(e) == target[0] then AdmitResource(e).value else pm;
      if target[0] !in Names(rs) {
        NamesSnoc(rs);
      }
      forall i | LastNamed(rs, i) && NameOf(rs[i]) == target[0]
        ensures AdmitResource(rs[i]).Success? && m == AdmitResource(rs[i]).value
      {
        if i < |p| {
          assert rs[i] == p[i];
          assert NameOf(e) != target[0];
          assert LastNamed(p, i);
        }
      }
    }
  }

  /** Every name in a batch has a last resource carrying it. */
  lemma {:induction false} LastNamedExists(rs: seq<Envelope>, n: string)
    requires n in Names(rs)
    ensures exists i :: LastNamed(rs, i) && NameOf(rs[i]) == n
  {
    var p := rs[..|rs| - 1];
    if NameOf(rs[|rs| - 1]) == n {
      assert LastNamed(rs, |rs| - 1);
    } else {
      var k :| 0 <= k < |rs| && NameOf(rs[k]) == n;
      assert NameOf(p[k]) == n;
      LastNamedExists(p, n);
      var i :| LastNamed(p, i) && NameOf(p[i]) == n;
      assert rs[i] == p[i];
      assert LastNamed(rs, i);
    }
  }

  /**
   * When the target is in the batch, the update delivered to the watcher is
   * the one the new cache holds for the target.
   */
  lemma {:induction false} DeliveredUpdateIsCached(rs: seq<Envelope>, target: seq<string>)
    requires |target| > 0
    requires ScanBatch(rs, target).Success?
    requires target[0] in Names(rs)
    ensures target[0] in ScanBatch(rs, target).value.cache
    ensures ScanBatch(rs, target).value.cache[target[0]] == ScanBatch(rs, target).value.matched
  {
    ScanCacheLastWins(rs, target);
    ScanMatchedIsLastTarget(rs, target);
    LastNamedExists(rs, target[0]);
  }

  /**
   * The watcher's error (an empty service name in its update) means "target
   * absent from the batch" whenever the target name is not empty.
   */
  lemma {:induction false} CallbackErrorIffTargetAbsent(rs: seq<Envelope>, target: seq<string>)
    requires |target| > 0 && target[0] != ""
    requires ScanBatch(rs, target).Success?
    ensures ScanBatch(rs, target).value.matched.serviceName == "" <==> target[0] !in Names(rs)
  {
    ScanMatchedIsLastTarget(rs, target);
    if target[0] in Names(rs) {
      LastNamedExists(rs, target[0]);
    }
  }

  /**
   * With an empty target name the error is not "target absent": a cluster
   * named "" with no EDS service name is found and still reported as an error.
   */
  lemma EmptyTargetFoundYetReported()
    ensures var rs := [ClusterRes(Cluster("", Eds, true, "", RoundRobin, false))];
            ScanBatch(rs, [""]).Success? && "" in Names(rs) &&
            ScanBatch(rs, [""]).value.matched.serviceName == ""
  {
    var rs := [ClusterRes(Cluster("", Eds, true, "", RoundRobin, false))];
    assert NameOf(rs[0]) == "";
  }
}
