/**
 * The plan-node tree a fragment owns, and the two placement walks over it:
 * the region walk (which replica set a fragment must run on) and the
 * location walk (which data node runs a node-bound fragment).
 *
 * Both walks are pre-order and first-match. Each is given twice: as the
 * source writes it (a recursive walk whose loop over the children returns
 * early), and as a reference definition (the "frontier" of nodes at which
 * the walk stops descending, in pre-order, and the first useful answer on
 * it). The characterisation lemmas show the two agree.
 */
module PlanNodes {
  import opened Results

  type PlanNodeId = string

  datatype DataNodeLocation = DataNodeLocation(dataNodeId: int)

  datatype ReplicaSet = ReplicaSet(regionId: int, dataNodeLocations: seq<DataNodeLocation>)

  /** A replica-set reference: Java null, the NOT_ASSIGNED sentinel, or a real region. */
  datatype RegionAnswer = NoRegion | NotAssigned | Region(replicaSet: ReplicaSet)

  /** The node variants the walks and the decoder tell apart. */
  datatype NodeKind =
    | VirtualSource(dataNodeLocation: Option<DataNodeLocation>)
    | InformationSchemaTableScan(regionReplicaSet: Option<ReplicaSet>)
    | AlignedSeriesScan
    | AlignedSeriesAggregationScan
    | OtherNode

  /**
   * A plan node. `partitionRegion` is Some(r) exactly when the node is an
   * IPartitionRelatedNode, r being what its getRegionReplicaSet() returns.
   */
  datatype PlanNode = PlanNode(
    id: PlanNodeId,
    kind: NodeKind,
    partitionRegion: Option<RegionAnswer>,
    children: seq<PlanNode>)

  /** An entry of the table-model node-distribution map. */
  datatype NodeDistribution = NodeDistribution(region: RegionAnswer)

  type DistributionMap = map<PlanNodeId, NodeDistribution>

  // ---------------------------------------------------------------------
  // Region walk
  // ---------------------------------------------------------------------

  /** The region of the subtree at `n`, as getNodeRegion computes it. */
  function NodeRegion(n: PlanNode, distribution: DistributionMap): (r: RegionAnswer)
    ensures EndsRegionWalk(n, distribution) ==> r == OwnRegion(n, distribution)
    ensures !EndsRegionWalk(n, distribution) ==> r.Region? || r.NoRegion?
    decreases n, 1
  {
    if n.id in distribution then distribution[n.id].region
    else if n.partitionRegion.Some? then n.partitionRegion.value
    else ChildrenRegion(n, distribution, 0)
  }

  /** The loop over the children from index `i` on: the first real region, or null. */
  function ChildrenRegion(n: PlanNode, distribution: DistributionMap, i: nat): (r: RegionAnswer)
    requires i <= |n.children|
    ensures r.Region? || r.NoRegion?
    decreases n, 0, |n.children| - i
  {
    if i == |n.children| then NoRegion
    else
      var result := NodeRegion(n.children[i], distribution);
      if result.Region? then result else ChildrenRegion(n, distribution, i + 1)
  }

  /** The walk stops at `n`: the map overrides it, or it is partition-related. */
  predicate EndsRegionWalk(n: PlanNode, distribution: DistributionMap)
  {
    n.id in distribution || n.partitionRegion.Some?
  }

  /** What a stopping node answers; the map takes precedence over the node's own region. */
  function OwnRegion(n: PlanNode, distribution: DistributionMap): RegionAnswer
    requires EndsRegionWalk(n, distribution)
  {
    if n.id in distribution then distribution[n.id].region else n.partitionRegion.value
  }

  /** The answers of the stopping nodes of the subtree, in pre-order. */
  function RegionFrontier(n: PlanNode, distribution: DistributionMap): seq<RegionAnswer>
    decreases n, 1
  {
    if EndsRegionWalk(n, distribution) then [OwnRegion(n, distribution)]
    else RegionFrontierFrom(n, distribution, 0)
  }

  function RegionFrontierFrom(n: PlanNode, distribution: DistributionMap, i: nat): seq<RegionAnswer>
    requires i <= |n.children|
    decreases n, 0, |n.children| - i
  {
    if i == |n.children| then []
    else RegionFrontier(n.children[i], distribution) + RegionFrontierFrom(n, distribution, i + 1)
  }

  /** The first real region of a sequence of answers, or null when there is none. */
  function FirstAssigned(s: seq<RegionAnswer>): (r: RegionAnswer)
    ensures r.Region? || r.NoRegion?
    ensures r.Region? ==> r in s
    ensures r.NoRegion? <==> forall k :: 0 <= k < |s| ==> !s[k].Region?
  {
    if s == [] then NoRegion
    else if s[0].Region? then s[0]
    else FirstAssigned(s[1..])
  }

  lemma {:induction false} FirstAssignedAppend(a: seq<RegionAnswer>, b: seq<RegionAnswer>)
    ensures FirstAssigned(a + b) == if FirstAssigned(a).Region? then FirstAssigned(a) else FirstAssigned(b)
  {
    if a != [] {
      assert (a + b)[1..] == a[1..] + b;
      FirstAssignedAppend(a[1..], b);
    } else {
      assert a + b == b;
    }
  }

  /** A stop-anywhere answer seen from the parent's loop: only a real region counts. */
  function AsChildResult(r: RegionAnswer): RegionAnswer
  {
    if r.Region? then r else NoRegion
  }

  lemma {:induction false} ChildRegionMatchesFrontier(n: PlanNode, distribution: DistributionMap)
    ensures AsChildResult(NodeRegion(n, distribution)) == FirstAssigned(RegionFrontier(n, distribution))
    decreases n, 1
  {
    if EndsRegionWalk(n, distribution) {
      var own := OwnRegion(n, distribution);
      assert [own][1..] == [];
    } else {
      ChildrenRegionMatchesFrontier(n, distribution, 0);
    }
  }

  lemma {:induction false} ChildrenRegionMatchesFrontier(n: PlanNode, distribution: DistributionMap, i: nat)
    requires i <= |n.children|
    ensures ChildrenRegion(n, distribution, i) == FirstAssigned(RegionFrontierFrom(n, distribution, i))
    decreases n, 0, |n.children| - i
  {
    if i < |n.children| {
      var c := n.children[i];
      ChildRegionMatchesFrontier(c, distribution);
      ChildrenRegionMatchesFrontier(n, distribution, i + 1);
      FirstAssignedAppend(RegionFrontier(c, distribution), RegionFrontierFrom(n, distribution, i + 1));
    }
  }

  /**
   * The region walk, characterised: a stopping root answers for itself
   * (even with null or NOT_ASSIGNED); otherwise the answer is the first real
   * region among the pre-order stopping nodes, whose subtrees are not entered.
   */
  lemma RegionWalkIsFirstAssignedOnFrontier(n: PlanNode, distribution: DistributionMap)
    ensures NodeRegion(n, distribution) ==
      if EndsRegionWalk(n, distribution) then OwnRegion(n, distribution)
      else FirstAssigned(RegionFrontier(n, distribution))
  {
    if !EndsRegionWalk(n, distribution) {
      ChildrenRegionMatchesFrontier(n, distribution, 0);
    }
  }

  /** No node of the subtree is overridden by the map or partition-related. */
  ghost predicate NoRegionSource(n: PlanNode, distribution: DistributionMap)
    decreases n
  {
    && !EndsRegionWalk(n, distribution)
    && forall i :: 0 <= i < |n.children| ==> NoRegionSource(n.children[i], distribution)
  }

  lemma {:induction false} NoSourceEmptyFrontier(n: PlanNode, distribution: DistributionMap, i: nat)
    requires NoRegionSource(n, distribution) && i <= |n.children|
    ensures RegionFrontierFrom(n, distribution, i) == []
    decreases n, |n.children| - i
  {
    if i < |n.children| {
      var c := n.children[i];
      assert NoRegionSource(c, distribution);
      NoSourceEmptyFrontier(c, distribution, 0);
      NoSourceEmptyFrontier(n, distribution, i + 1);
    }
  }

  /** A tree without any region source resolves to null, never to a default region. */
  lemma NoSourceResolvesToNull(n: PlanNode, distribution: DistributionMap)
    requires NoRegionSource(n, distribution)
    ensures NodeRegion(n, distribution) == NoRegion
  {
    NoSourceEmptyFrontier(n, distribution, 0);
    RegionWalkIsFirstAssignedOnFrontier(n, distribution);
  }

  /**
   * When the stopping nodes agree on one region (the planner puts all source
   * nodes of a fragment in one region) and at least one of them names it,
   * the walk resolves to that region.
   */
  lemma SingleRegionResolves(n: PlanNode, distribution: DistributionMap, rs: ReplicaSet)
    requires Region(rs) in RegionFrontier(n, distribution)
    requires forall a :: a in RegionFrontier(n, distribution) && a.Region? ==> a == Region(rs)
    ensures NodeRegion(n, distribution) == Region(rs)
  {
    RegionWalkIsFirstAssignedOnFrontier(n, distribution);
    var f := RegionFrontier(n, distribution);
    var k :| 0 <= k < |f| && f[k] == Region(rs);
    assert f[k].Region?;
  }

  // ---------------------------------------------------------------------
  // Location walk
  // ---------------------------------------------------------------------

  /** checkArgument's IllegalArgumentException. */
  datatype IllegalArgument = IllegalArgument(message: string)

  type LocationAnswer = Result<Option<DataNodeLocation>, IllegalArgument>

  /** An information-schema scan must carry exactly one data-node location. */
  function InformationSchemaLocation(regionReplicaSet: Option<ReplicaSet>): (r: LocationAnswer)
    ensures r.Success? <==> regionReplicaSet.Some? && |regionReplicaSet.value.dataNodeLocations| == 1
    ensures r.Success? ==> r.value == Some(regionReplicaSet.value.dataNodeLocations[0])
  {
    if regionReplicaSet.None? then
      Failure(IllegalArgument("InformationSchemaTableScanNode must have regionReplicaSet"))
    else if |regionReplicaSet.value.dataNodeLocations| != 1 then
      Failure(IllegalArgument("each InformationSchemaTableScanNode have only one DataNodeLocation"))
    else
      Success(Some(regionReplicaSet.value.dataNodeLocations[0]))
  }

  /** The location of the subtree at `n`, as getNodeLocation computes it. */
  function NodeLocation(n: PlanNode): (r: LocationAnswer)
    ensures n.kind.VirtualSource? ==> r == Success(n.kind.dataNodeLocation)
    ensures !EndsLocationWalk(n) && n.children == [] ==> r == Success(None)
    decreases n, 1
  {
    match n.kind
    case VirtualSource(location) => Success(location)
    case InformationSchemaTableScan(regionReplicaSet) => InformationSchemaLocation(regionReplicaSet)
    case _ => ChildrenLocation(n, 0)
  }

  /** The loop over the children from `i` on: an exception propagates, the first non-null wins. */
  function ChildrenLocation(n: PlanNode, i: nat): (r: LocationAnswer)
    requires i <= |n.children|
    ensures r.Failure? || r.value.Some? ==> i < |n.children|
    decreases n, 0, |n.children| - i
  {
    if i == |n.children| then Success(None)
    else
      var result := NodeLocation(n.children[i]);
      if result.Failure? || result.value.Some? then result else ChildrenLocation(n, i + 1)
  }

  predicate EndsLocationWalk(n: PlanNode)
  {
    n.kind.VirtualSource? || n.kind.InformationSchemaTableScan?
  }

  /** The answers of the node-bound nodes of the subtree, in pre-order. */
  function LocationFrontier(n: PlanNode): seq<LocationAnswer>
    decreases n, 1
  {
    if EndsLocationWalk(n) then [NodeLocation(n)] else LocationFrontierFrom(n, 0)
  }

  function LocationFrontierFrom(n: PlanNode, i: nat): seq<LocationAnswer>
    requires i <= |n.children|
    decreases n, 0, |n.children| - i
  {
    if i == |n.children| then [] else LocationFrontier(n.children[i]) + LocationFrontierFrom(n, i + 1)
  }

  /** The first answer that is an error or a location; null when every answer is null. */
  function FirstDecided(s: seq<LocationAnswer>): (r: LocationAnswer)
    ensures r != Success(None) ==> r in s
    ensures r == Success(None) <==> forall k :: 0 <= k < |s| ==> s[k] == Success(None)
  {
    if s == [] then Success(None)
    else if s[0] != Success(None) then s[0]
    else FirstDecided(s[1..])
  }

  lemma {:induction false} FirstDecidedAppend(a: seq<LocationAnswer>, b: seq<LocationAnswer>)
    ensures FirstDecided(a + b) == if FirstDecided(a) != Success(None) then FirstDecided(a) else FirstDecided(b)
  {
    if a != [] {
      assert (a + b)[1..] == a[1..] + b;
      FirstDecidedAppend(a[1..], b);
    } else {
      assert a + b == b;
    }
  }

  lemma {:induction false} NodeLocationMatchesFrontier(n: PlanNode)
    ensures NodeLocation(n) == FirstDecided(LocationFrontier(n))
    decreases n, 1
  {
    if EndsLocationWalk(n) {
      assert [NodeLocation(n)][1..] == [];
    } else {
      ChildrenLocationMatchesFrontier(n, 0);
    }
  }

  lemma {:induction false} ChildrenLocationMatchesFrontier(n: PlanNode, i: nat)
    requires i <= |n.children|
    ensures ChildrenLocation(n, i) == FirstDecided(LocationFrontierFrom(n, i))
    decreases n, 0, |n.children| - i
  {
    if i < |n.children| {
      var c := n.children[i];
      NodeLocationMatchesFrontier(c);
      ChildrenLocationMatchesFrontier(n, i + 1);
      FirstDecidedAppend(LocationFrontier(c), LocationFrontierFrom(n, i + 1));
    }
  }

  /**
   * The location walk, characterised: the answer is the first answer among
   * the pre-order virtual-source and information-schema nodes that is an
   * error or a location; other nodes only pass the walk on to their children.
   */
  lemma LocationWalkIsFirstDecidedOnFrontier(n: PlanNode)
    ensures NodeLocation(n) == FirstDecided(LocationFrontier(n))
    ensures NodeLocation(n).Failure? ==>
      exists k :: 0 <= k < |LocationFrontier(n)| && LocationFrontier(n)[k] == NodeLocation(n)
  {
    NodeLocationMatchesFrontier(n);
  }
}
