/**
 * A plan fragment: a placement-bound subtree of a distributed plan, with
 * its optional type provider, its root flag and its index in the
 * fragment-instance list. The placement queries delegate to the walks of
 * PlanNodes; the (de)serializers follow the layouts of FragmentWire.
 */
module PlanFragments {
  import opened Results
  import opened PlanNodes
  import opened FragmentWire

  class PlanFragment {
    const id: FragmentId
    var planNodeTree: Option<PlanNode>
    var typeProvider: Option<TypeProvider>
    var isRoot: bool
    var indexInFragmentInstanceList: int

    /** A new fragment is not the root and has no index yet (-1). */
    constructor (id: FragmentId, planNodeTree: Option<PlanNode>)
      ensures this.id == id && this.planNodeTree == planNodeTree
      ensures typeProvider == None && !isRoot && indexInFragmentInstanceList == -1
    {
      this.id := id;
      this.planNodeTree := planNodeTree;
      this.typeProvider := None;
      this.isRoot := false;
      this.indexInFragmentInstanceList := -1;
    }

    method SetIndexInFragmentInstanceList(index: int)
      modifies this
      ensures indexInFragmentInstanceList == index
      ensures planNodeTree == old(planNodeTree) && typeProvider == old(typeProvider) && isRoot == old(isRoot)
    {
      indexInFragmentInstanceList := index;
    }

    method SetPlanNodeTree(tree: Option<PlanNode>)
      modifies this
      ensures planNodeTree == tree
      ensures typeProvider == old(typeProvider) && isRoot == old(isRoot)
      ensures indexInFragmentInstanceList == old(indexInFragmentInstanceList)
    {
      planNodeTree := tree;
    }

    method SetTypeProvider(provider: Option<TypeProvider>)
      modifies this
      ensures typeProvider == provider
      ensures planNodeTree == old(planNodeTree) && isRoot == old(isRoot)
      ensures indexInFragmentInstanceList == old(indexInFragmentInstanceList)
    {
      typeProvider := provider;
    }

    method SetRoot(root: bool)
      modifies this
      ensures isRoot == root
      ensures planNodeTree == old(planNodeTree) && typeProvider == old(typeProvider)
      ensures indexInFragmentInstanceList == old(indexInFragmentInstanceList)
    {
      isRoot := root;
    }

    /**
     * Tree-model placement: the region walk with no overrides, so the answer
     * is the root's own region if it is partition-related, and otherwise the
     * first real region among the topmost partition-related nodes.
     */
    function TargetRegionForTreeModel(): (r: RegionAnswer)
      reads this
      requires planNodeTree.Some?
      ensures planNodeTree.value.partitionRegion.Some? ==> r == planNodeTree.value.partitionRegion.value
      ensures planNodeTree.value.partitionRegion.None? ==> r == FirstAssigned(RegionFrontier(planNodeTree.value, map[]))
    {
      RegionWalkIsFirstAssignedOnFrontier(planNodeTree.value, map[]);
      NodeRegion(planNodeTree.value, map[])
    }

    /** Table-model placement: the same walk, with the node-distribution map overriding at every level. */
    function TargetRegionForTableModel(distribution: DistributionMap): (r: RegionAnswer)
      reads this
      requires planNodeTree.Some?
      ensures planNodeTree.value.id in distribution ==> r == distribution[planNodeTree.value.id].region
      ensures planNodeTree.value.id !in distribution && planNodeTree.value.partitionRegion.Some? ==>
                r == planNodeTree.value.partitionRegion.value
      ensures !EndsRegionWalk(planNodeTree.value, distribution) ==>
                r == FirstAssigned(RegionFrontier(planNodeTree.value, distribution))
    {
      RegionWalkIsFirstAssignedOnFrontier(planNodeTree.value, distribution);
      NodeRegion(planNodeTree.value, distribution)
    }

    /** Node-bound placement: the first virtual-source or information-schema answer that is not null. */
    function TargetLocation(): (r: LocationAnswer)
      reads this
      requires planNodeTree.Some?
      ensures r == FirstDecided(LocationFrontier(planNodeTree.value))
    {
      LocationWalkIsFirstDecidedOnFrontier(planNodeTree.value);
      NodeLocation(planNodeTree.value)
    }

    /** serialize(DataOutputStream): the stream layout, template-aware when the type provider is templated. */
    method SerializeToStream(c: WireCodecs, stream: OutputStream)
      requires planNodeTree.Some? && Framable(planNodeTree.value)
      modifies stream
      ensures stream.written == old(stream.written) + StreamLayout(c, id, typeProvider, planNodeTree.value)
    {
      var tree := planNodeTree.value;
      stream.Write(c.fragmentId.encode(id));
      if typeProvider.None? {
        stream.Write([0]);
      } else {
        stream.Write([1]);
        if typeProvider.value.templatedInfo.Some? {
          stream.Write(c.typeProvider.encode(typeProvider.value));
          stream.Write(EncodeTree(c, typeProvider, tree));
          return;
        }
        stream.Write(c.typeProvider.encode(typeProvider.value));
        EncodeTreeUntemplated(c, typeProvider, tree);
      }
      stream.Write(EncodeTree(c, None, tree));
    }

    /** serialize(ByteBuffer): id, the tree, then the presence byte and the type provider. */
    method SerializeToBuffer(c: WireCodecs, buffer: OutputStream)
      requires planNodeTree.Some? && Framable(planNodeTree.value)
      modifies buffer
      ensures buffer.written == old(buffer.written) + BufferLayout(c, id, typeProvider, planNodeTree.value)
    {
      buffer.Write(c.fragmentId.encode(id));
      buffer.Write(EncodeTree(c, None, planNodeTree.value));
      if typeProvider.None? {
        buffer.Write([0]);
      } else {
        buffer.Write([1]);
        buffer.Write(c.typeProvider.encode(typeProvider.value));
      }
    }

    /** deserialize: a fresh fragment holding what DecodeFragment reads at the buffer's position. */
    static method Deserialize(c: WireCodecs, buffer: ByteBuffer) returns (r: Result<PlanFragment, DecodeError>)
      requires buffer.Valid()
      modifies buffer
      ensures buffer.Valid()
      ensures r.Success? <==> DecodeFragment(c, buffer.data, old(buffer.position)).Success?
      ensures r.Failure? ==> r.error == DecodeFragment(c, buffer.data, old(buffer.position)).error
      ensures r.Success? ==>
        var d := DecodeFragment(c, buffer.data, old(buffer.position)).value;
        && fresh(r.value)
        && r.value.id == d.id && r.value.typeProvider == d.typeProvider && r.value.planNodeTree == Some(d.tree)
        && !r.value.isRoot && r.value.indexInFragmentInstanceList == -1
        && buffer.position == d.end
    {
      var fragmentId := buffer.GetPayload(c.fragmentId);
      if fragmentId.Failure? {
        return Failure(fragmentId.error);
      }
      var hasTypeProvider := buffer.Get();
      if hasTypeProvider.Failure? {
        return Failure(hasTypeProvider.error);
      }
      var provided: Option<TypeProvider> := None;
      if hasTypeProvider.value == 1 {
        var tp := buffer.GetPayload(c.typeProvider);
        if tp.Failure? {
          return Failure(tp.error);
        }
        provided := Some(tp.value);
      }
      var tree := DeserializeHelper(c, buffer, provided);
      if tree.Failure? {
        return Failure(tree.error);
      }
      var fragment := new PlanFragment(fragmentId.value, Some(tree.value));
      fragment.SetTypeProvider(provided);
      return Success(fragment);
    }

    /** Drops the tree and the type provider after dispatch; nothing else changes. */
    method ClearUselessField()
      modifies this
      ensures planNodeTree == None && typeProvider == None
      ensures isRoot == old(isRoot) && indexInFragmentInstanceList == old(indexInFragmentInstanceList)
    {
      planNodeTree := None;
      typeProvider := None;
    }

    /** Drops the type provider only. */
    method ClearTypeProvider()
      modifies this
      ensures typeProvider == None
      ensures planNodeTree == old(planNodeTree) && isRoot == old(isRoot)
      ensures indexInFragmentInstanceList == old(indexInFragmentInstanceList)
    {
      typeProvider := None;
    }

    /**
     * equals: the same object, or another fragment with the same id and tree;
     * the type provider, the root flag and the index play no part.
     */
    function Equals(that: PlanFragment?): (r: bool)
      reads this, that
      ensures r <==> that != null && id == that.id && planNodeTree == that.planNodeTree
    {
      if this == that then true
      else if that == null then false
      else id == that.id && planNodeTree == that.planNodeTree
    }
  }
}
