/**
 * The reconciler's allocation set and its classification into the five
 * buckets `filterByTaintedAndUnknown` returns: untainted, migrate, lost,
 * unknown and reconnectable.
 */
module Reconcile {
  import opened Wrappers
  import opened Structs

  /** Allocations keyed by allocation ID. */
  type AllocSet = map<string, Allocation>

  /** Node records keyed by node ID; `None` is a key bound to a nil node. */
  type NodeView = map<string, Option<Node>>

  datatype Bucket = InUntainted | InMigrate | InLost | InUnknown | InReconnectable

  /** The node an allocation sits on; a missing key and a nil entry both read as `None`. */
  function NodeOf(nodes: NodeView, a: Allocation): Option<Node> {
    if a.nodeId in nodes then nodes[a.nodeId] else None
  }

  /** The allocation's node is known and has the given status. */
  predicate OnNodeWith(nodes: NodeView, a: Allocation, s: NodeStatus) {
    NodeOf(nodes, a).Some? && NodeOf(nodes, a).value.status == s
  }

  /**
   * The bucket of one allocation, by precedence: terminal, then an explicit
   * migration request, then the state of its node.
   */
  function Classify(a: Allocation, nodes: NodeView): (b: Bucket)
  {
    if a.Terminal() then InUntainted
    else if a.desiredTransition.ShouldMigrate() then InMigrate
    else match NodeOf(nodes, a)
      // Modelling choice: a nil or missing node is assumed gone.
      case None => InLost
      case Some(n) =>
        if n.status == NodeDown then InLost
        else if n.status == NodeUnknown && a.clientStatus != Unknown then InUnknown
        else if n.status == NodeReady && a.clientStatus == Unknown then InReconnectable
        else InUntainted
  }

  /** The precedence rules the classifier follows, one per case the tests exercise. */
  lemma ClassifyRules(a: Allocation, nodes: NodeView)
    // Terminal allocations are untainted wherever they ran.
    ensures a.Terminal() ==> Classify(a, nodes) == InUntainted
    // A live allocation asked to migrate migrates, whatever (or whether) its node is.
    ensures !a.Terminal() && a.desiredTransition.ShouldMigrate() ==> Classify(a, nodes) == InMigrate
    // The remaining cases only concern live allocations that are not migrating.
    ensures !a.Terminal() && !a.desiredTransition.ShouldMigrate() ==>
      && (OnNodeWith(nodes, a, NodeDown) ==> Classify(a, nodes) == InLost)
      && (OnNodeWith(nodes, a, NodeUnknown) && a.clientStatus != Unknown ==> Classify(a, nodes) == InUnknown)
      && (OnNodeWith(nodes, a, NodeReady) ==>
            (Classify(a, nodes) == InReconnectable <==> a.clientStatus == Unknown) &&
            (Classify(a, nodes) == InUntainted <==> a.clientStatus != Unknown))
    // Only a live allocation can be anything but untainted, and only a migrating one migrates.
    ensures Classify(a, nodes) != InUntainted ==> !a.Terminal()
    ensures Classify(a, nodes) == InMigrate <==> !a.Terminal() && a.desiredTransition.ShouldMigrate()
  {
  }

  /** The five result sets of `filterByTaintedAndUnknown`. */
  datatype Partition = Partition(
    untainted: AllocSet,
    migrate: AllocSet,
    lost: AllocSet,
    unknown: AllocSet,
    reconnectable: AllocSet)
  {
    function Get(b: Bucket): AllocSet {
      match b
      case InUntainted => untainted
      case InMigrate => migrate
      case InLost => lost
      case InUnknown => unknown
      case InReconnectable => reconnectable
    }
  }

  /** Every entry of `sub` is an entry of `m`. */
  ghost predicate SubMap(sub: AllocSet, m: AllocSet) {
    forall id :: id in sub ==> id in m && sub[id] == m[id]
  }

  /**
   * `p` splits `allocs` exactly: every bucket entry is an entry of `allocs`,
   * the buckets together hold every allocation, and no two buckets share one.
   */
  ghost predicate IsPartition(p: Partition, allocs: AllocSet) {
    var u, m, l, k, r := p.untainted.Keys, p.migrate.Keys, p.lost.Keys, p.unknown.Keys, p.reconnectable.Keys;
    && SubMap(p.untainted, allocs) && SubMap(p.migrate, allocs) && SubMap(p.lost, allocs)
    && SubMap(p.unknown, allocs) && SubMap(p.reconnectable, allocs)
    && u + m + l + k + r == allocs.Keys
    && u !! m && u !! l && u !! k && u !! r
    && m !! l && m !! k && m !! r
    && l !! k && l !! r
    && k !! r
  }

  /** The allocations of `allocs` that classify into bucket `b`. */
  function Select(allocs: AllocSet, nodes: NodeView, b: Bucket): AllocSet
  {
    map id | id in allocs && Classify(allocs[id], nodes) == b :: allocs[id]
  }

  /**
   * Splits the allocation set into untainted, migrate, lost, unknown and
   * reconnectable allocations, each allocation into the bucket it classifies into.
   */
  function FilterByTaintedAndUnknown(allocs: AllocSet, nodes: NodeView): (p: Partition)
    ensures IsPartition(p, allocs)
    ensures forall id :: id in allocs ==> id in p.Get(Classify(allocs[id], nodes))
  {
    var p := Partition(
      Select(allocs, nodes, InUntainted),
      Select(allocs, nodes, InMigrate),
      Select(allocs, nodes, InLost),
      Select(allocs, nodes, InUnknown),
      Select(allocs, nodes, InReconnectable));
    SelectPartitions(allocs, nodes, p);
    p
  }

  /** Two different buckets never select the same allocation. */
  lemma SelectDisjoint(allocs: AllocSet, nodes: NodeView, b1: Bucket, b2: Bucket)
    requires b1 != b2
    ensures Select(allocs, nodes, b1).Keys !! Select(allocs, nodes, b2).Keys
  {
  }

  /** A selection only holds entries of the input. */
  lemma SelectSubMap(allocs: AllocSet, nodes: NodeView, b: Bucket)
    ensures SubMap(Select(allocs, nodes, b), allocs)
  {
  }

  /** Every allocation is selected by the bucket it classifies into. */
  lemma SelectCovers(allocs: AllocSet, nodes: NodeView, p: Partition)
    requires p.untainted == Select(allocs, nodes, InUntainted)
    requires p.migrate == Select(allocs, nodes, InMigrate)
    requires p.lost == Select(allocs, nodes, InLost)
    requires p.unknown == Select(allocs, nodes, InUnknown)
    requires p.reconnectable == Select(allocs, nodes, InReconnectable)
    ensures forall id :: id in allocs ==> id in p.Get(Classify(allocs[id], nodes))
  {
  }

  /** Selecting each bucket in turn splits the input exactly. */
  lemma SelectPartitions(allocs: AllocSet, nodes: NodeView, p: Partition)
    requires p.untainted == Select(allocs, nodes, InUntainted)
    requires p.migrate == Select(allocs, nodes, InMigrate)
    requires p.lost == Select(allocs, nodes, InLost)
    requires p.unknown == Select(allocs, nodes, InUnknown)
    requires p.reconnectable == Select(allocs, nodes, InReconnectable)
    ensures IsPartition(p, allocs)
    ensures forall id :: id in allocs ==> id in p.Get(Classify(allocs[id], nodes))
  {
    SelectCovers(allocs, nodes, p);
    var u, m, l, k, r := p.untainted.Keys, p.migrate.Keys, p.lost.Keys, p.unknown.Keys, p.reconnectable.Keys;
    assert u + m + l + k + r <= allocs.Keys;
    assert allocs.Keys <= u + m + l + k + r by {
      forall id | id in allocs
        ensures id in u + m + l + k + r
      {
        assert id in p.Get(Classify(allocs[id], nodes));
      }
    }
    SelectSubMap(allocs, nodes, InUntainted);
    SelectSubMap(allocs, nodes, InMigrate);
    SelectSubMap(allocs, nodes, InLost);
    SelectSubMap(allocs, nodes, InUnknown);
    SelectSubMap(allocs, nodes, InReconnectable);
    SelectDisjoint(allocs, nodes, InUntainted, InMigrate);
    SelectDisjoint(allocs, nodes, InUntainted, InLost);
    SelectDisjoint(allocs, nodes, InUntainted, InUnknown);
    SelectDisjoint(allocs, nodes, InUntainted, InReconnectable);
    SelectDisjoint(allocs, nodes, InMigrate, InLost);
    SelectDisjoint(allocs, nodes, InMigrate, InUnknown);
    SelectDisjoint(allocs, nodes, InMigrate, InReconnectable);
    SelectDisjoint(allocs, nodes, InLost, InUnknown);
    SelectDisjoint(allocs, nodes, InLost, InReconnectable);
    SelectDisjoint(allocs, nodes, InUnknown, InReconnectable);
  }

  /** An allocation is in bucket `b` of the result exactly when it classifies into `b`. */
  lemma FilterMembership(allocs: AllocSet, nodes: NodeView, b: Bucket, id: string)
    ensures id in FilterByTaintedAndUnknown(allocs, nodes).Get(b) <==>
            id in allocs && Classify(allocs[id], nodes) == b
  {
  }

  /** The five bucket sizes of a partition add up to the size of the input. */
  lemma PartitionSizes(p: Partition, allocs: AllocSet)
    requires IsPartition(p, allocs)
    ensures |p.untainted| + |p.migrate| + |p.lost| + |p.unknown| + |p.reconnectable| == |allocs|
  {
  }

  // -----------------------------------------------------------------------
  // The allocation set and node view of the classifier's table test

  function ScenarioNodes(): NodeView {
    map[
      "draining" := Some(Node(NodeUnset)),
      "lost" := Some(Node(NodeDown)),
      "nil" := None,
      "normal" := Some(Node(NodeReady)),
      "unknown" := Some(Node(NodeUnknown))]
  }

  function ScenarioAlloc(id: string, status: ClientStatus, migrate: bool, node: string): Allocation {
    Allocation(id, "", "", "", status, "", DesiredTransition(if migrate then Some(true) else None), node)
  }

  function ScenarioAllocs(): AllocSet {
    map[
      "migrating1" := ScenarioAlloc("migrating1", Running, true, "draining"),
      "migrating2" := ScenarioAlloc("migrating2", Running, true, "nil"),
      "untainted1" := ScenarioAlloc("untainted1", Running, false, "normal"),
      "untainted2" := ScenarioAlloc("untainted2", Complete, false, "normal"),
      "untainted3" := ScenarioAlloc("untainted3", Complete, false, "draining"),
      "untainted4" := ScenarioAlloc("untainted4", Complete, false, "lost"),
      "lost1" := ScenarioAlloc("lost1", Pending, false, "lost"),
      "lost2" := ScenarioAlloc("lost2", Running, false, "lost"),
      "unknown1" := ScenarioAlloc("unknown1", Running, false, "unknown"),
      "unknown2" := ScenarioAlloc("unknown2", Running, false, "unknown"),
      "unknown3" := ScenarioAlloc("unknown3", Running, false, "unknown"),
      "reconnectable1" := ScenarioAlloc("reconnectable1", Unknown, false, "normal"),
      "reconnectable2" := ScenarioAlloc("reconnectable2", Unknown, false, "normal")]
  }

  /** The bucket each table-test allocation is expected in, read off its ID. */
  function ScenarioExpected(id: string): Bucket {
    if id in {"untainted1", "untainted2", "untainted3", "untainted4"} then InUntainted
    else if id in {"migrating1", "migrating2"} then InMigrate
    else if id in {"lost1", "lost2"} then InLost
    else if id in {"unknown1", "unknown2", "unknown3"} then InUnknown
    else InReconnectable
  }

  lemma ScenarioClassify(id: string)
    requires id in ScenarioAllocs()
    ensures Classify(ScenarioAllocs()[id], ScenarioNodes()) == ScenarioExpected(id)
  {
  }

  /** Bucket `b` of the table test holds exactly the allocations expected there. */
  lemma ScenarioBucket(b: Bucket, ids: set<string>)
    requires ids <= ScenarioAllocs().Keys
    requires forall id :: id in ScenarioAllocs() ==> (ScenarioExpected(id) == b <==> id in ids)
    ensures Select(ScenarioAllocs(), ScenarioNodes(), b).Keys == ids
  {
    var allocs, nodes := ScenarioAllocs(), ScenarioNodes();
    forall id | id in allocs
      ensures Classify(allocs[id], nodes) == ScenarioExpected(id)
    {
      ScenarioClassify(id);
    }
  }

  lemma ScenarioUntainted()
    ensures Select(ScenarioAllocs(), ScenarioNodes(), InUntainted).Keys == {"untainted1", "untainted2", "untainted3", "untainted4"}
    ensures |Select(ScenarioAllocs(), ScenarioNodes(), InUntainted)| == 4
  {
    ScenarioBucket(InUntainted, {"untainted1", "untainted2", "untainted3", "untainted4"});
  }

  lemma ScenarioMigrate()
    ensures Select(ScenarioAllocs(), ScenarioNodes(), InMigrate).Keys == {"migrating1", "migrating2"}
    ensures |Select(ScenarioAllocs(), ScenarioNodes(), InMigrate)| == 2
  {
    ScenarioBucket(InMigrate, {"migrating1", "migrating2"});
  }

  lemma ScenarioLost()
    ensures Select(ScenarioAllocs(), ScenarioNodes(), InLost).Keys == {"lost1", "lost2"}
    ensures |Select(ScenarioAllocs(), ScenarioNodes(), InLost)| == 2
  {
    ScenarioBucket(InLost, {"lost1", "lost2"});
  }

  lemma ScenarioUnknown()
    ensures Select(ScenarioAllocs(), ScenarioNodes(), InUnknown).Keys == {"unknown1", "unknown2", "unknown3"}
    ensures |Select(ScenarioAllocs(), ScenarioNodes(), InUnknown)| == 3
  {
    ScenarioBucket(InUnknown, {"unknown1", "unknown2", "unknown3"});
  }

  lemma ScenarioReconnectable()
    ensures Select(ScenarioAllocs(), ScenarioNodes(), InReconnectable).Keys == {"reconnectable1", "reconnectable2"}
    ensures |Select(ScenarioAllocs(), ScenarioNodes(), InReconnectable)| == 2
  {
    ScenarioBucket(InReconnectable, {"reconnectable1", "reconnectable2"});
  }

  /** The table test's thirteen allocations land in buckets of sizes 4, 2, 2, 3 and 2. */
  lemma FilterByTaintedScenario()
    ensures var p := FilterByTaintedAndUnknown(ScenarioAllocs(), ScenarioNodes());
      && p.untainted.Keys == {"untainted1", "untainted2", "untainted3", "untainted4"}
      && p.migrate.Keys == {"migrating1", "migrating2"}
      && p.lost.Keys == {"lost1", "lost2"}
      && p.unknown.Keys == {"unknown1", "unknown2", "unknown3"}
      && p.reconnectable.Keys == {"reconnectable1", "reconnectable2"}
      && |p.untainted| == 4 && |p.migrate| == 2 && |p.lost| == 2
      && |p.unknown| == 3 && |p.reconnectable| == 2
  {
    var p := FilterByTaintedAndUnknown(ScenarioAllocs(), ScenarioNodes());
    assert p.untainted == Select(ScenarioAllocs(), ScenarioNodes(), InUntainted);
    assert p.migrate == Select(ScenarioAllocs(), ScenarioNodes(), InMigrate);
    assert p.lost == Select(ScenarioAllocs(), ScenarioNodes(), InLost);
    assert p.unknown == Select(ScenarioAllocs(), ScenarioNodes(), InUnknown);
    assert p.reconnectable == Select(ScenarioAllocs(), ScenarioNodes(), InReconnectable);
    ScenarioUntainted();
    ScenarioMigrate();
    ScenarioLost();
    ScenarioUnknown();
    ScenarioReconnectable();
  }
}
