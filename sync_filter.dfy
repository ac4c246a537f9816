/**
 * Pruning of a sync tree patch against what the target endpoint already holds
 * (TreePatch.FilterToTarget in common/sync/merger).
 *
 * A tree patch is a tree of pending operations. Each tree node may carry one data
 * operation (a content transfer) and one path operation (create folder, delete,
 * move, ...). Before the patch is applied, FilterToTarget drops the operations the
 * target does not need: a transfer whose content the target already has with the
 * same ETag, a folder creation for a folder that is already there, and a deletion
 * of a node that is already gone.
 *
 * The endpoints' LoadNode calls are modelled by snapshots: one map from path to
 * the result of loading that path. A tree walk is modelled by a sequence of
 * distinct node objects, each visited once.
 */
module SyncFilter {
  import opened Wrappers

  type Path = string
  type Etag = string
  /** An endpoint of the sync, identified as the Go map identifies its interface keys. */
  type Endpoint = nat

  /** The operation types FilterToTarget distinguishes; every other type is OpOther. */
  datatype OpType = OpCreateFolder | OpDelete | OpOther(name: string)

  /** A pending operation: its type, the endpoint it is to be applied to, and whether it already ran. */
  datatype Operation = Operation(opType: OpType, target: Endpoint, processed: bool)

  /**
   * What one LoadNode call returns: the node found (given by its ETag, the only
   * attribute looked at), or None for a nil node, and whether an error came back.
   */
  datatype LoadResult = LoadResult(node: Option<Etag>, failed: bool)

  /** A path-sync source, by what LoadNode returns for each path. */
  type Snapshot = map<Path, LoadResult>

  /** LoadNode on a snapshot: a path it does not list loads as a nil node with an error. */
  function LoadNode(src: Snapshot, path: Path): LoadResult
  {
    if path in src then src[path] else LoadResult(None, true)
  }

  /**
   * The patch's source endpoint: the cached branch CachedBranchFromEndpoint may
   * offer, and the endpoint itself, which is always a path-sync source.
   */
  datatype SourceEndpoint = SourceEndpoint(id: Endpoint, cache: Option<Snapshot>, live: Snapshot)

  /**
   * The patch's target endpoint: the cached branch it may offer, and the endpoint
   * itself when it can serve as a path-sync source (AsPathSyncSource succeeds).
   */
  datatype TargetEndpoint = TargetEndpoint(id: Endpoint, cache: Option<Snapshot>, live: Option<Snapshot>)

  /** The snapshot a source endpoint is stat'ed through: its cache if it has one. */
  function SourceSnapshot(s: SourceEndpoint): Snapshot
  {
    if s.cache.Some? then s.cache.value else s.live
  }

  /**
   * The `sources` map: the source endpoint always has an entry; the target has
   * one when it offers a cache or is itself a path-sync source, and the target's
   * entry is written second, so it wins when both are the same endpoint.
   */
  function Sources(s: SourceEndpoint, t: TargetEndpoint): (m: map<Endpoint, Snapshot>)
    ensures m.Keys <= {s.id, t.id} && s.id in m
    ensures t.id in m <==> t.id == s.id || t.cache.Some? || t.live.Some?
    ensures t.id != s.id ==> m[s.id] == SourceSnapshot(s)
    ensures t.cache.Some? ==> m[t.id] == t.cache.value
    ensures t.cache.None? && t.live.Some? ==> m[t.id] == t.live.value
    ensures t.cache.None? && t.live.None? ==> m[s.id] == SourceSnapshot(s)
  {
    var m := map[s.id := SourceSnapshot(s)];
    if t.cache.Some? then m[t.id := t.cache.value]
    else if t.live.Some? then m[t.id := t.live.value]
    else m
  }

  /** The target holds a node at `path`: it has a source, and loading returns a node and no error. */
  predicate HasNode(sources: map<Endpoint, Snapshot>, target: Endpoint, path: Path)
  {
    target in sources && LoadNode(sources[target], path).node.Some? && !LoadNode(sources[target], path).failed
  }

  /** Loading `path` on the target returns a node whose ETag is `etag` (an error beside it is ignored). */
  predicate HasEtag(sources: map<Endpoint, Snapshot>, target: Endpoint, path: Path, etag: Etag)
  {
    target in sources && LoadNode(sources[target], path).node == Some(etag)
  }

  /**
   * The `exists` closure: without a node to compare, whether the target has a
   * node at `path`; with one, whether the target's node there has its ETag.
   */
  function Exists(sources: map<Endpoint, Snapshot>, target: Endpoint, path: Path, compareTo: Option<Etag>): (r: bool)
    ensures target !in sources ==> !r
    ensures compareTo.None? ==> (r <==> HasNode(sources, target, path))
    ensures compareTo.Some? ==> (r <==> HasEtag(sources, target, path, compareTo.value))
  {
    if target !in sources then false
    else
      var loaded := LoadNode(sources[target], path);
      var ex := loaded.node.Some? && !loaded.failed;
      if compareTo.None? || loaded.node.None? then ex
      else loaded.node.value == compareTo.value
  }

  /** The two operations a tree node carries. */
  datatype NodeOps = NodeOps(data: Option<Operation>, path: Option<Operation>)

  predicate Unprocessed(op: Option<Operation>)
  {
    op.Some? && !op.value.processed
  }

  /**
   * The walk callback's decision for one node with processed path `path` and
   * ETag `etag`. At most one operation is dropped, an operation is only ever
   * dropped (never replaced), and processed operations and path operations of
   * other types are kept.
   */
  function Prune(ops: NodeOps, path: Path, etag: Etag, sources: map<Endpoint, Snapshot>): (r: NodeOps)
    ensures r.data == ops.data || r.data == None
    ensures r.path == ops.path || r.path == None
    ensures r.data == ops.data || r.path == ops.path
    ensures !Unprocessed(ops.data) ==> r.data == ops.data
    ensures !Unprocessed(ops.path) ==> r.path == ops.path
    ensures ops.path.Some? && ops.path.value.opType.OpOther? ==> r.path == ops.path
  {
    if Unprocessed(ops.data) && Exists(sources, ops.data.value.target, path, Some(etag)) then
      ops.(data := None)
    else if Unprocessed(ops.path) then
      match ops.path.value.opType
      case OpCreateFolder =>
        if Exists(sources, ops.path.value.target, path, None) then ops.(path := None) else ops
      case OpDelete =>
        if !Exists(sources, ops.path.value.target, path, None) then ops.(path := None) else ops
      case OpOther(_) => ops
    else
      ops
  }

  /** Whether Prune drops the node's data operation. */
  predicate DropsData(ops: NodeOps, path: Path, etag: Etag, sources: map<Endpoint, Snapshot>)
  {
    Unprocessed(ops.data) && HasEtag(sources, ops.data.value.target, path, etag)
  }

  /** A data operation is dropped exactly when it is unprocessed and the target's node has the same ETag. */
  lemma DataDroppedIffSameEtag(ops: NodeOps, path: Path, etag: Etag, sources: map<Endpoint, Snapshot>)
    ensures ops.data.Some? && Prune(ops, path, etag, sources).data.None? <==> DropsData(ops, path, etag, sources)
  {
  }

  /**
   * An unprocessed CreateFolder is dropped exactly when the target has a node at
   * the path, unless the node's data operation was dropped in this same visit.
   */
  lemma CreateFolderDroppedIffPresent(ops: NodeOps, path: Path, etag: Etag, sources: map<Endpoint, Snapshot>)
    requires Unprocessed(ops.path) && ops.path.value.opType == OpCreateFolder
    ensures Prune(ops, path, etag, sources).path.None? <==>
            !DropsData(ops, path, etag, sources) && HasNode(sources, ops.path.value.target, path)
  {
  }

  /**
   * An unprocessed Delete is dropped exactly when the target has no node at the
   * path (a load error counts as no node), unless the data operation was dropped.
   */
  lemma DeleteDroppedIffAbsent(ops: NodeOps, path: Path, etag: Etag, sources: map<Endpoint, Snapshot>)
    requires Unprocessed(ops.path) && ops.path.value.opType == OpDelete
    ensures Prune(ops, path, etag, sources).path.None? <==>
            !DropsData(ops, path, etag, sources) && !HasNode(sources, ops.path.value.target, path)
  {
    var target := ops.path.value.target;
    if target in sources && LoadNode(sources[target], path).failed {
      assert !HasNode(sources, target, path);
    }
  }

  /**
   * When the target endpoint offers neither a cache nor a path-sync source, nothing
   * exists on it: operations aimed at it keep their data and CreateFolder
   * operations, and lose their unprocessed Delete operations.
   */
  lemma TargetWithoutSource(s: SourceEndpoint, t: TargetEndpoint, ops: NodeOps, path: Path, etag: Etag)
    requires t.cache.None? && t.live.None? && t.id != s.id
    requires ops.data.Some? ==> ops.data.value.target == t.id
    requires ops.path.Some? ==> ops.path.value.target == t.id
    ensures Prune(ops, path, etag, Sources(s, t)).data == ops.data
    ensures ops.path.Some? && ops.path.value.opType == OpCreateFolder ==>
            Prune(ops, path, etag, Sources(s, t)).path == ops.path
    ensures Unprocessed(ops.path) && ops.path.value.opType == OpDelete ==>
            Prune(ops, path, etag, Sources(s, t)).path == None
  {
    assert t.id !in Sources(s, t);
  }

  /**
   * A node of the patch tree. Only the fields FilterToTarget reads or writes are
   * modelled: its two operations, its processed path (ProcessedPath(false),
   * computed elsewhere in the tree) and its ETag.
   */
  class TreeNode {
    var processedPath: Path
    var etag: Etag
    var dataOperation: Option<Operation>
    var pathOperation: Option<Operation>

    constructor (processedPath: Path, etag: Etag, dataOperation: Option<Operation>, pathOperation: Option<Operation>)
      ensures this.processedPath == processedPath && this.etag == etag
      ensures this.dataOperation == dataOperation && this.pathOperation == pathOperation
    {
      this.processedPath := processedPath;
      this.etag := etag;
      this.dataOperation := dataOperation;
      this.pathOperation := pathOperation;
    }

    function Ops(): NodeOps
      reads this
    {
      NodeOps(dataOperation, pathOperation)
    }
  }

  /**
   * The callback FilterToTarget passes to Walk: it clears at most the node's
   * operations, as Prune decides, and returns false for every node.
   */
  method VisitNode(n: TreeNode, sources: map<Endpoint, Snapshot>) returns (result: bool)
    modifies n`dataOperation, n`pathOperation
    ensures n.Ops() == Prune(old(n.Ops()), n.processedPath, n.etag, sources)
    ensures !result
  {
    if n.dataOperation.Some? && !n.dataOperation.value.processed
       && Exists(sources, n.dataOperation.value.target, n.processedPath, Some(n.etag))
    {
      n.dataOperation := None;
    } else if n.pathOperation.Some? && !n.pathOperation.value.processed {
      if n.pathOperation.value.opType == OpCreateFolder {
        if Exists(sources, n.pathOperation.value.target, n.processedPath, None) {
          n.pathOperation := None;
        }
      } else if n.pathOperation.value.opType == OpDelete {
        if !Exists(sources, n.pathOperation.value.target, n.processedPath, None) {
          n.pathOperation := None;
        }
      }
    }
    return false;
  }

  /**
   * A tree patch between a source and a target endpoint. Its nodes are those the
   * tree walk visits; the walk reaches each node once, so they are distinct.
   */
  class TreePatch {
    const source: SourceEndpoint
    const target: TargetEndpoint
    const nodes: seq<TreeNode>

    ghost predicate Valid()
    {
      forall i, j :: 0 <= i < j < |nodes| ==> nodes[i] != nodes[j]
    }

    constructor (source: SourceEndpoint, target: TargetEndpoint, nodes: seq<TreeNode>)
      requires forall i, j :: 0 <= i < j < |nodes| ==> nodes[i] != nodes[j]
      ensures Valid()
      ensures this.source == source && this.target == target && this.nodes == nodes
    {
      this.source := source;
      this.target := target;
      this.nodes := nodes;
    }

    /**
     * FilterToTarget: builds the `sources` map, then visits every node; each
     * node's operations end up as Prune decides from its own old operations, and
     * no other field of any node changes.
     */
    method FilterToTarget()
      requires Valid()
      modifies nodes`dataOperation, nodes`pathOperation
      ensures forall k :: 0 <= k < |nodes| ==>
                nodes[k].Ops() == Prune(old(nodes[k].Ops()), nodes[k].processedPath, nodes[k].etag, Sources(source, target))
    {
      var sources := Sources(source, target);
      var i := 0;
      while i < |nodes|
        invariant 0 <= i <= |nodes|
        invariant forall k :: 0 <= k < i ==>
                    nodes[k].Ops() == Prune(old(nodes[k].Ops()), nodes[k].processedPath, nodes[k].etag, sources)
        invariant forall k :: i <= k < |nodes| ==> nodes[k].Ops() == old(nodes[k].Ops())
      {
        var _ := VisitNode(nodes[i], sources);
        i := i + 1;
      }
    }
  }
}
