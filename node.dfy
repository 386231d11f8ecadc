/**
 * The `Node` singleton that holds the relationship graph. `Node` is one
 * instance with a mutable mapping; `NodeClass` stands for the class object
 * itself, whose private class attribute remembers the single instance.
 * An instance whose mapping was never assigned reads as the empty mapping
 * (the attribute lookup in `__new__` defaults to `None`, which is falsy too).
 */
module Nodes {
  import opened Wrappers
  import opened Schema

  datatype NodeError =
    | NotInitialized  // RuntimeError("Node is not initialized or empty")
    | MissingModel    // KeyError from `node[model]`

  class Node {
    /** `_node`, exposed read-only by the `node` property. */
    var graph: Graph

    constructor ()
      ensures graph == map[]
    {
      graph := map[];
    }

    /** `get(model)`: the model's relationships, or the empty tuple for an unknown model. */
    function Get(model: Entity): (r: seq<Edge>)
      reads this
      ensures model in graph ==> r == graph[model]
      ensures model !in graph ==> r == []
    {
      Edges(graph, model)
    }

    /** `node[model]`: like `get`, but an unknown model is a KeyError. */
    function GetItem(model: Entity): (r: Result<seq<Edge>, NodeError>)
      reads this
      ensures r.Success? <==> model in graph
      ensures r.Success? ==> r.value == Get(model)
      ensures r.Failure? ==> r.error == MissingModel
    {
      if model in graph then Success(graph[model]) else Failure(MissingModel)
    }

    /** `set_node(node)`: replaces the mapping. */
    method SetNode(g: Graph)
      modifies this
      ensures graph == g
    {
      graph := g;
    }
  }

  class NodeClass {
    /** The class attribute `__instance`. */
    var instance: Node?

    constructor ()
      ensures instance == null
    {
      instance := null;
    }

    /**
     * `Node(node)`: the first call creates and stores the instance, assigning
     * the mapping when one is given; later calls ignore their argument. Either
     * way the call fails unless the stored instance holds a non-empty mapping.
     */
    method New(arg: Option<Graph>) returns (r: Result<Node, NodeError>)
      modifies this
      ensures instance != null
      ensures old(instance) != null ==> instance == old(instance) && instance.graph == old(instance.graph)
      ensures old(instance) == null ==> fresh(instance) && instance.graph == arg.GetOr(map[])
      ensures r.Success? <==> instance.graph != map[]
      ensures r.Success? ==> r.value == instance
      ensures r.Failure? ==> r.error == NotInitialized
    {
      if instance == null {
        var created := new Node();
        if arg.Some? {
          created.SetNode(arg.value);
        }
        instance := created;
      }
      if instance.graph == map[] {
        return Failure(NotInitialized);
      }
      return Success(instance);
    }

    /** `reset()`: forgets the instance so the next call creates a new one. */
    method Reset()
      modifies this
      ensures instance == null
    {
      instance := null;
    }

    /** `init_node(node)`: `Node(node)`, whose RuntimeError the caller sees. */
    method InitNode(g: Graph) returns (r: Result<Node, NodeError>)
      modifies this
      ensures instance != null
      ensures old(instance) != null ==> instance == old(instance) && instance.graph == old(instance.graph)
      ensures old(instance) == null ==> fresh(instance) && instance.graph == g
      ensures r.Success? <==> instance.graph != map[]
      ensures r.Success? ==> r.value == instance
      ensures r.Failure? ==> r.error == NotInitialized
    {
      r := New(Some(g));
    }
  }

  /**
   * Only the first initialisation takes effect: after `init_node(g1)` with a
   * non-empty mapping, a second `init_node(g2)` and a bare `Node()` both
   * return the instance that still holds `g1`.
   */
  method FirstInitWins(g1: Graph, g2: Graph) returns (second: Result<Node, NodeError>, later: Result<Node, NodeError>)
    requires g1 != map[]
    ensures second.Success? && second.value.graph == g1
    ensures later.Success? && later.value == second.value
  {
    var cls := new NodeClass();
    var first := cls.InitNode(g1);
    second := cls.InitNode(g2);
    later := cls.New(None);
  }

  /**
   * A bare `Node()` before any initialisation stores an instance with no
   * mapping, so a following `init_node(g)` is ignored and still fails; after
   * `reset()` the same `init_node(g)` succeeds exactly when `g` is non-empty.
   */
  method ResetRecovers(g: Graph) returns (early: Result<Node, NodeError>, ignored: Result<Node, NodeError>, recovered: Result<Node, NodeError>)
    ensures early == Failure(NotInitialized)
    ensures ignored == Failure(NotInitialized)
    ensures recovered.Success? <==> g != map[]
    ensures recovered.Success? ==> recovered.value.graph == g
  {
    var cls := new NodeClass();
    early := cls.New(None);
    ignored := cls.InitNode(g);
    cls.Reset();
    recovered := cls.InitNode(g);
  }
}
