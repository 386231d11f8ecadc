/**
 * The public entry point `sqla_select`: fills in the defaults (an empty
 * condition mapping, the self-referential key found on the model, the default
 * cap of 50, the `Node` singleton), builds a `SelectBuilder` and runs it.
 */
module Api {
  import opened Wrappers
  import opened Schema
  import opened Tools
  import opened Queries
  import opened Nodes
  import opened FrozenDicts
  import opened Builder

  /** `DEFAULT_RELATIONSHIP_LOAD_LIMIT`. */
  const DefaultLimit: int := 50

  /** Index of the first foreign key that points at the model's own table and primary key. */
  function FirstSelfReference(fks: seq<ForeignKey>, table: string, pk: string): (i: nat)
    ensures i <= |fks|
    ensures forall j :: 0 <= j < i ==> !(fks[j].refColumn == pk && fks[j].refTable == table)
    ensures i < |fks| ==> fks[i].refColumn == pk && fks[i].refTable == table
  {
    if fks == [] then 0
    else if fks[0].refColumn == pk && fks[0].refTable == table then 0
    else 1 + FirstSelfReference(fks[1..], table, pk)
  }

  /**
   * `_find_self_key`: the column of the first foreign key referencing the
   * model's own primary key, or "" when there is none. The primary key is
   * looked up only once there is a foreign key to compare it with, so only a
   * model with foreign keys but no primary key fails. A non-empty key is the
   * column of a foreign key from the model's table to its own primary key;
   * "" means no foreign key is one (or the first one names no column).
   */
  function FindSelfKey(model: Entity): (r: Result<string, ToolError>)
    ensures r.Failure? <==> model.foreignKeys != [] && model.primaryKey == []
    ensures r.Failure? ==> r.error == NoPrimaryKey(model.name)
    ensures model.foreignKeys == [] ==> r == Success("")
    ensures r.Success? && model.foreignKeys != [] ==>
      var pk := model.primaryKey[0];
      && (r.value != "" ==> exists j :: (0 <= j < |model.foreignKeys| && model.foreignKeys[j].column == r.value
            && model.foreignKeys[j].refColumn == pk && model.foreignKeys[j].refTable == model.table))
      && ((forall j :: 0 <= j < |model.foreignKeys| ==> !(model.foreignKeys[j].refColumn == pk && model.foreignKeys[j].refTable == model.table))
            ==> r.value == "")
  {
    if model.foreignKeys == [] then Success("")
    else match PrimaryKey(model) {
      case Failure(err) => Failure(err)
      case Success(pk) =>
        var i := FirstSelfReference(model.foreignKeys, model.table, pk);
        assert i < |model.foreignKeys| ==> model.foreignKeys[i].refColumn == pk;
        Success(if i < |model.foreignKeys| then model.foreignKeys[i].column else "")
    }
  }

  /**
   * The keyword arguments of `sqla_select`. `node`, `limit` and `selfKey` are
   * `None` when not passed (a passed `limit` may itself be `None`: no cap);
   * `conditions` is the passed mapping's items in order, empty when not
   * passed; the other fields carry their defaults when not passed.
   */
  datatype Params = Params(
    model: Entity,
    loads: seq<string>,
    node: Option<Node>,
    limit: Option<Option<int>>,
    checkTables: bool,
    distinct: bool,
    conditions: seq<(string, Condition)>,
    selfKey: Option<string>,
    orderBy: Option<seq<string>>,
    query: Option<Query>,
    manyLoad: string,
    optimization: bool)

  /** The keyword arguments a call passes with only `model` and `loads`. */
  function Defaults(model: Entity, loads: seq<string>): (p: Params)
    ensures p.node.None? && p.limit.None? && p.selfKey.None? && p.conditions == []
    ensures !p.checkTables && !p.distinct && p.orderBy.None? && p.query.None?
    ensures p.manyLoad == "subqueryload" && p.optimization
  {
    Params(model, loads, None, None, false, false, [], None, None, None, "subqueryload", true)
  }

  datatype SelectError =
    | SelfKeyLookup(cause: ToolError)  // raised by `get_primary_key` in `_find_self_key`
    | NodeUnavailable(reason: NodeError)  // `Node()` before the node was initialised
    | BuildFailed(error: BuildError)

  /**
   * `sqla_select`: the condition mapping is frozen, the self key found on the
   * model when not passed, the cap defaults to 50 when not passed, the
   * singleton `Node` is used when none is passed; then the builder is created
   * and runs `build(loads, query)`. The ghost `builder` is the builder used.
   */
  method SqlaSelect(nodes: NodeClass, p: Params) returns (r: Result<Query, SelectError>, ghost builder: SelectBuilder?)
    modifies nodes
    ensures p.selfKey.None? && FindSelfKey(p.model).Failure? ==> r == Failure(SelfKeyLookup(FindSelfKey(p.model).error))
    ensures p.model.declarativeRoot ==> r.Failure?
    ensures p.node.None? && (old(nodes.instance) == null || old(nodes.instance.graph) == map[]) ==> r.Failure?
    ensures r.Success? ==>
      && builder != null
      && builder.model == p.model
      && builder.limit == p.limit.GetOr(Some(DefaultLimit))
      && builder.selfKey == (if p.selfKey.Some? then p.selfKey.value else FindSelfKey(p.model).value)
      && builder.conditions == FromPairs(p.conditions).items
      && builder.checkTables == p.checkTables && builder.distinct == p.distinct && builder.orderBy == p.orderBy
      && builder.manyLoad == p.manyLoad && builder.optimization == p.optimization
      && (p.node.Some? ==> builder.graph == p.node.value.graph)
      && (p.node.None? ==> nodes.instance != null && builder.graph == nodes.instance.graph && builder.graph != map[])
      && (p.distinct ==> r.value.distinct)
  {
    builder := null;
    var conditions := FromPairs(p.conditions);
    var selfKey: string;
    if p.selfKey.Some? {
      selfKey := p.selfKey.value;
    } else {
      var found := FindSelfKey(p.model);
      if found.Failure? {
        return Failure(SelfKeyLookup(found.error)), builder;
      }
      selfKey := found.value;
    }
    var limit := p.limit.GetOr(Some(DefaultLimit));
    var graph: Graph;
    if p.node.Some? {
      graph := p.node.value.graph;
    } else {
      var node := nodes.New(None);
      if node.Failure? {
        return Failure(NodeUnavailable(node.error)), builder;
      }
      graph := node.value.graph;
    }
    var created := NewSelectBuilder(p.model, graph, limit, p.checkTables, conditions.items, selfKey, p.orderBy, p.manyLoad, p.distinct, p.optimization);
    if created.Failure? {
      return Failure(BuildFailed(created.error)), builder;
    }
    var b := created.value;
    builder := b;
    var built := b.Build(p.loads, p.query);
    if built.Failure? {
      return Failure(BuildFailed(built.error)), builder;
    }
    return Success(built.value), builder;
  }
}
