/**
 * The schema graph the planner reads: mapped entity types and their declared
 * relationship edges. A Python class is identified by value here (two entities
 * are the same exactly when all their descriptors agree), and a table by its name.
 */
module Schema {
  import opened Wrappers

  /** One foreign key of an entity's table: the local column and the column it references. */
  datatype ForeignKey = ForeignKey(column: string, refTable: string, refColumn: string)

  /**
   * A mapped class. `tablename` is the `__tablename__` attribute when the class
   * declares one; `table` is the name (description) of its local table;
   * `primaryKey` lists the table's primary-key columns in order;
   * `declarativeRoot` marks the declarative base itself (or a class deriving
   * directly from it), which may not be the root of a query.
   */
  datatype Entity = Entity(
    name: string,
    tablename: Option<string>,
    table: string,
    primaryKey: seq<string>,
    foreignKeys: seq<ForeignKey>,
    declarativeRoot: bool)

  /**
   * A relationship property: its key, the class declaring it (`parent`), the
   * class it loads (`mapper.class_`), whether it loads a list (`uselist`) and the
   * association table it goes through (`secondary`), if any.
   */
  datatype Edge = Edge(
    key: string,
    source: Entity,
    target: Entity,
    toMany: bool,
    secondary: Option<string>)

  /** The relationship mapping held by the Node singleton. */
  type Graph = map<Entity, seq<Edge>>

  /** `node.get(model)`: the declared edges, or none for an unknown class. */
  function Edges(g: Graph, c: Entity): (r: seq<Edge>)
    ensures c !in g ==> r == []
    ensures c in g ==> r == g[c]
  {
    if c in g then g[c] else []
  }

  /**
   * The planner's self-reference test: the edge loads the root model and is
   * declared on that same class.
   */
  predicate IsSelfRef(model: Entity, e: Edge) {
    e.target == model && e.source == e.target
  }
}
