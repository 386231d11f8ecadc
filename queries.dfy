/**
 * The SQLAlchemy objects the planner builds, reduced to what the planner
 * decides about them: a SELECT is its FROM list, a log of outer joins, its
 * WHERE criteria, its LIMIT and ORDER BY, its loader options and its DISTINCT
 * flag; expressions are opaque clauses; a per-relationship condition callable
 * is what it does to a SELECT.
 */
module Queries {
  import opened Wrappers
  import opened Schema
  import opened Tools

  /** An opaque SQL expression. */
  datatype Clause =
    | Expr(text: string)
    | Adapted(inner: Clause, alias: string)  // `ClauseAdapter(alias).traverse(inner)`
    | PrimaryJoin(key: string)               // `relationship.primaryjoin`
    | SecondaryJoin(key: string)             // `relationship.secondaryjoin`
    | ColumnEq(left: string, right: string)  // `left == right` between two columns
    | AllOf(parts: seq<Clause>)              // `sa.and_(...)`

  /** What a condition does to the LIMIT of the SELECT it is given. */
  datatype LimitEffect =
    | KeepLimit
    | SetLimit(value: Option<int>)  // `.limit(value)`; `.limit(None)` removes the limit

  /**
   * A condition callable `Select -> Select`, described by the WHERE criteria it
   * adds and by its effect on the LIMIT.
   */
  datatype Condition = Condition(criteria: seq<Clause>, limitEffect: LimitEffect)

  /** The conditions keyed by relationship key; a key is present exactly when it has a callable. */
  type Conditions = map<string, Condition>

  datatype OrderTerm = Desc(column: string)

  /** How an outer join is joined on. */
  datatype JoinOn =
    | OnTrue                         // `sa.true()`
    | OnRank(rankTable: string)      // `lateral.c._sqla_rn == rn_series.c._rn`
    | OnClause(clause: Clause)

  /** One `query.outerjoin(right, on)`; `sub` is the SELECT inside a lateral, when `right` is one. */
  datatype JoinStep = JoinStep(right: FromClause, on: JoinOn, sub: Option<Query>)

  datatype Strategy = SubqueryLoad | SelectinLoad | JoinedLoad | ContainsEager

  /** One link of a loader-option chain: `strategy(rel, alias=...)`, with `rel.and_(criteria)` when given. */
  datatype LoadStep = LoadStep(strategy: Strategy, key: string, alias: Option<string>, criteria: seq<Clause>)

  /** A loader option: a non-empty chain of steps, the first one top-level. */
  type Load = seq<LoadStep>

  datatype LoaderOption =
    | Eager(load: Load)
    | WithLoaderCriteria(entity: Entity, clause: Clause)

  datatype Query = Query(
    froms: seq<FromClause>,
    joins: seq<JoinStep>,
    criteria: seq<Clause>,
    limit: Option<int>,
    orderBy: seq<OrderTerm>,
    options: seq<LoaderOption>,
    distinct: bool)

  /** `sa.select(e)`. */
  function Select(e: Entity): (q: Query)
    ensures FinalFroms(q) == [Table(e.table)]
  {
    Query([Table(e.table)], [], [], None, [], [], false)
  }

  function OuterJoin(q: Query, right: FromClause, on: JoinOn, sub: Option<Query>): (r: Query)
    ensures r.joins == q.joins + [JoinStep(right, on, sub)]
    ensures r.froms == q.froms && r.criteria == q.criteria && r.limit == q.limit && r.options == q.options
  {
    q.(joins := q.joins + [JoinStep(right, on, sub)])
  }

  function JoinAll(left: FromClause, joins: seq<JoinStep>): FromClause {
    if joins == [] then left else Join(JoinAll(left, joins[..|joins| - 1]), joins[|joins| - 1].right)
  }

  /** `query.get_final_froms()`: the outer joins hang off the first FROM entry. */
  function FinalFroms(q: Query): seq<FromClause> {
    if q.froms == [] then [] else [JoinAll(q.froms[0], q.joins)] + q.froms[1..]
  }

  /** `get_table_names(query)`, as a specification. */
  function TableNamesOf(q: Query): seq<string> {
    AddAll([], RootsOffers(FinalFroms(q)))
  }

  /** `query.whereclause`: none when the SELECT has no criteria. */
  function WhereClause(q: Query): (w: Option<Clause>)
    ensures w.None? <==> q.criteria == []
  {
    if q.criteria == [] then None else Some(AllOf(q.criteria))
  }

  /** Running a condition callable on a SELECT. */
  function Apply(c: Condition, q: Query): (r: Query)
    ensures r.criteria == q.criteria + c.criteria
    ensures c.limitEffect.KeepLimit? ==> r.limit == q.limit
    ensures c.limitEffect.SetLimit? ==> r.limit == c.limitEffect.value
    ensures r.froms == q.froms && r.joins == q.joins && r.options == q.options && r.orderBy == q.orderBy
  {
    var q' := q.(criteria := q.criteria + c.criteria);
    match c.limitEffect
    case KeepLimit => q'
    case SetLimit(v) => q'.(limit := v)
  }

  /**
   * `_apply_conditions`: runs the condition registered for `key`, if any. A
   * key without a condition leaves the SELECT unchanged; one with a condition
   * adds exactly its criteria and keeps or replaces the LIMIT as it says; the
   * FROM list, joins, options and ordering are never touched.
   */
  function ApplyConditions(q: Query, key: string, conditions: Conditions): (r: Query)
    ensures key !in conditions ==> r == q
    ensures key in conditions ==> r.criteria == q.criteria + conditions[key].criteria
    ensures key in conditions ==>
      r.limit == if conditions[key].limitEffect.SetLimit? then conditions[key].limitEffect.value else q.limit
    ensures r.froms == q.froms && r.joins == q.joins && r.options == q.options && r.orderBy == q.orderBy
  {
    if key in conditions then Apply(conditions[key], q) else q
  }

  /** `_extract_limit`: the SELECT's LIMIT when it has one, else `default`. */
  function ExtractLimit(q: Query, default: int): (n: int)
    ensures q.limit.Some? ==> n == q.limit.value
    ensures q.limit.None? ==> n == default
  {
    q.limit.GetOr(default)
  }

  /** `query.limit(n)`. */
  function WithLimit(q: Query, n: Option<int>): Query {
    q.(limit := n)
  }

  /**
   * The limit a condition leaves on `select(e).limit(cap)`: the cap unless the
   * condition sets a limit of its own; a condition that removes the limit
   * falls back to the cap as well.
   */
  lemma ProbedLimit(e: Entity, cap: int, key: string, conditions: Conditions)
    ensures var probe := ApplyConditions(WithLimit(Select(e), Some(cap)), key, conditions);
      ExtractLimit(probe, cap) ==
        if key in conditions && conditions[key].limitEffect.SetLimit? && conditions[key].limitEffect.value.Some?
        then conditions[key].limitEffect.value.value
        else cap
  {
  }

  /** `_construct_strategy`: a new top-level option, or the existing chain extended by one link. */
  function ConstructStrategy(s: Strategy, key: string, current: Option<Load>, alias: Option<string>): (l: Load)
    ensures |l| >= 1 && l[|l| - 1] == LoadStep(s, key, alias, [])
    ensures current.None? ==> |l| == 1
    ensures current.Some? ==> l[..|l| - 1] == current.value
  {
    current.GetOr([]) + [LoadStep(s, key, alias, [])]
  }

  /**
   * `_apply_order_by`: the requested columns descending, or, when none are
   * requested, every primary-key column of the class descending.
   */
  function ApplyOrderBy(q: Query, e: Entity, orderBy: Option<seq<string>>): (r: Query)
    ensures orderBy.Some? && orderBy.value != [] ==>
      |r.orderBy| == |q.orderBy| + |orderBy.value|
      && forall i :: 0 <= i < |orderBy.value| ==> r.orderBy[|q.orderBy| + i] == Desc(orderBy.value[i])
    ensures (orderBy.None? || orderBy.value == []) ==>
      |r.orderBy| == |q.orderBy| + |e.primaryKey|
      && forall i :: 0 <= i < |e.primaryKey| ==> r.orderBy[|q.orderBy| + i] == Desc(e.primaryKey[i])
    ensures r.orderBy[..|q.orderBy|] == q.orderBy
    ensures r.(orderBy := q.orderBy) == q
  {
    var cols := if orderBy.Some? && orderBy.value != [] then orderBy.value else e.primaryKey;
    q.(orderBy := q.orderBy + seq(|cols|, i requires 0 <= i < |cols| => Desc(cols[i])))
  }
}
