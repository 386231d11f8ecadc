/**
 * `SelectBuilder`: resolves each requested load to a relationship path,
 * orders the paths, plans row-number alignment, and walks every path hop by
 * hop, choosing for each relationship how it is loaded and recording what has
 * been joined and loaded so far.
 */
module Builder {
  import opened Wrappers
  import opened Schema
  import opened Strings
  import opened Tools
  import opened Queries
  import opened Paths
  import opened LoadOrder
  import opened ZipPlan

  datatype BuildError =
    | DeclarativeBaseModel          // TypeError("model must not be orm.DeclarativeBase")
    | MissingSelfKey                // ValueError("`self_key` should be set for self join")
    | Unresolved(cause: DottedError) // ValueError from the dotted-path walk
    | Naming(reason: ToolError)     // a class without a table name or a primary key

  /** `_MANY_LOAD_STRATEGIES.get(name)`. */
  function ManyLoadStrategy(name: string): (s: Option<Strategy>)
    ensures s.Some? <==> name == "subqueryload" || name == "selectinload"
    ensures s == Some(SubqueryLoad) <==> name == "subqueryload"
  {
    if name == "subqueryload" then Some(SubqueryLoad)
    else if name == "selectinload" then Some(SelectinLoad)
    else None
  }

  /** The lateral's name: the table name, or `{table}_{key}` when the class was already joined. */
  function LateralName(table: string, key: string, isAlias: bool): string {
    if isAlias then table + "_" + key else table
  }

  /** With `check_tables`, a name the query already selects from gets `_alias` appended. */
  function Deduplicated(name: string, checkTables: bool, present: seq<string>): string {
    if checkTables && name in present then name + "_alias" else name
  }

  /** The aliased class of a self-join: an alias named `name` over the class's table. */
  function AliasClause(name: string, table: string): FromClause {
    Named(Some(name), Some(Table(table)))
  }

  /** A LATERAL subquery named `name`; it wraps a SELECT, which has no name of its own. */
  function LateralClause(name: string): FromClause {
    Named(Some(name), Some(Named(None, None)))
  }

  /** `select(alias)` for the aliased class. */
  function SelectAlias(name: string, table: string): Query {
    Query([AliasClause(name, table)], [], [], None, [], [], false)
  }

  /** `query.where(c)`. */
  function Where(q: Query, c: Clause): Query {
    q.(criteria := q.criteria + [c])
  }

  /** A clause, rewritten onto the lateral the adapter points at, if any. */
  function Adapt(c: Clause, adapter: Option<string>): Clause {
    if adapter.Some? then Adapted(c, adapter.value) else c
  }

  /**
   * The wrapper `_load_self` puts in place of a self-join's condition: it keeps
   * only the condition's WHERE criteria, rewritten onto the alias; its effect
   * on LIMIT is dropped.
   */
  function AdaptCondition(c: Condition, alias: string): Condition {
    if c.criteria == [] then Condition([], KeepLimit) else Condition([Adapted(AllOf(c.criteria), alias)], KeepLimit)
  }

  /**
   * The loader criteria `_construct_loads` adds for one hop: exactly when the
   * hop's condition has WHERE criteria, the edge is not self-referential, and
   * either it loads a list with no cap or its cumulative path was loaded before
   * while its bare key was not; the criteria are then the condition's own,
   * applied to the target class. `loaded` holds the cumulative paths
   * `_loaded` has options for.
   */
  function Criterion(conditions: Conditions, limit: Option<int>, loaded: set<string>, model: Entity, e: Edge, cp: string): (c: Option<LoaderOption>)
    ensures c.Some? <==>
      && e.key in conditions && conditions[e.key].criteria != []
      && !IsSelfRef(model, e)
      && ((e.toMany && limit.None?) || (cp in loaded && e.key !in loaded))
    ensures c.Some? ==> c == Some(WithLoaderCriteria(e.target, AllOf(conditions[e.key].criteria)))
  {
    if e.key in conditions && !IsSelfRef(model, e)
       && ((e.toMany && limit.None?) || (cp in loaded && e.key !in loaded))
    then
      var probe := Apply(conditions[e.key], Select(e.target));
      assert probe.criteria == conditions[e.key].criteria by {
        assert Select(e.target).criteria == [];
      }
      if WhereClause(probe).Some? then Some(WithLoaderCriteria(e.target, WhereClause(probe).value)) else None
    else None
  }

  /** Which of `_load_relationship`'s branches a hop takes. */
  datatype Route =
    | SelfJoin        // `_load_self`
    | Unbounded       // list without a cap: subquery / selectin load
    | ZipAssociation  // `_load_lateral_zip_m2m`
    | ZipDirect       // `_load_lateral_zip_o2m`
    | PlainLateral    // `_load_lateral`
    | ToOne           // `_load_m2o`
  {
    /** The routes that join a LATERAL subquery for the relationship. */
    predicate IsLateral() {
      ZipAssociation? || ZipDirect? || PlainLateral?
    }
  }

  /**
   * The dispatch of `_load_relationship`, in its priority order: a
   * self-referential edge always self-joins, whatever else holds; only list
   * edges take a lateral, and only with a cap; a row-number table is used
   * only when one was passed, and by an association edge only while its
   * association table has no lateral.
   */
  function RouteOf(model: Entity, limit: Option<int>, lateralMap: map<string, string>, e: Edge, rn: Option<string>): (route: Route)
    ensures IsSelfRef(model, e) <==> route == SelfJoin
    ensures route.IsLateral() ==> e.toMany && limit.Some?
    ensures route.ZipAssociation? || route.ZipDirect? ==> rn.Some?
    ensures route == ZipAssociation <==> !IsSelfRef(model, e) && e.toMany && limit.Some? && rn.Some? && e.secondary.Some? && e.secondary.value !in lateralMap
    ensures route == ZipDirect <==> !IsSelfRef(model, e) && e.toMany && limit.Some? && rn.Some? && e.secondary.None?
    ensures route == ToOne <==> !IsSelfRef(model, e) && !e.toMany
    ensures route == Unbounded <==> !IsSelfRef(model, e) && e.toMany && limit.None?
  {
    if IsSelfRef(model, e) then SelfJoin
    else if e.toMany then
      if limit.None? then Unbounded
      else if rn.Some? && e.secondary.Some? && e.secondary.value !in lateralMap then ZipAssociation
      else if rn.Some? && e.secondary.None? then ZipDirect
      else PlainLateral
    else ToOne
  }

  /**
   * A repeated self-join of the model: a selectin load that carries the
   * WHERE clause the relationship's condition puts on `select(target)`, if any.
   */
  function SelfReload(e: Edge, load: Option<Load>, conditions: Conditions): (l: Load)
    ensures var crit := if e.key in conditions then conditions[e.key].criteria else [];
      l == load.GetOr([]) + [LoadStep(SelectinLoad, e.key, None, if crit == [] then [] else [AllOf(crit)])]
  {
    if e.key in conditions then
      var probe := Apply(conditions[e.key], Select(e.target));
      assert probe.criteria == conditions[e.key].criteria by {
        assert Select(e.target).criteria == [];
      }
      var where := WhereClause(probe);
      if where.Some? then load.GetOr([]) + [LoadStep(SelectinLoad, e.key, None, [where.value])]
      else ConstructStrategy(SelectinLoad, e.key, load, None)
    else ConstructStrategy(SelectinLoad, e.key, load, None)
  }

  /**
   * The join a first self-join adds under the alias `name`: a capped list side
   * is a lateral ON TRUE over the ordered, capped, filtered alias correlated on
   * the parent key; an uncapped list side outer-joins the alias on the parent
   * key and filters the query; a single side outer-joins the alias on the self
   * key, with the condition's criteria rewritten onto the alias.
   */
  function SelfJoinQuery(q: Query, model: Entity, e: Edge, name: string, pk: string, selfKey: string,
                         limit: Option<int>, orderBy: Option<seq<string>>, conditions: Conditions): (r: Query)
    ensures JoinsExtend(q, r)
    ensures |r.joins| == |q.joins| + 1
    ensures r.joins[|q.joins|].right == (if e.toMany && limit.Some? && limit.value != 0 then LateralClause(name) else AliasClause(name, e.target.table))
    ensures e.toMany && limit.Some? && limit.value != 0 ==> r.joins[|q.joins|].on == OnTrue && r.criteria == q.criteria
    ensures !e.toMany ==> r.criteria == q.criteria && r.joins[|q.joins|].on.OnClause?
  {
    var conds := if e.key in conditions then conditions[e.key := AdaptCondition(conditions[e.key], name)] else conditions;
    if e.toMany then
      var parentKey := ColumnEq(model.table + "." + pk, name + "." + selfKey);
      if limit.Some? && limit.value != 0 then
        var sub := Where(ApplyConditions(ApplyOrderBy(WithLimit(SelectAlias(name, e.target.table), limit), e.target, orderBy), e.key, conds), parentKey);
        OuterJoin(q, LateralClause(name), OnTrue, Some(sub))
      else
        ApplyConditions(OuterJoin(q, AliasClause(name, e.target.table), OnClause(parentKey), None), e.key, conds)
    else
      var joinCond := ColumnEq(model.table + "." + selfKey, name + "." + pk);
      var on := if e.key in conditions && conditions[e.key].criteria != [] then AllOf([joinCond, Adapted(AllOf(conditions[e.key].criteria), name)]) else joinCond;
      OuterJoin(q, AliasClause(name, e.target.table), OnClause(on), None)
  }

  /** What a lateral is joined on: the depth's row-number table for a zip route, else TRUE. */
  function LateralOn(route: Route, rn: Option<string>): JoinOn {
    if (route.ZipAssociation? || route.ZipDirect?) && rn.Some? then OnRank(rn.value) else OnTrue
  }

  /** Lateral naming: `_alias` is appended exactly on a collision under `check_tables`, and a non-alias lateral is named after the table. */
  lemma LateralNaming(table: string, key: string, isAlias: bool, checkTables: bool, present: seq<string>)
    ensures var base := LateralName(table, key, isAlias);
      && (Deduplicated(base, checkTables, present) != base <==> checkTables && base in present)
      && (Deduplicated(base, checkTables, present) != base ==> Deduplicated(base, checkTables, present) == base + "_alias")
      && (!isAlias ==> base == table)
      && (isAlias ==> base == table + "_" + key && |base| == |table| + 1 + |key|)
  {
    var base := LateralName(table, key, isAlias);
    if checkTables && base in present {
      assert |base + "_alias"| > |base|;
    }
  }

  /** The SELECT inside an association ZIP lateral: the cap is applied last, so it overrides any limit the condition sets. */
  function ZipAssociationSub(e: Edge, sec: string, adapter: Option<string>, orderBy: Option<seq<string>>, cap: int, conditions: Conditions): Query {
    var inner := Where(Query([Join(Table(sec), Table(e.target.table))], [], [], None, [], [], false), Adapt(PrimaryJoin(e.key), adapter));
    WithLimit(ApplyConditions(ApplyOrderBy(inner, e.target, orderBy), e.key, conditions), Some(cap))
  }

  /** The SELECT inside a direct ZIP lateral: capped first, so a condition may replace the cap. */
  function ZipDirectSub(e: Edge, adapter: Option<string>, orderBy: Option<seq<string>>, cap: int, conditions: Conditions): Query {
    Where(ApplyConditions(ApplyOrderBy(WithLimit(Select(e.target), Some(cap)), e.target, orderBy), e.key, conditions), Adapt(PrimaryJoin(e.key), adapter))
  }

  /** The capped, ordered, conditioned SELECT a plain lateral starts from. */
  function LateralBase(e: Edge, orderBy: Option<seq<string>>, cap: int, conditions: Conditions): Query {
    ApplyConditions(ApplyOrderBy(WithLimit(Select(e.target), Some(cap)), e.target, orderBy), e.key, conditions)
  }

  /**
   * The SELECT inside a plain lateral: filtered on the association join
   * (rewritten onto the association table's lateral when one is registered)
   * or on the join to the parent, rewritten onto the parent's lateral.
   */
  function LateralSub(e: Edge, orderBy: Option<seq<string>>, cap: int, conditions: Conditions,
                      lateralMap: map<string, string>, adapter: Option<string>): Query {
    var base := LateralBase(e, orderBy, cap, conditions);
    if e.secondary.None? then Where(base, Adapt(PrimaryJoin(e.key), adapter))
    else if e.secondary.value in lateralMap then Where(base, Adapted(SecondaryJoin(e.key), lateralMap[e.secondary.value]))
    else Where(base, SecondaryJoin(e.key))
  }

  /**
   * The query once a plain lateral's association table is outer-joined: only
   * for an association without a lateral of its own, and under `check_tables`
   * only when the query does not select from it yet.
   */
  function AssociationJoined(q: Query, e: Edge, adapter: Option<string>, lateralMap: map<string, string>, checkTables: bool): (r: Query)
    ensures JoinsExtend(q, r) && |r.joins| <= |q.joins| + 1
  {
    if e.secondary.Some? && e.secondary.value !in lateralMap && (!checkTables || e.secondary.value !in TableNamesOf(q))
    then OuterJoin(q, Table(e.secondary.value), OnClause(Adapt(PrimaryJoin(e.key), adapter)), None)
    else q
  }

  /**
   * Where a lateral's row limit comes from: an association ZIP lateral always
   * keeps the cap, while a direct ZIP lateral and a plain lateral take the
   * limit the relationship's condition sets, if it sets one.
   */
  lemma LateralLimits(e: Edge, sec: string, adapter: Option<string>, orderBy: Option<seq<string>>, cap: int, conditions: Conditions,
                      lateralMap: map<string, string>)
    ensures ZipAssociationSub(e, sec, adapter, orderBy, cap, conditions).limit == Some(cap)
    ensures var expected := if e.key in conditions && conditions[e.key].limitEffect.SetLimit? then conditions[e.key].limitEffect.value else Some(cap);
      && ZipDirectSub(e, adapter, orderBy, cap, conditions).limit == expected
      && LateralSub(e, orderBy, cap, conditions, lateralMap, adapter).limit == expected
  {
  }

  /** `get_table_names(query)`. */
  method PresentTables(q: Query) returns (names: seq<string>)
    ensures names == TableNamesOf(q)
  {
    names := GetTableNames(FinalFroms(q));
  }

  /** The `_alias` check, computing the query's table names only under `check_tables`. */
  method DeduplicatedIn(name: string, checkTables: bool, q: Query) returns (r: string)
    ensures r == Deduplicated(name, checkTables, TableNamesOf(q))
  {
    r := name;
    if checkTables {
      var present := PresentTables(q);
      r := Deduplicated(name, checkTables, present);
    }
  }

  /** The association-table outer join of `_load_lateral`. */
  method JoinAssociation(q: Query, e: Edge, adapter: Option<string>, lateralMap: map<string, string>, checkTables: bool) returns (r: Query)
    ensures r == AssociationJoined(q, e, adapter, lateralMap, checkTables)
  {
    r := q;
    if e.secondary.Some? && e.secondary.value !in lateralMap {
      var sec := e.secondary.value;
      var primary := Adapt(PrimaryJoin(e.key), adapter);
      if checkTables {
        var present := PresentTables(q);
        if sec !in present {
          r := OuterJoin(q, Table(sec), OnClause(primary), None);
        }
      } else {
        r := OuterJoin(q, Table(sec), OnClause(primary), None);
      }
    }
  }

  /** The new query's FROM list is the old one and its joins extend the old joins. */
  predicate JoinsExtend(before: Query, after: Query) {
    after.froms == before.froms && before.joins <= after.joins
  }

  /** `r` is `load` extended by one link for `key`. */
  predicate ExtendsLoad(r: Load, load: Option<Load>, key: string) {
    |r| >= 1 && r[|r| - 1].key == key && r[..|r| - 1] == load.GetOr([])
  }

  /**
   * The last join of `q` is the lateral registered for the edge's target
   * table, joined on `on`, and the load's last link eagerly loads from it.
   */
  predicate LateralJoined(before: Query, q: Query, lateralMap: map<string, string>, r: Load, e: Edge, on: JoinOn) {
    && e.target.table in lateralMap
    && |r| >= 1 && r[|r| - 1] == LoadStep(ContainsEager, e.key, Some(lateralMap[e.target.table]), [])
    && |q.joins| > |before.joins|
    && q.joins[|q.joins| - 1].right == LateralClause(lateralMap[e.target.table])
    && q.joins[|q.joins| - 1].on == on
  }

  /** Every hop of `path` up to `n` has its cumulative path in `loaded` and its target in `seen`. */
  ghost predicate Walked(path: seq<Edge>, n: nat, loaded: map<string, Load>, seen: set<Entity>)
    requires n <= |path|
  {
    && (forall m :: 1 <= m <= n ==> CumPath(path, m) in loaded)
    && (forall j :: 0 <= j < n ==> path[j].target in seen)
  }

  /** Walking more paths keeps what earlier walks recorded. */
  lemma WalkedKept(path: seq<Edge>, n: nat, loaded: map<string, Load>, seen: set<Entity>, loaded': map<string, Load>, seen': set<Entity>)
    requires n <= |path| && Walked(path, n, loaded, seen)
    requires loaded.Keys <= loaded'.Keys && seen <= seen'
    ensures Walked(path, n, loaded', seen')
  {
    forall m | 1 <= m <= n ensures CumPath(path, m) in loaded' {
      assert CumPath(path, m) in loaded.Keys;
    }
  }

  /** One more hop walked: its cumulative path is loaded and its class seen. */
  lemma WalkedStep(path: seq<Edge>, n: nat, loaded: map<string, Load>, seen: set<Entity>, loaded': map<string, Load>, seen': set<Entity>)
    requires n < |path| && Walked(path, n, loaded, seen)
    requires loaded.Keys <= loaded'.Keys && seen <= seen'
    requires CumPath(path, n + 1) in loaded' && path[n].target in seen'
    ensures Walked(path, n + 1, loaded', seen')
  {
    WalkedKept(path, n, loaded, seen, loaded', seen');
  }

  /**
   * What one call of `_load_relationship` yields and leaves behind: the
   * option (or the error it raises), the query, `_lateral_map`,
   * `_self_ref_loaded`, and whether the strategy warning was issued.
   */
  datatype HopLoad = HopLoad(r: Result<Load, BuildError>, query: Query, lateralMap: map<string, string>,
                             selfRefLoaded: set<Entity>, warned: bool)

  /**
   * The errors `_load_relationship` can raise for edge `e`: a self join
   * without a self key, or a class on the edge without a table name, or a
   * self-joined model without a primary key.
   */
  predicate LoadFailure(err: BuildError, e: Edge, model: Entity, selfKey: string) {
    || (err == MissingSelfKey && IsSelfRef(model, e) && selfKey == "")
    || (TableName(e.target).Failure? && err == Naming(TableName(e.target).error))
    || (TableName(e.source).Failure? && err == Naming(TableName(e.source).error))
    || (PrimaryKey(model).Failure? && err == Naming(PrimaryKey(model).error) && IsSelfRef(model, e))
  }

  /** The keys of `_loaded` once the first `n` hops of `path` are walked, starting from `keys`. */
  function KeysAfter(keys: set<string>, path: seq<Edge>, n: nat): set<string>
    requires n <= |path|
  {
    if n == 0 then keys else KeysAfter(keys, path, n - 1) + {CumPath(path, n)}
  }

  /** `_seen_classes` once the first `n` hops of `path` are walked, starting from `seen`. */
  function SeenAfter(seen: set<Entity>, path: seq<Edge>, n: nat): set<Entity>
    requires n <= |path|
  {
    if n == 0 then seen else SeenAfter(seen, path, n - 1) + {path[n - 1].target}
  }

  /**
   * `_first_load_by_class` once the first `n` hops of `path` are walked,
   * starting from `first` with `keys` loaded: a hop that was not loaded before
   * records its option (as `loads` holds it) for its class, unless the class
   * has one already.
   */
  function FirstAfter(first: map<Entity, Load>, keys: set<string>, path: seq<Edge>, loads: map<string, Load>, n: nat): map<Entity, Load>
    requires n <= |path|
  {
    if n == 0 then first
    else
      var f := FirstAfter(first, keys, path, loads, n - 1);
      var cp := CumPath(path, n);
      if cp !in KeysAfter(keys, path, n - 1) && path[n - 1].target !in f && cp in loads
      then f[path[n - 1].target := loads[cp]]
      else f
  }

  /** A load error of a hop of some chain of `order` is one of some chain of `resolved`, of which `order` is a reordering. */
  lemma FailureReordered(resolved: seq<seq<Edge>>, order: seq<seq<Edge>>, err: BuildError, model: Entity, selfKey: string)
    requires multiset(order) == multiset(resolved)
    requires exists i, j :: 0 <= i < |order| && 0 <= j < |order[i]| && LoadFailure(err, order[i][j], model, selfKey)
    ensures exists i, j :: 0 <= i < |resolved| && 0 <= j < |resolved[i]| && LoadFailure(err, resolved[i][j], model, selfKey)
  {
    var i, j :| 0 <= i < |order| && 0 <= j < |order[i]| && LoadFailure(err, order[i][j], model, selfKey);
    assert order[i] in multiset(resolved);
    var k :| 0 <= k < |resolved| && resolved[k] == order[i];
    assert LoadFailure(err, resolved[k][j], model, selfKey);
  }

  /** Every chain of `order` walked with its option present: so is every chain of `resolved`, of which `order` is a reordering. */
  lemma WalkedReordered(resolved: seq<seq<Edge>>, order: seq<seq<Edge>>, loaded: map<string, Load>, seen: set<Entity>,
                        options: seq<LoaderOption>)
    requires multiset(order) == multiset(resolved) && AllNonEmpty(order)
    requires forall i :: 0 <= i < |order| ==>
      && Walked(order[i], |order[i]|, loaded, seen)
      && Eager(loaded[CumPath(order[i], |order[i]|)]) in options
    ensures forall i :: 0 <= i < |resolved| ==>
      && resolved[i] != []
      && Walked(resolved[i], |resolved[i]|, loaded, seen)
      && Eager(loaded[CumPath(resolved[i], |resolved[i]|)]) in options
  {
    forall i | 0 <= i < |resolved|
      ensures resolved[i] != [] && Walked(resolved[i], |resolved[i]|, loaded, seen)
      ensures Eager(loaded[CumPath(resolved[i], |resolved[i]|)]) in options
    {
      assert resolved[i] in multiset(order);
      var k :| 0 <= k < |order| && order[k] == resolved[i];
    }
  }

  /**
   * The first `i` chains of `order` walked with their options present, and
   * then chain `i` too: all of the first `i + 1` are, once earlier loads,
   * classes and options are kept.
   */
  lemma CoveredKept(order: seq<seq<Edge>>, i: nat, loaded0: map<string, Load>, seen0: set<Entity>, options0: seq<LoaderOption>,
                    loaded: map<string, Load>, seen: set<Entity>, options: seq<LoaderOption>)
    requires i < |order| && forall k :: 0 <= k <= i ==> order[k] != []
    requires forall k :: 0 <= k < i ==>
      && Walked(order[k], |order[k]|, loaded0, seen0)
      && Eager(loaded0[CumPath(order[k], |order[k]|)]) in options0
    requires forall cp :: cp in loaded0 ==> cp in loaded && loaded[cp] == loaded0[cp]
    requires seen0 <= seen && options0 <= options
    requires Walked(order[i], |order[i]|, loaded, seen) && Eager(loaded[CumPath(order[i], |order[i]|)]) in options
    ensures forall k :: 0 <= k <= i ==>
      && Walked(order[k], |order[k]|, loaded, seen)
      && Eager(loaded[CumPath(order[k], |order[k]|)]) in options
  {
    forall k | 0 <= k < i
      ensures Walked(order[k], |order[k]|, loaded, seen)
      ensures Eager(loaded[CumPath(order[k], |order[k]|)]) in options
    {
      WalkedKept(order[k], |order[k]|, loaded0, seen0, loaded, seen);
      assert Eager(loaded0[CumPath(order[k], |order[k]|)]) in options0;
    }
  }

  /** The walk bookkeeping between two chains: `_loaded`, `_seen_classes` and `_first_load_by_class`. */
  datatype WalkState = WalkState(loaded: map<string, Load>, seen: set<Entity>, first: map<Entity, Load>)

  /**
   * Walking the non-empty `path` from `s` leaves `s'`: the keys, classes and
   * first options the walk adds, with the whole path loaded.
   */
  ghost predicate Stepped(s: WalkState, s': WalkState, path: seq<Edge>) {
    && path != []
    && CumPath(path, |path|) in s'.loaded
    && s'.loaded.Keys == KeysAfter(s.loaded.Keys, path, |path|)
    && s'.seen == SeenAfter(s.seen, path, |path|)
    && s'.first == FirstAfter(s.first, s.loaded.Keys, path, s'.loaded, |path|)
  }

  /** `states[i + 1]` is what walking `order[i]` from `states[i]` leaves, for every chain of `order`. */
  ghost predicate Chained(order: seq<seq<Edge>>, states: seq<WalkState>) {
    && |states| == |order| + 1
    && forall i :: 0 <= i < |order| ==> Stepped(states[i], states[i + 1], order[i])
  }

  /**
   * The extra selectin loads of the first `n` hops: a hop that was not loaded
   * before, reaching an already-seen class over a to-one edge whose parent
   * class has a first option, loads the edge again from that option.
   */
  function HopExtras(seen: set<Entity>, first: map<Entity, Load>, keys: set<string>, path: seq<Edge>, loads: map<string, Load>, n: nat): seq<LoaderOption>
    requires n <= |path|
  {
    if n == 0 then []
    else
      var e := path[n - 1];
      var f := FirstAfter(first, keys, path, loads, n - 1);
      HopExtras(seen, first, keys, path, loads, n - 1)
        + if CumPath(path, n) !in KeysAfter(keys, path, n - 1) && e.target in SeenAfter(seen, path, n - 1) && !e.toMany && e.source in f
          then [Eager(ConstructStrategy(SelectinLoad, e.key, Some(f[e.source]), None))]
          else []
  }

  /** The first-load bookkeeping and the extras depend only on the options of the hops walked so far. */
  lemma {:induction false} AlongAgree(seen: set<Entity>, first: map<Entity, Load>, keys: set<string>, path: seq<Edge>,
                                      loads: map<string, Load>, loads': map<string, Load>, n: nat)
    requires n <= |path|
    requires forall m :: 1 <= m <= n ==> CumPath(path, m) in loads && CumPath(path, m) in loads' && loads'[CumPath(path, m)] == loads[CumPath(path, m)]
    ensures FirstAfter(first, keys, path, loads', n) == FirstAfter(first, keys, path, loads, n)
    ensures HopExtras(seen, first, keys, path, loads', n) == HopExtras(seen, first, keys, path, loads, n)
  {
    if n > 0 {
      AlongAgree(seen, first, keys, path, loads, loads', n - 1);
    }
  }

  /**
   * A lateral named `name` over `sub` outer-joined to `base` on `on` and
   * registered for the edge's target table, the option contains-eager
   * loading the edge from it.
   */
  function JoinLateral(base: Query, lm: map<string, string>, srl: set<Entity>, w: bool, e: Edge, load: Option<Load>,
                       name: string, on: JoinOn, sub: Query): (h: HopLoad)
    ensures h.r.Success? && h.selfRefLoaded == srl && h.warned == w
    ensures JoinsExtend(base, h.query) && |h.query.joins| == |base.joins| + 1
    ensures h.lateralMap == lm[e.target.table := name]
    ensures ExtendsLoad(h.r.value, load, e.key) && LateralJoined(base, h.query, h.lateralMap, h.r.value, e, on)
  {
    HopLoad(Success(ConstructStrategy(ContainsEager, e.key, load, Some(name))), OuterJoin(base, LateralClause(name), on, Some(sub)),
            lm[e.target.table := name], srl, w)
  }

  /**
   * The bookkeeping of one hop of `_construct_loads`, from (`loaded0`,
   * `seen0`, `first0`) to (`loaded1`, `seen1`, `first1`) with option `l` and
   * extra load `extra`: a reused path changes nothing but the seen classes; a
   * new one is recorded, with its class's first option and its extra load.
   * It keeps the walk's bookkeeping in step with `KeysAfter`, `SeenAfter`,
   * `FirstAfter` and `HopExtras`.
   */
  lemma StepAlong(keys: set<string>, seen: set<Entity>, first: map<Entity, Load>, path: seq<Edge>, depth: nat,
                  loaded0: map<string, Load>, seen0: set<Entity>, first0: map<Entity, Load>,
                  loaded1: map<string, Load>, seen1: set<Entity>, first1: map<Entity, Load>, l: Load, extra: Option<LoaderOption>)
    requires depth < |path| && Walked(path, depth, loaded0, seen0)
    requires loaded0.Keys == KeysAfter(keys, path, depth) && seen0 == SeenAfter(seen, path, depth)
    requires first0 == FirstAfter(first, keys, path, loaded0, depth)
    requires var cp := CumPath(path, depth + 1);
      && seen1 == seen0 + {path[depth].target}
      && (cp in loaded0 ==> loaded1 == loaded0 && first1 == first0 && extra.None? && l == loaded0[cp])
      && (cp !in loaded0 ==>
        && loaded1 == loaded0[cp := l]
        && first1 == (if path[depth].target in first0 then first0 else first0[path[depth].target := l])
        && extra == (if path[depth].target in seen0 && !path[depth].toMany && path[depth].source in first0
                     then Some(Eager(ConstructStrategy(SelectinLoad, path[depth].key, Some(first0[path[depth].source]), None)))
                     else None))
    ensures Walked(path, depth + 1, loaded1, seen1)
    ensures loaded1.Keys == KeysAfter(keys, path, depth + 1) && seen1 == SeenAfter(seen, path, depth + 1)
    ensures first1 == FirstAfter(first, keys, path, loaded1, depth + 1)
    ensures HopExtras(seen, first, keys, path, loaded1, depth + 1)
            == HopExtras(seen, first, keys, path, loaded0, depth) + if extra.Some? then [extra.value] else []
  {
    assert loaded0.Keys <= loaded1.Keys;
    WalkedStep(path, depth, loaded0, seen0, loaded1, seen1);
    AlongAgree(seen, first, keys, path, loaded0, loaded1, depth);
  }

  /** The outer joins of `n` row-number tables over a CTE counting up to `bound`. */
  function RankJoins(n: nat, bound: int): (js: seq<JoinStep>)
    ensures |js| == n
    ensures forall idx :: 0 <= idx < n ==> js[idx].right == RankTable(idx) && js[idx].on == OnTrue && js[idx].sub == Some(RankSeries(bound))
  {
    seq(n, idx requires 0 <= idx < n => JoinStep(RankTable(idx), OnTrue, Some(RankSeries(bound))))
  }

  /** How one load key resolves: a dotted key by walking its segments, a plain key by breadth-first search. */
  ghost predicate Resolves(g: Graph, model: Entity, key: string, p: seq<Edge>) {
    if '.' in key then Walk(g, model, key, Split(key)) == Success(p) else BfsResult(g, model, key, p) && p == BfsOrder(g, model, key)
  }

  /** Every dotted key among the first `n` resolves. */
  ghost predicate ResolvableBefore(g: Graph, model: Entity, keys: seq<string>, n: nat)
    requires n <= |keys|
  {
    forall i :: 0 <= i < n && '.' in keys[i] ==> Walk(g, model, keys[i], Split(keys[i])).Success?
  }

  /** `Resolves` as a relation value. */
  ghost function ResolvesIn(g: Graph, model: Entity): (string, seq<Edge>) -> bool {
    (key: string, p: seq<Edge>) => Resolves(g, model, key, p)
  }

  /** `R` relates each of the first `|ys|` elements of `xs` to the element of `ys` at its position. */
  ghost predicate Pointwise<A, B>(R: (A, B) -> bool, xs: seq<A>, ys: seq<B>)
    requires |ys| <= |xs|
  {
    forall i :: 0 <= i < |ys| ==> R(xs[i], ys[i])
  }

  lemma PointwiseSnoc<A, B>(R: (A, B) -> bool, xs: seq<A>, ys: seq<B>, y: B)
    requires |ys| < |xs| && Pointwise(R, xs, ys) && R(xs[|ys|], y)
    ensures Pointwise(R, xs, ys + [y])
  {
    forall i | 0 <= i < |ys| + 1 ensures R(xs[i], (ys + [y])[i]) {
      if i < |ys| {
        assert (ys + [y])[i] == ys[i];
      }
    }
  }

  /** Each of the first `|paths|` keys resolves to the path at its position. */
  ghost predicate AllResolve(g: Graph, model: Entity, keys: seq<string>, paths: seq<seq<Edge>>)
    requires |paths| <= |keys|
  {
    Pointwise(ResolvesIn(g, model), keys, paths)
  }

  /** One key of `build`'s resolution loop: `_resolve_dotted_path` for a dotted key, `_bfs_search` otherwise. */
  method ResolveKey(g: Graph, model: Entity, key: string) returns (r: Result<seq<Edge>, DottedError>)
    ensures r.Failure? <==> '.' in key && Walk(g, model, key, Split(key)).Failure?
    ensures r.Failure? ==> Walk(g, model, key, Split(key)) == Failure(r.error)
    ensures r.Success? ==> Resolves(g, model, key, r.value)
  {
    if '.' in key {
      SplitShape(key);
      r := ResolveDottedPath(g, model, key);
    } else {
      var path := BfsSearch(g, model, key);
      r := Success(path);
    }
  }

  /** The non-empty paths among `paths`, in order. */
  function NonEmpty(paths: seq<seq<Edge>>): seq<seq<Edge>> {
    if paths == [] then []
    else NonEmpty(paths[..|paths| - 1]) + (if paths[|paths| - 1] != [] then [paths[|paths| - 1]] else [])
  }

  /** The filter keeps exactly the non-empty paths. */
  lemma {:induction false} NonEmptyMembers(paths: seq<seq<Edge>>)
    ensures AllNonEmpty(NonEmpty(paths))
    ensures forall i :: 0 <= i < |paths| && paths[i] != [] ==> paths[i] in NonEmpty(paths)
    ensures forall p :: p in NonEmpty(paths) ==> p in paths
  {
    if paths != [] {
      var init := paths[..|paths| - 1];
      NonEmptyMembers(init);
      forall i | 0 <= i < |paths| && paths[i] != [] ensures paths[i] in NonEmpty(paths) {
        if i < |init| {
          assert paths[i] == init[i];
        }
      }
      forall p | p in NonEmpty(paths) ensures p in paths {
        if p in NonEmpty(init) {
          var i :| 0 <= i < |init| && init[i] == p;
          assert paths[i] == p;
        }
      }
    }
  }

  /**
   * The resolution loop of `build`: each key in turn; the first dotted key
   * that does not resolve raises; otherwise `paths[i]` is what the `i`-th key
   * resolved to, and the result keeps the non-empty ones, in order.
   */
  method ResolveAll(g: Graph, model: Entity, keys: seq<string>) returns (r: Result<seq<seq<Edge>>, BuildError>, ghost paths: seq<seq<Edge>>)
    ensures r.Failure? <==> !ResolvableBefore(g, model, keys, |keys|)
    ensures r.Failure? ==> r.error.Unresolved? && exists i :: 0 <= i < |keys| && '.' in keys[i] && Walk(g, model, keys[i], Split(keys[i])) == Failure(r.error.cause)
    ensures r.Success? ==> |paths| == |keys| && r.value == NonEmpty(paths) && AllResolve(g, model, keys, paths)
  {
    var resolved: seq<seq<Edge>> := [];
    paths := [];
    for i := 0 to |keys|
      invariant ResolvableBefore(g, model, keys, i)
      invariant |paths| == i && resolved == NonEmpty(paths)
      invariant AllResolve(g, model, keys, paths)
    {
      var found := ResolveKey(g, model, keys[i]);
      if found.Failure? {
        return Failure(Unresolved(found.error)), paths;
      }
      ResolveStep(g, model, keys, paths, found.value);
      ResolvableStep(g, model, keys, i);
      NonEmptySnoc(paths, found.value);
      paths := paths + [found.value];
      if found.value != [] {
        resolved := resolved + [found.value];
      }
    }
    return Success(resolved), paths;
  }

  /** One more key resolved: the prefix facts extend by its path. */
  lemma ResolveStep(g: Graph, model: Entity, keys: seq<string>, paths: seq<seq<Edge>>, p: seq<Edge>)
    requires |paths| < |keys| && AllResolve(g, model, keys, paths)
    requires Resolves(g, model, keys[|paths|], p)
    ensures AllResolve(g, model, keys, paths + [p])
  {
    assert ResolvesIn(g, model)(keys[|paths|], p);
    PointwiseSnoc(ResolvesIn(g, model), keys, paths, p);
  }

  /** A key that resolves keeps every earlier dotted key resolvable. */
  lemma ResolvableStep(g: Graph, model: Entity, keys: seq<string>, n: nat)
    requires n < |keys| && ResolvableBefore(g, model, keys, n)
    requires '.' in keys[n] ==> Walk(g, model, keys[n], Split(keys[n])).Success?
    ensures ResolvableBefore(g, model, keys, n + 1)
  {
  }

  /** The filter of one more path. */
  lemma NonEmptySnoc(paths: seq<seq<Edge>>, p: seq<Edge>)
    ensures NonEmpty(paths + [p]) == NonEmpty(paths) + (if p != [] then [p] else [])
  {
    assert (paths + [p])[..|paths|] == paths;
  }

  /** Reordering the keys neither adds nor removes an unresolvable one. */
  lemma ResolvableInOrder(g: Graph, model: Entity, loads: seq<string>, order: seq<string>)
    requires multiset(order) == multiset(loads)
    ensures ResolvableBefore(g, model, order, |order|) <==> forall k :: k in loads && '.' in k ==> Walk(g, model, k, Split(k)).Success?
  {
    if ResolvableBefore(g, model, order, |order|) {
      forall k | k in loads && '.' in k ensures Walk(g, model, k, Split(k)).Success? {
        assert k in multiset(order);
        var i :| 0 <= i < |order| && order[i] == k;
      }
    }
    if forall k :: k in loads && '.' in k ==> Walk(g, model, k, Split(k)).Success? {
      forall i | 0 <= i < |order| && '.' in order[i] ensures Walk(g, model, order[i], Split(order[i])).Success? {
        assert order[i] in multiset(loads);
      }
    }
  }

  /** A dotted key of the reordered keys that does not resolve is one of the requested keys. */
  lemma UnresolvedTraced(g: Graph, model: Entity, loads: seq<string>, order: seq<string>, cause: DottedError)
    requires multiset(order) == multiset(loads)
    requires exists i :: 0 <= i < |order| && '.' in order[i] && Walk(g, model, order[i], Split(order[i])) == Failure(cause)
    ensures exists k :: k in loads && '.' in k && Walk(g, model, k, Split(k)) == Failure(cause)
  {
    var i :| 0 <= i < |order| && '.' in order[i] && Walk(g, model, order[i], Split(order[i])) == Failure(cause);
    assert order[i] in multiset(loads);
  }

  /** An error raised while walking the non-empty resolved paths was raised by a hop of the path some requested key resolves to. */
  lemma FailureTraced(g: Graph, model: Entity, loads: seq<string>, order: seq<string>, paths: seq<seq<Edge>>, err: BuildError, selfKey: string)
    requires multiset(order) == multiset(loads) && |paths| == |order|
    requires AllResolve(g, model, order, paths)
    requires exists i, j :: 0 <= i < |NonEmpty(paths)| && 0 <= j < |NonEmpty(paths)[i]| && LoadFailure(err, NonEmpty(paths)[i][j], model, selfKey)
    ensures exists k, p, j :: k in loads && Resolves(g, model, k, p) && 0 <= j < |p| && LoadFailure(err, p[j], model, selfKey)
  {
    var i, j :| 0 <= i < |NonEmpty(paths)| && 0 <= j < |NonEmpty(paths)[i]| && LoadFailure(err, NonEmpty(paths)[i][j], model, selfKey);
    var p := NonEmpty(paths)[i];
    NonEmptyMembers(paths);
    assert p in paths;
    var m :| 0 <= m < |paths| && paths[m] == p;
    assert ResolvesIn(g, model)(order[m], paths[m]);
    assert order[m] in multiset(loads);
  }

  /** Every requested key resolves to a path that was walked, or to none. */
  lemma LoadsCovered(g: Graph, model: Entity, loads: seq<string>, order: seq<string>, paths: seq<seq<Edge>>,
                     loaded: map<string, Load>, seen: set<Entity>, options: seq<LoaderOption>)
    requires multiset(order) == multiset(loads) && |paths| == |order|
    requires AllResolve(g, model, order, paths)
    requires forall i :: 0 <= i < |NonEmpty(paths)| ==>
      var p := NonEmpty(paths)[i];
      p != [] && Walked(p, |p|, loaded, seen) && Eager(loaded[CumPath(p, |p|)]) in options
    ensures forall k :: k in loads ==>
      exists p :: Resolves(g, model, k, p) && (p != [] ==> Walked(p, |p|, loaded, seen) && Eager(loaded[CumPath(p, |p|)]) in options)
  {
    NonEmptyMembers(paths);
    forall k | k in loads
      ensures exists p :: Resolves(g, model, k, p) && (p != [] ==> Walked(p, |p|, loaded, seen) && Eager(loaded[CumPath(p, |p|)]) in options)
    {
      assert k in multiset(order);
      var i :| 0 <= i < |order| && order[i] == k;
      var p := paths[i];
      if p != [] {
        assert p in NonEmpty(paths);
        var idx :| 0 <= idx < |NonEmpty(paths)| && NonEmpty(paths)[idx] == p;
      }
      assert Resolves(g, model, k, p);
    }
  }

  /** `SelectBuilder(...)`: refuses the declarative base itself, then starts from `select(model)`. */
  method NewSelectBuilder(model: Entity, graph: Graph, limit: Option<int>, checkTables: bool, conditions: Conditions,
                          selfKey: string, orderBy: Option<seq<string>>, manyLoad: string, distinct: bool, optimization: bool)
    returns (r: Result<SelectBuilder, BuildError>)
    ensures r.Failure? <==> model.declarativeRoot
    ensures r.Failure? ==> r.error == DeclarativeBaseModel
    ensures r.Success? ==>
      && fresh(r.value) && r.value.Valid()
      && r.value.model == model && r.value.graph == graph && r.value.limit == limit && r.value.checkTables == checkTables
      && r.value.conditions == conditions && r.value.selfKey == selfKey && r.value.orderBy == orderBy
      && r.value.manyLoad == manyLoad && r.value.distinct == distinct && r.value.optimization == optimization
      && r.value.query == Select(model) && r.value.options == [] && r.value.loaded == map[]
  {
    if model.declarativeRoot {
      return Failure(DeclarativeBaseModel);
    }
    var b := new SelectBuilder(model, graph, limit, checkTables, conditions, selfKey, orderBy, manyLoad, distinct, optimization);
    return Success(b);
  }

  class SelectBuilder {
    const model: Entity
    /** The relationship mapping of the `Node` handed to the builder. */
    const graph: Graph
    const limit: Option<int>
    const checkTables: bool
    const conditions: Conditions
    const selfKey: string
    const orderBy: Option<seq<string>>
    const manyLoad: string
    const distinct: bool
    const optimization: bool

    var query: Query
    var options: seq<LoaderOption>
    /** `_loaded`: cumulative path -> its loader option. */
    var loaded: map<string, Load>
    var seenClasses: set<Entity>
    var selfRefLoaded: set<Entity>
    var firstLoadByClass: map<Entity, Load>
    /** `_lateral_map`: table name -> name of the lateral standing for it. */
    var lateralMap: map<string, string>
    /** `_zip_levels`: depth -> name of its row-number table. */
    var zipLevels: map<nat, string>
    /** Whether the unknown-strategy warning was issued. */
    var warned: bool

    /** What the builder keeps true between operations. */
    predicate Valid()
      reads this
    {
      && model in seenClasses
      && selfRefLoaded <= {model}
      && firstLoadByClass.Keys <= seenClasses
    }

    /** `__init__` once the model check has passed. */
    constructor (model: Entity, graph: Graph, limit: Option<int>, checkTables: bool, conditions: Conditions,
                 selfKey: string, orderBy: Option<seq<string>>, manyLoad: string, distinct: bool, optimization: bool)
      requires !model.declarativeRoot
      ensures this.model == model && this.graph == graph && this.limit == limit && this.checkTables == checkTables
      ensures this.conditions == conditions && this.selfKey == selfKey && this.orderBy == orderBy
      ensures this.manyLoad == manyLoad && this.distinct == distinct && this.optimization == optimization
      ensures query == Select(model) && options == [] && loaded == map[] && seenClasses == {model}
      ensures selfRefLoaded == {} && firstLoadByClass == map[] && lateralMap == map[] && zipLevels == map[] && !warned
      ensures Valid()
    {
      this.model := model;
      this.graph := graph;
      this.limit := limit;
      this.checkTables := checkTables;
      this.conditions := conditions;
      this.selfKey := selfKey;
      this.orderBy := orderBy;
      this.manyLoad := manyLoad;
      this.distinct := distinct;
      this.optimization := optimization;
      query := Select(model);
      options := [];
      loaded := map[];
      seenClasses := {model};
      selfRefLoaded := {};
      firstLoadByClass := map[];
      lateralMap := map[];
      zipLevels := map[];
      warned := false;
    }

    /** `_get_clause_adapter(table)`: the lateral standing for `table`, if one was registered. */
    function ClauseAdapter(table: string): (a: Option<string>)
      reads this
      ensures a.Some? <==> table in lateralMap
    {
      if table in lateralMap then Some(lateralMap[table]) else None
    }

    /**
     * The self-join route of `_load_relationship` from state (`q`, `lm`,
     * `srl`, `w`): without a self key it raises; then `_load_self`, which
     * reloads a model already self-joined, and otherwise joins the alias
     * `{table}_{key}` and records the model.
     */
    function SelfRoute(q: Query, lm: map<string, string>, srl: set<Entity>, w: bool, e: Edge, load: Option<Load>): (h: HopLoad)
      requires IsSelfRef(model, e)
      ensures h.lateralMap == lm && h.warned == w
      ensures JoinsExtend(q, h.query)
      ensures h.selfRefLoaded <= srl + {model}
      ensures h.r.Failure? <==> selfKey == "" || (model !in srl && (TableName(e.target).Failure? || PrimaryKey(model).Failure?))
      ensures h.r.Failure? ==> h.query == q && h.selfRefLoaded == srl && LoadFailure(h.r.error, e, model, selfKey)
      ensures h.r.Success? ==> ExtendsLoad(h.r.value, load, e.key) && model in h.selfRefLoaded
      ensures model in srl && selfKey != "" ==> h.r == Success(SelfReload(e, load, conditions)) && h.query == q && h.selfRefLoaded == srl
    {
      if selfKey == "" then HopLoad(Failure(MissingSelfKey), q, lm, srl, w)
      else if model in srl then HopLoad(Success(SelfReload(e, load, conditions)), q, lm, srl, w)
      else if TableName(e.target).Failure? then HopLoad(Failure(Naming(TableName(e.target).error)), q, lm, srl, w)
      else if PrimaryKey(model).Failure? then HopLoad(Failure(Naming(PrimaryKey(model).error)), q, lm, srl, w)
      else
        var name := TableName(e.target).value + "_" + e.key;
        HopLoad(Success(ConstructStrategy(ContainsEager, e.key, load, Some(name))),
                SelfJoinQuery(q, model, e, name, PrimaryKey(model).value, selfKey, limit, orderBy, conditions),
                lm, srl + {model}, w)
    }

    /** The to-one route of `_load_relationship` (`_load_m2o`) from state (`q`, `lm`, `srl`, `w`). */
    function ToOneRoute(q: Query, lm: map<string, string>, srl: set<Entity>, w: bool, e: Edge, load: Option<Load>, isAlias: bool): (h: HopLoad)
      ensures h.lateralMap == lm && h.selfRefLoaded == srl && h.warned == w
      ensures JoinsExtend(q, h.query)
      ensures h.r.Failure? <==> !isAlias && TableName(e.source).Failure?
      ensures h.r.Failure? ==> h.query == q && LoadFailure(h.r.error, e, model, selfKey)
      ensures h.r.Success? ==> ExtendsLoad(h.r.value, load, e.key)
      ensures isAlias ==> h.r == Success(ConstructStrategy(SelectinLoad, e.key, load, None)) && h.query == q
    {
      if isAlias then HopLoad(Success(ConstructStrategy(SelectinLoad, e.key, load, None)), q, lm, srl, w)
      else if TableName(e.source).Failure? then HopLoad(Failure(Naming(TableName(e.source).error)), q, lm, srl, w)
      else if TableName(e.source).value in TableNamesOf(q) then
        HopLoad(Success(ConstructStrategy(ContainsEager, e.key, load, None)),
                ApplyConditions(OuterJoin(q, Table(e.target.table), OnClause(PrimaryJoin(e.key)), None), e.key, conditions),
                lm, srl, w)
      else HopLoad(Success(ConstructStrategy(JoinedLoad, e.key, load, None)), q, lm, srl, w)
    }

    /**
     * The lateral routes of `_load_relationship` from state (`q`, `lm`,
     * `srl`, `w`), each with the clause adapter of the edge's source table:
     * the lateral is joined, registered for the target's table, and the
     * option contains-eager loads from it.
     */
    function LateralRoute(q: Query, lm: map<string, string>, srl: set<Entity>, w: bool, e: Edge, load: Option<Load>,
                          isAlias: bool, rn: Option<string>): (h: HopLoad)
      requires RouteOf(model, limit, lm, e, rn).IsLateral()
      ensures h.selfRefLoaded == srl && h.warned == w
      ensures JoinsExtend(q, h.query)
      ensures h.r.Failure? <==> TableName(e.target).Failure?
      ensures h.r.Failure? ==> h.query == q && h.lateralMap == lm && LoadFailure(h.r.error, e, model, selfKey)
      ensures h.r.Success? ==>
        && ExtendsLoad(h.r.value, load, e.key)
        && e.target.table in h.lateralMap && h.lateralMap == lm[e.target.table := h.lateralMap[e.target.table]]
        && LateralJoined(q, h.query, h.lateralMap, h.r.value, e, LateralOn(RouteOf(model, limit, lm, e, rn), rn))
    {
      var adapter := if e.source.table in lm then Some(lm[e.source.table]) else None;
      if TableName(e.target).Failure? then HopLoad(Failure(Naming(TableName(e.target).error)), q, lm, srl, w)
      else
        var table := TableName(e.target).value;
        match RouteOf(model, limit, lm, e, rn)
        case ZipAssociation =>
          JoinLateral(q, lm, srl, w, e, load, LateralName(table, e.key, isAlias), OnRank(rn.value),
                      ZipAssociationSub(e, e.secondary.value, adapter, orderBy, limit.value, conditions))
        case ZipDirect =>
          JoinLateral(q, lm, srl, w, e, load, Deduplicated(LateralName(table, e.key, isAlias), checkTables, TableNamesOf(q)), OnRank(rn.value),
                      ZipDirectSub(e, adapter, orderBy, limit.value, conditions))
        case PlainLateral => PlainLateralJoin(q, lm, srl, w, e, load, table, isAlias, adapter, limit.value)
    }

    /** `_load_lateral` once the target's table name is known: the association table, if needed, then the lateral ON TRUE. */
    function PlainLateralJoin(q: Query, lm: map<string, string>, srl: set<Entity>, w: bool, e: Edge, load: Option<Load>,
                              table: string, isAlias: bool, adapter: Option<string>, cap: int): (h: HopLoad)
      ensures h.r.Success? && h.selfRefLoaded == srl && h.warned == w
      ensures JoinsExtend(q, h.query) && e.target.table in h.lateralMap && h.lateralMap == lm[e.target.table := h.lateralMap[e.target.table]]
      ensures ExtendsLoad(h.r.value, load, e.key) && LateralJoined(q, h.query, h.lateralMap, h.r.value, e, OnTrue)
    {
      var mid := AssociationJoined(q, e, adapter, lm, checkTables);
      JoinLateral(mid, lm, srl, w, e, load, Deduplicated(LateralName(table, e.key, isAlias), checkTables, TableNamesOf(mid)), OnTrue,
                  LateralSub(e, orderBy, cap, conditions, lm, adapter))
    }

    /**
     * `_load_relationship` from state (`q`, `lm`, `srl`, `w`), dispatched by
     * `RouteOf`. Only the self-join route touches `_self_ref_loaded`, only an
     * uncapped list warns (exactly for an unknown strategy name) and leaves the
     * query alone, and only the lateral routes register a lateral; every route
     * keeps the FROM list and earlier joins and extends the load by the key;
     * a failure changes nothing and is one of the load errors of the edge.
     */
    function RelationshipLoad(q: Query, lm: map<string, string>, srl: set<Entity>, w: bool, e: Edge, load: Option<Load>,
                              isAlias: bool, rn: Option<string>): (h: HopLoad)
      ensures JoinsExtend(q, h.query)
      ensures h.selfRefLoaded <= srl + {model}
      ensures h.r.Success? ==> ExtendsLoad(h.r.value, load, e.key)
      ensures h.r.Failure? ==>
        && h.query == q && h.lateralMap == lm && h.selfRefLoaded == srl && h.warned == w
        && LoadFailure(h.r.error, e, model, selfKey)
    {
      match RouteOf(model, limit, lm, e, rn)
      case SelfJoin => SelfRoute(q, lm, srl, w, e, load)
      case Unbounded =>
        var strategy := ManyLoadStrategy(manyLoad);
        HopLoad(Success(ConstructStrategy(strategy.GetOr(SubqueryLoad), e.key, load, None)), q, lm, srl, w || strategy.None?)
      case ToOne => ToOneRoute(q, lm, srl, w, e, load, isAlias)
      case _ => LateralRoute(q, lm, srl, w, e, load, isAlias, rn)
    }

    /**
     * What each route of `RelationshipLoad` touches: only the self-join route
     * touches `_self_ref_loaded`, only an uncapped list warns (exactly for an
     * unknown strategy name) and leaves the query alone, and only the lateral
     * routes register a lateral.
     */
    lemma RelationshipRoutes(q: Query, lm: map<string, string>, srl: set<Entity>, w: bool, e: Edge, load: Option<Load>,
                             isAlias: bool, rn: Option<string>)
      ensures var h := RelationshipLoad(q, lm, srl, w, e, load, isAlias, rn);
        var route := RouteOf(model, limit, lm, e, rn);
        && (!route.IsLateral() ==> h.lateralMap == lm)
        && (!route.SelfJoin? ==> h.selfRefLoaded == srl)
        && (route.SelfJoin? && h.r.Success? ==> model in h.selfRefLoaded)
        && h.warned == (w || (route.Unbounded? && ManyLoadStrategy(manyLoad).None?))
        && (route.Unbounded? ==> h.r.Success? && h.query == q)
    {
    }

    /** A lateral route that succeeds ends the query with the lateral it registers for the edge's target table, joined on `LateralOn`. */
    lemma RelationshipLateral(q: Query, lm: map<string, string>, srl: set<Entity>, w: bool, e: Edge, load: Option<Load>,
                              isAlias: bool, rn: Option<string>)
      requires RouteOf(model, limit, lm, e, rn).IsLateral()
      ensures var h := RelationshipLoad(q, lm, srl, w, e, load, isAlias, rn);
        h.r.Success? ==> LateralJoined(q, h.query, h.lateralMap, h.r.value, e, LateralOn(RouteOf(model, limit, lm, e, rn), rn))
    {
    }

    /** The loader criteria of the first `n` hops of `path`, starting with `keys` loaded. */
    function HopCriteria(keys: set<string>, path: seq<Edge>, n: nat): seq<LoaderOption>
      requires n <= |path|
    {
      if n == 0 then []
      else
        var c := Criterion(conditions, limit, KeysAfter(keys, path, n - 1), model, path[n - 1], CumPath(path, n));
        HopCriteria(keys, path, n - 1) + if c.Some? then [c.value] else []
    }

    /**
     * What `_construct_loads` returns for a non-empty `path` walked from a
     * state with `keys` loaded, `seen` seen and first options `first`, once
     * `loads` holds the hops' options: the option for the whole path, then the
     * loader criteria hop by hop, then the extra selectin loads hop by hop.
     */
    function ChainOptions(keys: set<string>, seen: set<Entity>, first: map<Entity, Load>, path: seq<Edge>, loads: map<string, Load>): (opts: seq<LoaderOption>)
      requires path != [] && CumPath(path, |path|) in loads
      ensures |opts| >= 1 && opts[0] == Eager(loads[CumPath(path, |path|)])
    {
      [Eager(loads[CumPath(path, |path|)])] + HopCriteria(keys, path, |path|) + HopExtras(seen, first, keys, path, loads, |path|)
    }

    /**
     * The options `_construct` holds once it has appended, after `base`, those
     * of each chain of `order` in turn, each walked from the state the
     * previous one left.
     */
    ghost function ChainsOptions(base: seq<LoaderOption>, order: seq<seq<Edge>>, states: seq<WalkState>): seq<LoaderOption>
      requires Chained(order, states)
      decreases |order|
    {
      if order == [] then base
      else
        var n := |order| - 1;
        assert Stepped(states[n], states[n + 1], order[n]);
        assert Chained(order[..n], states[..n + 1]) by {
          forall i | 0 <= i < n
            ensures Stepped(states[..n + 1][i], states[..n + 1][i + 1], order[..n][i])
          {
            assert Stepped(states[i], states[i + 1], order[i]);
          }
        }
        ChainsOptions(base, order[..n], states[..n + 1]) + ChainOptions(states[n].loaded.Keys, states[n].seen, states[n].first, order[n], states[n + 1].loaded)
    }

    /** One more chain walked: its options follow those of the chains before it. */
    lemma ChainsOptionsStep(base: seq<LoaderOption>, order: seq<seq<Edge>>, states: seq<WalkState>, next: WalkState, n: nat)
      requires n < |order| && Chained(order[..n], states)
      requires Stepped(states[n], next, order[n])
      ensures Chained(order[..n + 1], states + [next])
      ensures ChainsOptions(base, order[..n + 1], states + [next])
        == ChainsOptions(base, order[..n], states) + ChainOptions(states[n].loaded.Keys, states[n].seen, states[n].first, order[n], next.loaded)
    {
      var order', states' := order[..n + 1], states + [next];
      forall i | 0 <= i < n + 1
        ensures Stepped(states'[i], states'[i + 1], order'[i])
      {
        if i < n {
          assert states'[i] == states[i] && states'[i + 1] == states[i + 1] && order'[i] == order[..n][i];
        }
      }
      assert order'[..n] == order[..n] && states'[..n + 1] == states;
    }

    /**
     * `_load_self`: a second self-join of the model falls back to a selectin
     * load (carrying the condition's criteria) and leaves the query alone; the
     * first one outer-joins an alias named `{table}_{key}` (a lateral for a
     * capped list side) and records the model in `_self_ref_loaded`.
     */
    method LoadSelf(e: Edge, load: Option<Load>) returns (r: Result<Load, BuildError>)
      requires IsSelfRef(model, e) && selfKey != ""
      modifies this`query, this`selfRefLoaded
      ensures JoinsExtend(old(query), query)
      ensures model in old(selfRefLoaded) ==>
        query == old(query) && selfRefLoaded == old(selfRefLoaded) && r == Success(SelfReload(e, load, conditions))
      ensures model !in old(selfRefLoaded) ==>
        && (r.Failure? <==> TableName(e.target).Failure? || PrimaryKey(model).Failure?)
        && (r.Failure? && TableName(e.target).Failure? ==> r.error == Naming(TableName(e.target).error))
        && (r.Failure? && TableName(e.target).Success? ==> r.error == Naming(PrimaryKey(model).error))
        && (r.Success? ==>
          var name := TableName(e.target).value + "_" + e.key;
          && r.value == ConstructStrategy(ContainsEager, e.key, load, Some(name))
          && selfRefLoaded == old(selfRefLoaded) + {model}
          && query == SelfJoinQuery(old(query), model, e, name, PrimaryKey(model).value, selfKey, limit, orderBy, conditions))
      ensures selfRefLoaded <= old(selfRefLoaded) + {model}
      ensures r.Failure? ==> query == old(query) && selfRefLoaded == old(selfRefLoaded)
      ensures r.Success? ==> ExtendsLoad(r.value, load, e.key)
    {
      if model in selfRefLoaded {
        return Success(SelfReload(e, load, conditions));
      }
      var tableName := TableName(e.target);
      if tableName.Failure? {
        return Failure(Naming(tableName.error));
      }
      var pk := PrimaryKey(model);
      if pk.Failure? {
        return Failure(Naming(pk.error));
      }
      var name := tableName.value + "_" + e.key;
      query := SelfJoinQuery(query, model, e, name, pk.value, selfKey, limit, orderBy, conditions);
      selfRefLoaded := selfRefLoaded + {model};
      return Success(ConstructStrategy(ContainsEager, e.key, load, Some(name)));
    }

    /**
     * `_load_m2o`: a selectin load for a class already joined; otherwise an
     * outer join plus contains-eager when the parent's table is in the query
     * (with the relationship's condition applied to the query), else a joined load.
     */
    method LoadToOne(e: Edge, load: Option<Load>, isAlias: bool) returns (r: Result<Load, BuildError>)
      modifies this`query
      ensures JoinsExtend(old(query), query)
      ensures isAlias ==> r == Success(ConstructStrategy(SelectinLoad, e.key, load, None)) && query == old(query)
      ensures !isAlias ==>
        && (r.Failure? <==> TableName(e.source).Failure?)
        && (r.Failure? ==> r.error == Naming(TableName(e.source).error))
        && (r.Success? && TableName(e.source).value in TableNamesOf(old(query)) ==>
              && r.value == ConstructStrategy(ContainsEager, e.key, load, None)
              && query == ApplyConditions(OuterJoin(old(query), Table(e.target.table), OnClause(PrimaryJoin(e.key)), None), e.key, conditions))
        && (r.Success? && TableName(e.source).value !in TableNamesOf(old(query)) ==>
              r.value == ConstructStrategy(JoinedLoad, e.key, load, None) && query == old(query))
      ensures r.Success? ==> ExtendsLoad(r.value, load, e.key)
      ensures HopLoad(r, query, lateralMap, selfRefLoaded, warned) == ToOneRoute(old(query), lateralMap, selfRefLoaded, warned, e, load, isAlias)
    {
      if isAlias {
        return Success(ConstructStrategy(SelectinLoad, e.key, load, None));
      }
      var parentTable := TableName(e.source);
      if parentTable.Failure? {
        return Failure(Naming(parentTable.error));
      }
      var present := PresentTables(query);
      if parentTable.value in present {
        query := ApplyConditions(OuterJoin(query, Table(e.target.table), OnClause(PrimaryJoin(e.key)), None), e.key, conditions);
        return Success(ConstructStrategy(ContainsEager, e.key, load, None));
      }
      return Success(ConstructStrategy(JoinedLoad, e.key, load, None));
    }

    /**
     * `_load_lateral_zip_m2m`: a lateral over the association join, aligned on
     * the depth's row-number table; its name never gets `_alias`.
     */
    method LoadZipAssociation(e: Edge, load: Option<Load>, isAlias: bool, adapter: Option<string>, rn: string) returns (r: Result<Load, BuildError>)
      requires e.secondary.Some? && limit.Some?
      modifies this`query, this`lateralMap
      ensures r.Failure? <==> TableName(e.target).Failure?
      ensures r.Failure? ==> r.error == Naming(TableName(e.target).error) && query == old(query) && lateralMap == old(lateralMap)
      ensures r.Success? ==>
        var name := LateralName(TableName(e.target).value, e.key, isAlias);
        && query == OuterJoin(old(query), LateralClause(name), OnRank(rn), Some(ZipAssociationSub(e, e.secondary.value, adapter, orderBy, limit.value, conditions)))
        && lateralMap == old(lateralMap)[e.target.table := name]
        && r.value == ConstructStrategy(ContainsEager, e.key, load, Some(name))
      ensures JoinsExtend(old(query), query)
      ensures r.Success? ==> ExtendsLoad(r.value, load, e.key) && LateralJoined(old(query), query, lateralMap, r.value, e, OnRank(rn))
    {
      var tableName := TableName(e.target);
      if tableName.Failure? {
        return Failure(Naming(tableName.error));
      }
      var name := LateralName(tableName.value, e.key, isAlias);
      var sub := ZipAssociationSub(e, e.secondary.value, adapter, orderBy, limit.value, conditions);
      query := OuterJoin(query, LateralClause(name), OnRank(rn), Some(sub));
      lateralMap := lateralMap[e.target.table := name];
      return Success(ConstructStrategy(ContainsEager, e.key, load, Some(name)));
    }

    /**
     * `_load_lateral_zip_o2m`: a lateral over the target table, aligned on the
     * depth's row-number table; with `check_tables` a name already in the
     * query gets `_alias`.
     */
    method LoadZipDirect(e: Edge, load: Option<Load>, isAlias: bool, adapter: Option<string>, rn: string) returns (r: Result<Load, BuildError>)
      requires limit.Some?
      modifies this`query, this`lateralMap
      ensures r.Failure? <==> TableName(e.target).Failure?
      ensures r.Failure? ==> r.error == Naming(TableName(e.target).error) && query == old(query) && lateralMap == old(lateralMap)
      ensures r.Success? ==>
        var name := Deduplicated(LateralName(TableName(e.target).value, e.key, isAlias), checkTables, TableNamesOf(old(query)));
        && query == OuterJoin(old(query), LateralClause(name), OnRank(rn), Some(ZipDirectSub(e, adapter, orderBy, limit.value, conditions)))
        && lateralMap == old(lateralMap)[e.target.table := name]
        && r.value == ConstructStrategy(ContainsEager, e.key, load, Some(name))
      ensures JoinsExtend(old(query), query)
      ensures r.Success? ==> ExtendsLoad(r.value, load, e.key) && LateralJoined(old(query), query, lateralMap, r.value, e, OnRank(rn))
    {
      var tableName := TableName(e.target);
      if tableName.Failure? {
        return Failure(Naming(tableName.error));
      }
      var sub := ZipDirectSub(e, adapter, orderBy, limit.value, conditions);
      var name := DeduplicatedIn(LateralName(tableName.value, e.key, isAlias), checkTables, query);
      query := OuterJoin(query, LateralClause(name), OnRank(rn), Some(sub));
      lateralMap := lateralMap[e.target.table := name];
      return Success(ConstructStrategy(ContainsEager, e.key, load, Some(name)));
    }

    /**
     * `_load_lateral`: a lateral joined ON TRUE. An association edge filters on
     * the association join, rewritten onto the association table's lateral
     * when there is one; otherwise the association table itself is outer-joined
     * first (under `check_tables` only when the query lacks it), and the
     * lateral's name is checked against the query after that join.
     */
    method LoadLateral(e: Edge, load: Option<Load>, isAlias: bool, adapter: Option<string>) returns (r: Result<Load, BuildError>)
      requires limit.Some?
      modifies this`query, this`lateralMap
      ensures r.Failure? <==> TableName(e.target).Failure?
      ensures r.Failure? ==> r.error == Naming(TableName(e.target).error) && query == old(query) && lateralMap == old(lateralMap)
      ensures r.Success? ==>
        var mid := AssociationJoined(old(query), e, adapter, old(lateralMap), checkTables);
        var name := Deduplicated(LateralName(TableName(e.target).value, e.key, isAlias), checkTables, TableNamesOf(mid));
        && query == OuterJoin(mid, LateralClause(name), OnTrue, Some(LateralSub(e, orderBy, limit.value, conditions, old(lateralMap), adapter)))
        && lateralMap == old(lateralMap)[e.target.table := name]
        && r.value == ConstructStrategy(ContainsEager, e.key, load, Some(name))
      ensures JoinsExtend(old(query), query)
      ensures r.Success? ==> ExtendsLoad(r.value, load, e.key) && LateralJoined(old(query), query, lateralMap, r.value, e, OnTrue)
    {
      var tableName := TableName(e.target);
      if tableName.Failure? {
        return Failure(Naming(tableName.error));
      }
      var sub := LateralSub(e, orderBy, limit.value, conditions, lateralMap, adapter);
      var mid := JoinAssociation(query, e, adapter, lateralMap, checkTables);
      var name := LateralName(tableName.value, e.key, isAlias);
      name := DeduplicatedIn(name, checkTables, mid);
      query := mid;
      query := OuterJoin(query, LateralClause(name), OnTrue, Some(sub));
      lateralMap := lateralMap[e.target.table := name];
      r := Success(ConstructStrategy(ContainsEager, e.key, load, Some(name)));
      ghost var h := PlainLateralJoin(old(query), old(lateralMap), selfRefLoaded, warned, e, load, tableName.value, isAlias, adapter, limit.value);
      assert h.query == query && h.lateralMap == lateralMap && h.r == r;
    }

    /** `_load_relationship`: one hop loaded as `RelationshipLoad` describes, from the builder's state. */
    method LoadRelationship(e: Edge, load: Option<Load>, isAlias: bool, rn: Option<string>) returns (r: Result<Load, BuildError>)
      modifies this`query, this`lateralMap, this`selfRefLoaded, this`warned
      ensures HopLoad(r, query, lateralMap, selfRefLoaded, warned)
           == RelationshipLoad(old(query), old(lateralMap), old(selfRefLoaded), old(warned), e, load, isAlias, rn)
    {
      match RouteOf(model, limit, lateralMap, e, rn) {
        case SelfJoin =>
          r := LoadSelfRoute(e, load);
        case Unbounded =>
          var strategy := ManyLoadStrategy(manyLoad);
          if strategy.None? {
            warned := true;
          }
          r := Success(ConstructStrategy(strategy.GetOr(SubqueryLoad), e.key, load, None));
        case ToOne =>
          r := LoadToOne(e, load, isAlias);
        case _ =>
          r := LoadLateralRoute(e, load, isAlias, rn);
      }
    }

    /** The self-referential route of `_load_relationship`: a self join needs a self key. */
    method LoadSelfRoute(e: Edge, load: Option<Load>) returns (r: Result<Load, BuildError>)
      requires IsSelfRef(model, e)
      modifies this`query, this`selfRefLoaded
      ensures HopLoad(r, query, lateralMap, selfRefLoaded, warned)
           == SelfRoute(old(query), lateralMap, old(selfRefLoaded), warned, e, load)
    {
      if selfKey == "" {
        return Failure(MissingSelfKey);
      }
      r := LoadSelf(e, load);
    }

    /** The lateral routes of `_load_relationship`, each with the clause adapter of the edge's source table. */
    method LoadLateralRoute(e: Edge, load: Option<Load>, isAlias: bool, rn: Option<string>) returns (r: Result<Load, BuildError>)
      requires RouteOf(model, limit, lateralMap, e, rn).IsLateral()
      modifies this`query, this`lateralMap
      ensures HopLoad(r, query, lateralMap, selfRefLoaded, warned)
           == LateralRoute(old(query), old(lateralMap), selfRefLoaded, warned, e, load, isAlias, rn)
    {
      var adapter := ClauseAdapter(e.source.table);
      match RouteOf(model, limit, lateralMap, e, rn) {
        case ZipAssociation =>
          r := LoadZipAssociation(e, load, isAlias, adapter, rn.value);
        case ZipDirect =>
          r := LoadZipDirect(e, load, isAlias, adapter, rn.value);
        case PlainLateral =>
          r := LoadLateral(e, load, isAlias, adapter);
      }
    }

    /**
     * One hop of `_construct_loads` after its criteria: reuse the option of an
     * already-loaded cumulative path, or load the relationship and record it.
     * A to-one hop reaching an already-joined class also yields a selectin load
     * from the first option that loaded its parent class.
     */
    method VisitHop(e: Edge, depth: nat, cp: string, load: Option<Load>) returns (r: Result<Load, BuildError>, extra: Option<LoaderOption>)
      requires Valid()
      modifies this`query, this`lateralMap, this`selfRefLoaded, this`warned, this`loaded, this`seenClasses, this`firstLoadByClass
      ensures Valid()
      ensures cp in old(loaded) ==>
        && r == Success(old(loaded)[cp]) && extra.None? && seenClasses == old(seenClasses) + {e.target}
        && query == old(query) && lateralMap == old(lateralMap) && selfRefLoaded == old(selfRefLoaded) && warned == old(warned)
        && loaded == old(loaded) && firstLoadByClass == old(firstLoadByClass)
      ensures cp !in old(loaded) ==>
        HopLoad(r, query, lateralMap, selfRefLoaded, warned)
        == RelationshipLoad(old(query), old(lateralMap), old(selfRefLoaded), old(warned), e, load,
                            e.target in old(seenClasses), if e.toMany && depth in zipLevels then Some(zipLevels[depth]) else None)
      ensures cp !in old(loaded) && r.Failure? ==>
        loaded == old(loaded) && seenClasses == old(seenClasses) && firstLoadByClass == old(firstLoadByClass) && extra.None?
      ensures cp !in old(loaded) && r.Success? ==>
        && loaded == old(loaded)[cp := r.value]
        && seenClasses == old(seenClasses) + {e.target}
        && firstLoadByClass == (if e.target in old(firstLoadByClass) then old(firstLoadByClass) else old(firstLoadByClass)[e.target := r.value])
        && extra == (if e.target in old(seenClasses) && !e.toMany && e.source in old(firstLoadByClass)
                     then Some(Eager(ConstructStrategy(SelectinLoad, e.key, Some(old(firstLoadByClass)[e.source]), None)))
                     else None)
    {
      if cp in loaded {
        seenClasses := seenClasses + {e.target};
        return Success(loaded[cp]), None;
      }
      r, extra := FreshHop(e, depth, cp, load);
    }

    /** A hop whose cumulative path was not loaded before: load the relationship and record it. */
    method FreshHop(e: Edge, depth: nat, cp: string, load: Option<Load>) returns (r: Result<Load, BuildError>, extra: Option<LoaderOption>)
      requires Valid() && cp !in loaded
      modifies this`query, this`lateralMap, this`selfRefLoaded, this`warned, this`loaded, this`seenClasses, this`firstLoadByClass
      ensures Valid()
      ensures HopLoad(r, query, lateralMap, selfRefLoaded, warned)
        == RelationshipLoad(old(query), old(lateralMap), old(selfRefLoaded), old(warned), e, load,
                            e.target in old(seenClasses), if e.toMany && depth in zipLevels then Some(zipLevels[depth]) else None)
      ensures r.Failure? ==>
        loaded == old(loaded) && seenClasses == old(seenClasses) && firstLoadByClass == old(firstLoadByClass) && extra.None?
      ensures r.Success? ==>
        && loaded == old(loaded)[cp := r.value]
        && seenClasses == old(seenClasses) + {e.target}
        && firstLoadByClass == (if e.target in old(firstLoadByClass) then old(firstLoadByClass) else old(firstLoadByClass)[e.target := r.value])
        && extra == (if e.target in old(seenClasses) && !e.toMany && e.source in old(firstLoadByClass)
                     then Some(Eager(ConstructStrategy(SelectinLoad, e.key, Some(old(firstLoadByClass)[e.source]), None)))
                     else None)
    {
      extra := None;
      r := LoadHop(e, depth, load);
      if r.Failure? {
        return;
      }
      extra := Record(e, cp, r.value);
    }

    /** `_load_relationship` for a hop at `depth`: an alias exactly when its class was seen, with the depth's row-number table for a list edge. */
    method LoadHop(e: Edge, depth: nat, load: Option<Load>) returns (r: Result<Load, BuildError>)
      requires Valid()
      modifies this`query, this`lateralMap, this`selfRefLoaded, this`warned
      ensures Valid()
      ensures HopLoad(r, query, lateralMap, selfRefLoaded, warned)
        == RelationshipLoad(old(query), old(lateralMap), old(selfRefLoaded), old(warned), e, load,
                            e.target in seenClasses, if e.toMany && depth in zipLevels then Some(zipLevels[depth]) else None)
    {
      var isAlias := e.target in seenClasses;
      var rn := if e.toMany && depth in zipLevels then Some(zipLevels[depth]) else None;
      ghost var h := RelationshipLoad(query, lateralMap, selfRefLoaded, warned, e, load, isAlias, rn);
      r := LoadRelationship(e, load, isAlias, rn);
      assert h == HopLoad(r, query, lateralMap, selfRefLoaded, warned) && h.selfRefLoaded <= old(selfRefLoaded) + {model};
    }

    /**
     * The bookkeeping after a hop was loaded: the option is recorded for its
     * cumulative path and, the first time its class is met, for the class; a
     * to-one hop reaching an already-joined class whose parent class has a
     * first option also yields a selectin load from that option.
     */
    method Record(e: Edge, cp: string, l: Load) returns (extra: Option<LoaderOption>)
      modifies this`loaded, this`seenClasses, this`firstLoadByClass
      ensures loaded == old(loaded)[cp := l]
      ensures seenClasses == old(seenClasses) + {e.target}
      ensures firstLoadByClass == if e.target in old(firstLoadByClass) then old(firstLoadByClass) else old(firstLoadByClass)[e.target := l]
      ensures extra == if e.target in old(seenClasses) && !e.toMany && e.source in old(firstLoadByClass)
                       then Some(Eager(ConstructStrategy(SelectinLoad, e.key, Some(old(firstLoadByClass)[e.source]), None)))
                       else None
    {
      loaded := loaded[cp := l];
      extra := None;
      if e.target in seenClasses && !e.toMany && e.source in firstLoadByClass {
        extra := Some(Eager(ConstructStrategy(SelectinLoad, e.key, Some(firstLoadByClass[e.source]), None)));
      }
      if e.target !in firstLoadByClass {
        firstLoadByClass := firstLoadByClass[e.target := l];
      }
      seenClasses := seenClasses + {e.target};
    }

    /**
     * The bookkeeping of `_construct_loads` after the first `n` hops of `path`,
     * walked from a builder that had `keys` loaded, `seen` seen and first
     * options `first`.
     */
    ghost predicate Along(keys: set<string>, seen: set<Entity>, first: map<Entity, Load>, path: seq<Edge>, n: nat)
      reads this
      requires n <= |path|
    {
      && loaded.Keys == KeysAfter(keys, path, n)
      && seenClasses == SeenAfter(seen, path, n)
      && firstLoadByClass == FirstAfter(first, keys, path, loaded, n)
    }

    /**
     * One iteration of `_construct_loads`' loop at `depth`: extends the
     * cumulative path by the hop's key, computes the hop's loader criterion
     * from the paths loaded so far, and visits the hop: a cumulative path
     * loaded before is reused and changes nothing but the seen classes; any
     * other is loaded as `RelationshipLoad` describes, as an alias exactly when
     * its class was seen, with the depth's row-number table for a list edge.
     */
    method HopStep(path: seq<Edge>, depth: nat, cp0: string, load: Option<Load>,
                   ghost keys: set<string>, ghost seen: set<Entity>, ghost first: map<Entity, Load>)
      returns (cp: string, criterion: Option<LoaderOption>, r: Result<Load, BuildError>, extra: Option<LoaderOption>)
      requires Valid() && depth < |path| && cp0 == CumPath(path, depth)
      requires Walked(path, depth, loaded, seenClasses) && Along(keys, seen, first, path, depth)
      modifies this`query, this`lateralMap, this`selfRefLoaded, this`warned, this`loaded, this`seenClasses, this`firstLoadByClass
      ensures Valid()
      ensures cp == CumPath(path, depth + 1)
      ensures criterion == Criterion(conditions, limit, old(loaded).Keys, model, path[depth], cp)
      ensures JoinsExtend(old(query), query)
      ensures forall c :: c in old(loaded) ==> c in loaded && loaded[c] == old(loaded)[c]
      ensures old(seenClasses) <= seenClasses
      ensures cp in old(loaded) ==>
        && r == Success(old(loaded)[cp]) && extra.None?
        && query == old(query) && lateralMap == old(lateralMap) && selfRefLoaded == old(selfRefLoaded) && warned == old(warned)
      ensures cp !in old(loaded) ==>
        HopLoad(r, query, lateralMap, selfRefLoaded, warned)
        == RelationshipLoad(old(query), old(lateralMap), old(selfRefLoaded), old(warned), path[depth], load,
                            path[depth].target in old(seenClasses),
                            if path[depth].toMany && depth in zipLevels then Some(zipLevels[depth]) else None)
      ensures r.Failure? ==> LoadFailure(r.error, path[depth], model, selfKey)
      ensures r.Success? ==>
        && cp in loaded && loaded[cp] == r.value
        && Walked(path, depth + 1, loaded, seenClasses) && Along(keys, seen, first, path, depth + 1)
        && HopExtras(seen, first, keys, path, loaded, depth + 1)
           == HopExtras(seen, first, keys, path, old(loaded), depth) + if extra.Some? then [extra.value] else []
    {
      var e := path[depth];
      cp := CumStep(cp0, e.key);
      criterion := Criterion(conditions, limit, loaded.Keys, model, e, cp);
      assert cp == CumPath(path, depth + 1);
      ghost var loaded0, seen0, first0 := loaded, seenClasses, firstLoadByClass;
      r, extra := VisitHop(e, depth, cp, load);
      if r.Success? {
        StepAlong(keys, seen, first, path, depth, loaded0, seen0, first0, loaded, seenClasses, firstLoadByClass, r.value, extra);
      }
    }

    /**
     * One iteration of `_construct_loads`' loop: `HopStep`, then the hop's
     * criterion and extra load, if any, appended to those collected so far.
     */
    method LoopStep(path: seq<Edge>, depth: nat, cp0: string, load: Option<Load>, criteria: seq<LoaderOption>, extras: seq<LoaderOption>,
                    ghost keys: set<string>, ghost seen: set<Entity>, ghost first: map<Entity, Load>)
      returns (cp: string, r: Result<Load, BuildError>, criteria': seq<LoaderOption>, extras': seq<LoaderOption>)
      requires Valid() && depth < |path| && cp0 == CumPath(path, depth)
      requires Walked(path, depth, loaded, seenClasses) && Along(keys, seen, first, path, depth)
      requires criteria == HopCriteria(keys, path, depth) && extras == HopExtras(seen, first, keys, path, loaded, depth)
      modifies this`query, this`lateralMap, this`selfRefLoaded, this`warned, this`loaded, this`seenClasses, this`firstLoadByClass
      ensures Valid()
      ensures cp == CumPath(path, depth + 1)
      ensures JoinsExtend(old(query), query)
      ensures forall c :: c in old(loaded) ==> c in loaded && loaded[c] == old(loaded)[c]
      ensures old(seenClasses) <= seenClasses
      ensures cp in old(loaded) ==> r.Success? && query == old(query) && lateralMap == old(lateralMap) && loaded == old(loaded)
      ensures r.Failure? ==> LoadFailure(r.error, path[depth], model, selfKey)
      ensures r.Success? ==>
        && cp in loaded && loaded[cp] == r.value
        && Walked(path, depth + 1, loaded, seenClasses) && Along(keys, seen, first, path, depth + 1)
        && criteria' == HopCriteria(keys, path, depth + 1) && extras' == HopExtras(seen, first, keys, path, loaded, depth + 1)
    {
      var criterion, extra;
      cp, criterion, r, extra := HopStep(path, depth, cp0, load, keys, seen, first);
      criteria' := criteria + if criterion.Some? then [criterion.value] else [];
      extras' := extras + if extra.Some? then [extra.value] else [];
    }

    /**
     * `_construct_loads`: walks one path hop by hop. The result is the option
     * for the whole path, then the loader criteria the hops called for, then
     * the extra selectin loads for to-one hops reaching an already-joined
     * class (`ChainOptions`); the first error a hop raises ends the walk.
     */
    method ConstructLoads(path: seq<Edge>) returns (r: Result<Option<seq<LoaderOption>>, BuildError>)
      requires Valid()
      modifies this`query, this`lateralMap, this`selfRefLoaded, this`warned, this`loaded, this`seenClasses, this`firstLoadByClass
      ensures Valid()
      ensures JoinsExtend(old(query), query)
      ensures path == [] ==> r == Success(None) && query == old(query) && loaded == old(loaded) && seenClasses == old(seenClasses)
      ensures forall cp :: cp in old(loaded) ==> cp in loaded && loaded[cp] == old(loaded)[cp]
      ensures old(seenClasses) <= seenClasses
      ensures r.Success? ==> Walked(path, |path|, loaded, seenClasses)
      ensures r.Success? && path != [] ==>
        && Along(old(loaded).Keys, old(seenClasses), old(firstLoadByClass), path, |path|)
        && r.value == Some(ChainOptions(old(loaded).Keys, old(seenClasses), old(firstLoadByClass), path, loaded))
      ensures r.Failure? ==> exists j :: 0 <= j < |path| && LoadFailure(r.error, path[j], model, selfKey)
      ensures (forall n :: 1 <= n <= |path| ==> CumPath(path, n) in old(loaded)) ==>
        r.Success? && query == old(query) && lateralMap == old(lateralMap) && loaded == old(loaded)
    {
      if path == [] {
        return Success(None);
      }
      var load, criteria, extra := WalkHops(path);
      if load.Failure? {
        return Failure(load.error);
      }
      return Success(Some([Eager(load.value)] + criteria + extra));
    }

    /**
     * The loop of `_construct_loads` over the hops of a non-empty `path`: the
     * option of the last hop, the loader criteria and the extra selectin
     * loads, or the first error a hop raises.
     */
    method WalkHops(path: seq<Edge>) returns (load: Result<Load, BuildError>, criteria: seq<LoaderOption>, extra: seq<LoaderOption>)
      requires Valid() && path != []
      modifies this`query, this`lateralMap, this`selfRefLoaded, this`warned, this`loaded, this`seenClasses, this`firstLoadByClass
      ensures Valid()
      ensures JoinsExtend(old(query), query)
      ensures forall cp :: cp in old(loaded) ==> cp in loaded && loaded[cp] == old(loaded)[cp]
      ensures old(seenClasses) <= seenClasses
      ensures load.Success? ==>
        && Walked(path, |path|, loaded, seenClasses)
        && Along(old(loaded).Keys, old(seenClasses), old(firstLoadByClass), path, |path|)
        && CumPath(path, |path|) in loaded && load.value == loaded[CumPath(path, |path|)]
        && criteria == HopCriteria(old(loaded).Keys, path, |path|)
        && extra == HopExtras(old(seenClasses), old(firstLoadByClass), old(loaded).Keys, path, loaded, |path|)
      ensures load.Failure? ==> exists j :: 0 <= j < |path| && LoadFailure(load.error, path[j], model, selfKey)
      ensures (forall n :: 1 <= n <= |path| ==> CumPath(path, n) in old(loaded)) ==>
        load.Success? && query == old(query) && lateralMap == old(lateralMap) && loaded == old(loaded)
    {
      ghost var keys0, seen0, first0 := loaded.Keys, seenClasses, firstLoadByClass;
      var last: Option<Load> := None;
      criteria, extra := [], [];
      var cp := "";
      ghost var allReused := forall n :: 1 <= n <= |path| ==> CumPath(path, n) in old(loaded);
      for depth := 0 to |path|
        invariant Valid()
        invariant cp == CumPath(path, depth)
        invariant depth == 0 <==> last.None?
        invariant depth > 0 ==> cp in loaded && last == Some(loaded[cp])
        invariant Walked(path, depth, loaded, seenClasses) && Along(keys0, seen0, first0, path, depth)
        invariant criteria == HopCriteria(keys0, path, depth)
        invariant extra == HopExtras(seen0, first0, keys0, path, loaded, depth)
        invariant JoinsExtend(old(query), query)
        invariant forall c :: c in old(loaded) ==> c in loaded && loaded[c] == old(loaded)[c]
        invariant old(seenClasses) <= seenClasses
        invariant allReused ==> query == old(query) && lateralMap == old(lateralMap) && loaded == old(loaded)
      {
        var hop;
        cp, hop, criteria, extra := LoopStep(path, depth, cp, last, criteria, extra, keys0, seen0, first0);
        if hop.Failure? {
          assert !allReused;
          return Failure(hop.error), criteria, extra;
        }
        last := Some(hop.value);
      }
      return Success(last.value), criteria, extra;
    }

    /**
     * `_check_zip_needs`: with a cap and optimisation on, every depth at which
     * two or more distinct list-loading cumulative paths meet gets, in
     * ascending order, a row-number table `_sqla_rn`, `_sqla_rn_1`, ...
     * outer-joined ON TRUE, all counting up to the same bound: the cap, raised
     * to the largest limit a probed condition sets.
     */
    method CheckZipNeeds(resolved: seq<seq<Edge>>) returns (ghost zs: seq<nat>, ghost bound: int)
      modifies this`query, this`zipLevels
      ensures limit.None? || !optimization ==> zs == []
      ensures limit.Some? && optimization ==>
        && (forall d: nat :: d in zs <==> |PathsAt(model, resolved, d)| >= 2)
        && (forall a, b :: 0 <= a < b < |zs| ==> zs[a] < zs[b])
      ensures zs != [] ==>
        && limit.Some? && bound >= limit.value
        && (forall i, d :: ProbeSite(resolved, zs, i, d) ==> bound >= Probe(resolved[i][d], limit.value, conditions))
        && (bound == limit.value || exists i, d :: ProbeSite(resolved, zs, i, d) && bound == Probe(resolved[i][d], limit.value, conditions))
      ensures query == old(query).(joins := old(query).joins + RankJoins(|zs|, bound))
      ensures forall k :: 0 <= k < |zs| ==> zs[k] in zipLevels && zipLevels[zs[k]] == RankName(k)
      ensures forall d :: d in zipLevels <==> d in old(zipLevels) || d in zs
      ensures forall d :: d in old(zipLevels) && d !in zs ==> zipLevels[d] == old(zipLevels)[d]
    {
      zs, bound := [], 0;
      if limit.None? || !optimization {
        return;
      }
      var dp := CollectDepthPaths(model, resolved);
      var depths := ZipDepths(dp, resolved);
      ZipDepthsExact(model, resolved, dp);
      zs := depths;
      if depths == [] {
        return;
      }
      var b := RankBound(resolved, depths, limit.value, conditions);
      bound := b;
      JoinRankTables(depths, b);
    }

    /** The last loop of `_check_zip_needs`: one row-number table per zip depth, in order. */
    method JoinRankTables(depths: seq<nat>, b: int)
      requires forall a, c :: 0 <= a < c < |depths| ==> depths[a] < depths[c]
      modifies this`query, this`zipLevels
      ensures query == old(query).(joins := old(query).joins + RankJoins(|depths|, b))
      ensures forall k :: 0 <= k < |depths| ==> depths[k] in zipLevels && zipLevels[depths[k]] == RankName(k)
      ensures forall d :: d in zipLevels <==> d in old(zipLevels) || d in depths
      ensures forall d :: d in old(zipLevels) && d !in depths ==> zipLevels[d] == old(zipLevels)[d]
    {
      for idx := 0 to |depths|
        invariant query == old(query).(joins := old(query).joins + RankJoins(idx, b))
        invariant forall k :: 0 <= k < idx ==> depths[k] in zipLevels && zipLevels[depths[k]] == RankName(k)
        invariant forall d :: d in zipLevels <==> d in old(zipLevels) || d in depths[..idx]
        invariant forall d :: d in old(zipLevels) && d !in depths[..idx] ==> zipLevels[d] == old(zipLevels)[d]
      {
        assert depths[..idx + 1] == depths[..idx] + [depths[idx]];
        assert RankJoins(idx + 1, b) == RankJoins(idx, b) + [JoinStep(RankTable(idx), OnTrue, Some(RankSeries(b)))];
        zipLevels := zipLevels[depths[idx] := RankName(idx)];
        query := OuterJoin(query, RankTable(idx), OnTrue, Some(RankSeries(b)));
      }
      assert depths[..|depths|] == depths;
    }

    /** One iteration of `_construct`'s last loop: walk a path and append the options it returns. */
    method WalkPath(path: seq<Edge>) returns (r: Result<(), BuildError>)
      requires Valid() && path != []
      modifies this`query, this`lateralMap, this`selfRefLoaded, this`warned, this`loaded, this`seenClasses,
               this`firstLoadByClass, this`options
      ensures Valid()
      ensures r.Failure? ==> options == old(options) && exists j :: 0 <= j < |path| && LoadFailure(r.error, path[j], model, selfKey)
      ensures JoinsExtend(old(query), query)
      ensures forall cp :: cp in old(loaded) ==> cp in loaded && loaded[cp] == old(loaded)[cp]
      ensures old(seenClasses) <= seenClasses
      ensures r.Success? ==>
        && Walked(path, |path|, loaded, seenClasses)
        && Along(old(loaded).Keys, old(seenClasses), old(firstLoadByClass), path, |path|)
        && options == old(options) + ChainOptions(old(loaded).Keys, old(seenClasses), old(firstLoadByClass), path, loaded)
        && Eager(loaded[CumPath(path, |path|)]) in options
    {
      var walked := ConstructLoads(path);
      if walked.Failure? {
        return Failure(walked.error);
      }
      options := options + walked.value.value;
      assert walked.value.value[0] in options;
      return Success(());
    }

    /**
     * `_construct`: moves each direct load ahead of the association load over
     * the same table, plans the ZIP alignment, then walks every path in the
     * new order, appending the options each walk returns.
     */
    method Construct(resolved: seq<seq<Edge>>) returns (r: Result<(), BuildError>)
      requires Valid() && AllNonEmpty(resolved)
      modifies this`query, this`lateralMap, this`selfRefLoaded, this`warned, this`loaded, this`seenClasses,
               this`firstLoadByClass, this`zipLevels, this`options
      ensures Valid()
      ensures old(options) <= options
      ensures query.froms == old(query).froms && old(query).joins <= query.joins
      ensures forall cp :: cp in old(loaded) ==> cp in loaded && loaded[cp] == old(loaded)[cp]
      ensures r.Failure? ==> exists i, j :: 0 <= i < |resolved| && 0 <= j < |resolved[i]| && LoadFailure(r.error, resolved[i][j], model, selfKey)
      ensures r.Success? ==> forall i :: 0 <= i < |resolved| ==>
        && Walked(resolved[i], |resolved[i]|, loaded, seenClasses)
        && Eager(loaded[CumPath(resolved[i], |resolved[i]|)]) in options
    {
      var reordered := ReorderForAssociation(resolved);
      ghost var zs, bound := CheckZipNeeds(reordered);
      forall i | 0 <= i < |reordered|
        ensures reordered[i] != []
      {
        assert reordered[i] in multiset(resolved);
      }
      ghost var states;
      r, states := WalkPaths(reordered);
      if r.Failure? {
        FailureReordered(resolved, reordered, r.error, model, selfKey);
      } else {
        WalkedReordered(resolved, reordered, loaded, seenClasses, options);
      }
    }

    /**
     * One iteration of `_construct`'s last loop, walking chain `i` of `order`
     * and recording the bookkeeping it leaves as the next state.
     */
    method WalkNext(order: seq<seq<Edge>>, i: nat, ghost states: seq<WalkState>, ghost base: seq<LoaderOption>)
      returns (r: Result<(), BuildError>, ghost states': seq<WalkState>)
      requires Valid() && i < |order| && order[i] != []
      requires Chained(order[..i], states) && states[i] == WalkState(loaded, seenClasses, firstLoadByClass)
      requires options == ChainsOptions(base, order[..i], states)
      modifies this`query, this`lateralMap, this`selfRefLoaded, this`warned, this`loaded, this`seenClasses,
               this`firstLoadByClass, this`options
      ensures Valid()
      ensures old(options) <= options
      ensures JoinsExtend(old(query), query)
      ensures forall cp :: cp in old(loaded) ==> cp in loaded && loaded[cp] == old(loaded)[cp]
      ensures old(seenClasses) <= seenClasses
      ensures r.Failure? ==> states' == states && exists j :: 0 <= j < |order[i]| && LoadFailure(r.error, order[i][j], model, selfKey)
      ensures r.Success? ==>
        && states' == states + [WalkState(loaded, seenClasses, firstLoadByClass)]
        && Chained(order[..i + 1], states')
        && options == ChainsOptions(base, order[..i + 1], states')
        && Walked(order[i], |order[i]|, loaded, seenClasses)
        && Eager(loaded[CumPath(order[i], |order[i]|)]) in options
    {
      ghost var loaded0, seen0, first0 := loaded, seenClasses, firstLoadByClass;
      states' := states;
      r := WalkPath(order[i]);
      if r.Failure? {
        return;
      }
      ghost var next := WalkState(loaded, seenClasses, firstLoadByClass);
      assert Stepped(states[i], next, order[i]) by {
        assert Along(loaded0.Keys, seen0, first0, order[i], |order[i]|);
      }
      ChainsOptionsStep(base, order, states, next, i);
      states' := states + [next];
    }

    /** The last loop of `_construct`: walk each path in turn, stopping at the first error. */
    method WalkPaths(order: seq<seq<Edge>>) returns (r: Result<(), BuildError>, ghost states: seq<WalkState>)
      requires Valid() && forall i :: 0 <= i < |order| ==> order[i] != []
      modifies this`query, this`lateralMap, this`selfRefLoaded, this`warned, this`loaded, this`seenClasses,
               this`firstLoadByClass, this`options
      ensures Valid()
      ensures old(options) <= options
      ensures JoinsExtend(old(query), query)
      ensures forall cp :: cp in old(loaded) ==> cp in loaded && loaded[cp] == old(loaded)[cp]
      ensures r.Failure? ==> exists i, j :: 0 <= i < |order| && 0 <= j < |order[i]| && LoadFailure(r.error, order[i][j], model, selfKey)
      ensures r.Success? ==>
        && Chained(order, states)
        && states[0] == WalkState(old(loaded), old(seenClasses), old(firstLoadByClass))
        && states[|order|] == WalkState(loaded, seenClasses, firstLoadByClass)
        && options == ChainsOptions(old(options), order, states)
      ensures r.Success? ==> forall i :: 0 <= i < |order| ==>
        && Walked(order[i], |order[i]|, loaded, seenClasses)
        && Eager(loaded[CumPath(order[i], |order[i]|)]) in options
    {
      states := [WalkState(loaded, seenClasses, firstLoadByClass)];
      for i := 0 to |order|
        invariant Valid()
        invariant old(options) <= options
        invariant JoinsExtend(old(query), query)
        invariant forall cp :: cp in old(loaded) ==> cp in loaded && loaded[cp] == old(loaded)[cp]
        invariant Chained(order[..i], states)
        invariant states[0] == WalkState(old(loaded), old(seenClasses), old(firstLoadByClass))
        invariant states[i] == WalkState(loaded, seenClasses, firstLoadByClass)
        invariant options == ChainsOptions(old(options), order[..i], states)
        invariant forall k :: 0 <= k < i ==>
          && Walked(order[k], |order[k]|, loaded, seenClasses)
          && Eager(loaded[CumPath(order[k], |order[k]|)]) in options
      {
        ghost var loaded0, seen0, options0 := loaded, seenClasses, options;
        var walked;
        walked, states := WalkNext(order, i, states, old(options));
        if walked.Failure? {
          return Failure(walked.error), states;
        }
        CoveredKept(order, i, loaded0, seen0, options0, loaded, seenClasses, options);
      }
      assert order[..|order|] == order;
      return Success(()), states;
    }

    /**
     * `build`: a given SELECT replaces the builder's; the load keys are taken
     * dotted first, deepest first, then plain; every key resolves (a dotted key
     * that does not raises before anything is joined) and the non-empty paths
     * are constructed; the accumulated options are attached, and DISTINCT
     * when asked for.
     */
    method Build(loads: seq<string>, q: Option<Query>) returns (r: Result<Query, BuildError>)
      requires Valid()
      modifies this`query, this`lateralMap, this`selfRefLoaded, this`warned, this`loaded, this`seenClasses,
               this`firstLoadByClass, this`zipLevels, this`options
      ensures Valid()
      ensures (exists k :: k in loads && '.' in k && Walk(graph, model, k, Split(k)).Failure?) ==> r.Failure? && r.error.Unresolved?
      ensures r.Failure? ==>
        || (r.error.Unresolved? && exists k :: k in loads && '.' in k && Walk(graph, model, k, Split(k)) == Failure(r.error.cause))
        || (exists k, p, j :: k in loads && Resolves(graph, model, k, p) && 0 <= j < |p| && LoadFailure(r.error, p[j], model, selfKey))
      ensures r.Success? ==> forall k :: k in loads ==>
        exists p :: Resolves(graph, model, k, p) && (p != [] ==> Walked(p, |p|, loaded, seenClasses) && Eager(loaded[CumPath(p, |p|)]) in options)
      ensures r.Success? ==>
        var base := if q.Some? then q.value else old(query);
        && query.froms == base.froms && base.joins <= query.joins
        && |options| <= |query.options| && query.options[|query.options| - |options|..] == options
        && r.value == if distinct then query.(distinct := true) else query
    {
      if q.Some? {
        query := q.value;
      }
      var order := OrderLoads(loads);
      var resolution, paths := ResolveAll(graph, model, order);
      ResolvableInOrder(graph, model, loads, order);
      if resolution.Failure? {
        UnresolvedTraced(graph, model, loads, order, resolution.error.cause);
        return Failure(resolution.error);
      }
      NonEmptyMembers(paths);
      var built := Construct(resolution.value);
      if built.Failure? {
        FailureTraced(graph, model, loads, order, paths, built.error, selfKey);
        return Failure(built.error);
      }
      LoadsCovered(graph, model, loads, order, paths, loaded, seenClasses, options);
      if options != [] {
        query := query.(options := query.options + options);
      }
      r := Success(if distinct then query.(distinct := true) else query);
    }
  }
}
