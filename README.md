# sqla_autoloads, modelled in Dafny

`sqla_autoloads` builds SQLAlchemy SELECT statements that eagerly load related
objects. The caller names a root model class and a tuple of relationship
paths such as `"posts"`, `"posts.comments"` or just `"tags"`. `sqla_select`
builds a `SelectBuilder` and runs `build`, which:

- resolves each path to a chain of relationships. A bare key goes through a
  breadth-first search over the relationship graph. A dotted key goes through
  a strict walk, one segment at a time.
- orders the chains (dotted first, deepest first, then plain keys, with
  direct loads moved ahead of association loads over the same table).
- plans "ZIP" row-number alignment for depths where several capped list
  relationships meet.
- walks every chain hop by hop. For each relationship it chooses a loading
  strategy: a self-join, a subquery/selectin load, one of three LATERAL
  shapes, or a to-one join. It records what has been joined and loaded, so
  later chains reuse earlier work.

Beside the planner the project models:

- `Node`, the process-wide singleton that holds the relationship graph;
- `frozendict`, the immutable mapping used to freeze condition mappings;
- `get_table_names`, the traversal of a FROM-clause tree.

The model works over an abstract schema.

- A class is an `Entity` value: name, table, primary-key columns, foreign keys.
- A relationship is an `Edge`: key, source, target, whether it is a list, and
  its association table.
- The graph is a map from classes to their relationships in declaration order.
- The SQLAlchemy objects the builder makes are values that record what the
  builder decides about them: the FROM list, a log of outer joins (with the
  SELECT inside each lateral), WHERE criteria, LIMIT, ORDER BY, the
  loader-option chains, and DISTINCT.

Files, one module each:

| file | module | models |
|---|---|---|
| wrappers.dfy | Wrappers | `Option`, `Result` |
| schema.dfy | Schema | classes, relationships, the graph |
| strings.dfy | Strings | dot counting, `split(".")`/`".".join` round trip, cumulative paths, decimal rendering |
| tools.dfy | Tools | `tools.py`: `_get_table_name`, `_get_primary_key`, `get_table_names` |
| queries.dfy | Queries | the SELECT value, conditions, `_apply_conditions`, `_extract_limit`, `_construct_strategy`, `_apply_order_by` |
| paths.dfy | Paths | `_bfs_search`, `_resolve_dotted_path` |
| ordering.dfy | LoadOrder | the load ordering of `build`, the association swap of `_construct` |
| zip.dfy | ZipPlan | the planning loops of `_check_zip_needs` |
| builder.dfy | Builder | `SelectBuilder` and its methods |
| node.dfy | Nodes | `node.py` |
| frozen_dict.dfy | FrozenDicts | `datastructures.py` |
| select.dfy | Api | `_find_self_key`, the defaults of `sqla_select`, `sqla_select` |

## Model

| member | source | states |
|---|---|---|
| Schema.Edges | src/sqla_autoloads/node.py:47-58 | A class's relationships are its entry in the graph, or none when the class is absent |
| Strings.CountDots | src/sqla_autoloads/core.py:191 | The dot count is at most the length, and zero exactly when the key has no dot |
| Strings.SplitShape | src/sqla_autoloads/core.py:846 | Splitting on dots gives one more segment than there are dots, and no segment contains a dot |
| Strings.JoinSplit | src/sqla_autoloads/core.py:846 | Joining the segments with dots gives back the key |
| Strings.SplitJoin | src/sqla_autoloads/core.py:846 | Splitting dot-free segments joined with dots gives back the segments |
| Strings.SplitDotPrefix | src/sqla_autoloads/core.py:846 | Splitting `a.b` with a dot-free `a` gives `a` followed by the segments of `b` |
| Strings.SplitNoDot | src/sqla_autoloads/core.py:846-848 | A key without a dot splits into itself alone |
| Strings.CumStep | src/sqla_autoloads/core.py:242 | The cumulative path is the key at the first hop, and otherwise the previous path, a dot, then the key |
| Strings.NatToStringInjective | src/sqla_autoloads/core.py:627 | Distinct numbers render as distinct decimal strings |
| Tools.TableName | src/sqla_autoloads/tools.py:20-31 | Succeeds exactly when `__tablename__` (or the table description when it is absent) is non-empty, returns that name, and otherwise fails naming the class |
| Tools.PrimaryKey | src/sqla_autoloads/tools.py:14-17 | Succeeds exactly when the class has a primary-key column, and returns the first one |
| Tools.GetTableNames | src/sqla_autoloads/tools.py:61-98 | The stack traversal returns exactly the names the roots offer, de-duplicated in first-seen order |
| Tools.Drain | src/sqla_autoloads/tools.py:83-96 | Draining one root's stack adds exactly that root's offered names to the output and keeps the seen set equal to the output's names |
| Tools.Add | src/sqla_autoloads/tools.py:76-79 | A name is appended exactly when it is non-empty and unseen, and the seen set follows the output |
| Tools.PopStep | src/sqla_autoloads/tools.py:86-96 | One pop emits the node's own name and pushes its children, so the stack still offers the same names in the same order, and the stack shrinks |
| Tools.AddAllAppend | src/sqla_autoloads/tools.py:76-79 | Adding two runs of names in a row is adding their concatenation |
| Tools.AddAllShape | src/sqla_autoloads/tools.py:73-79 | The output has no duplicates and no empty name, extends the previous output, and holds exactly the earlier names plus the offered non-empty names |
| Tools.TableNamesDistinctNonEmpty | src/sqla_autoloads/tools.py:73-79 | `get_table_names` returns no duplicate and no empty name |
| Tools.TableNamesMembership | src/sqla_autoloads/tools.py:73-96 | A name is returned exactly when it is non-empty and some root offers it |
| Tools.OffersAreTablesAndLabels | src/sqla_autoloads/tools.py:86-96 | A FROM clause offers exactly the names of the tables and the named wrappers reachable through join sides and wrapped elements; joins offer none |
| Tools.RootsOffersAreTablesAndLabels | src/sqla_autoloads/tools.py:81-96 | The same, over every root |
| Tools.TableNamesCoverage | src/sqla_autoloads/tools.py:61-98 | A name is returned exactly when it is non-empty and names a reachable table or named wrapper |
| Tools.WrapperNameFirst | src/sqla_autoloads/tools.py:94-96 | A named alias or lateral contributes its own name first, before the names inside it |
| Tools.JoinRightFirst | src/sqla_autoloads/tools.py:90-92 | A join's right side is collected before its left side |
| Queries.Select | src/sqla_autoloads/core.py:157 | A fresh `select(model)` selects from the model's table alone |
| Queries.OuterJoin | src/sqla_autoloads/core.py:434 | An outer join appends one join and changes nothing else the planner reads |
| Queries.WhereClause | src/sqla_autoloads/core.py:253 | A SELECT has a WHERE clause exactly when it has criteria |
| Queries.Apply | src/sqla_autoloads/core.py:886-895 | Running a condition adds its criteria, keeps or replaces the LIMIT as the condition says, and leaves the rest alone |
| Queries.ProbedLimit | src/sqla_autoloads/core.py:612-618 | On `select(cls).limit(cap)`, the extracted limit is the one the condition sets, or the cap when the condition sets none or removes the limit |
| Queries.ApplyConditions | src/sqla_autoloads/core.py:886-895 | A key without a condition leaves the SELECT unchanged; a key with one adds exactly its criteria and keeps or replaces the LIMIT as the condition says; the FROM list, joins, options and ORDER BY are never touched |
| Queries.ExtractLimit | src/sqla_autoloads/core.py:898-903 | The SELECT's LIMIT when it has one, and otherwise the default |
| Queries.ConstructStrategy | src/sqla_autoloads/core.py:866-883 | The option is a new one-link chain when there is no current load, and otherwise the current chain extended by one link for the key, with the alias |
| Queries.ApplyOrderBy | src/sqla_autoloads/core.py:906-918 | The requested columns are added descending, or every primary-key column descending when none are requested; nothing else changes |
| Paths.BfsSearch | src/sqla_autoloads/core.py:795-831 | Returns exactly the answer of the queue-order search `BfsOrder` (relationships scanned in declaration order, the first match wins); that answer is a chain from the start whose last key is the target, empty exactly when no such chain exists, and no qualifying chain is shorter |
| Paths.ScanEdges | src/sqla_autoloads/core.py:824-829 | Carries out `Scan` on the queue: the loop's result is the scan's |
| Paths.Scan | src/sqla_autoloads/core.py:824-829 | Answers the path extended by the first relationship, in declaration order, keyed by the target; when none has that key, every relationship's target is enqueued in order with its extended path |
| Paths.FirstWithKey | src/sqla_autoloads/core.py:853-854 | The index is that of the first relationship with the key, or the length when none has it |
| Paths.FindEdge | src/sqla_autoloads/core.py:853-854 | Finds nothing exactly when no relationship has the key, and otherwise the first relationship with it |
| Paths.ResolveDottedPath | src/sqla_autoloads/core.py:835-863 | A key without a dot gets the breadth-first answer, and exactly the chain the search finds first in queue and declaration order (`BfsOrder`); a dotted key gets the segment walk, success or the error it raises |
| Paths.WalkStep | src/sqla_autoloads/core.py:851-861 | One more segment either extends the walk by the first relationship keyed by it, on the class reached so far, or fails naming the segment, that class, the key and the model |
| Paths.WalkFailurePersists | src/sqla_autoloads/core.py:856-860 | Once a segment fails, the walk ends with that failure |
| Paths.WalkSuccess | src/sqla_autoloads/core.py:846-863 | A successful walk has one relationship per segment, keyed by that segment, forming a chain from the model |
| Paths.WalkChain | src/sqla_autoloads/core.py:852-862 | A successful walk is a chain from the model, one relationship per segment |
| Paths.Walk | src/sqla_autoloads/core.py:846-863 | A successful walk has one relationship per segment, the i-th keyed by the i-th segment |
| Paths.WalkFailure | src/sqla_autoloads/core.py:856-860 | A failed walk names a segment that has no relationship on the class the successful prefix reached |
| Paths.MissingSegmentFails | src/sqla_autoloads/core.py:856-860 | A segment with no relationship on the class reached fails the whole walk |
| LoadOrder.OrderLoads | src/sqla_autoloads/core.py:189-197 | The ordered loads are a permutation of the requested loads with non-increasing dot counts: dotted keys first, deepest first, then plain keys |
| LoadOrder.OrderLoadsStable | src/sqla_autoloads/core.py:189-197 | Keys with the same dot count keep their input order |
| LoadOrder.SortSorted | src/sqla_autoloads/core.py:189-193 | The sort by dot count yields non-increasing dot counts |
| LoadOrder.SortMultiset | src/sqla_autoloads/core.py:189-193 | The sort is a permutation |
| LoadOrder.SortWithDots | src/sqla_autoloads/core.py:189-193 | The sort is stable: for each dot count the keys keep their order |
| LoadOrder.InsertSorted | src/sqla_autoloads/core.py:189-193 | Inserting into a sorted run keeps it sorted |
| LoadOrder.InsertMultiset | src/sqla_autoloads/core.py:189-193 | Inserting adds exactly the inserted key |
| LoadOrder.InsertWithDots | src/sqla_autoloads/core.py:189-193 | Inserting puts the key after every key with the same dot count |
| LoadOrder.SplitMultiset | src/sqla_autoloads/core.py:189-194 | The dotted and the plain keys together are the requested keys |
| LoadOrder.DottedWithDots | src/sqla_autoloads/core.py:189-190 | The dotted filter keeps every key with at least one dot, in order, and no plain key |
| LoadOrder.DottedHaveDots | src/sqla_autoloads/core.py:190 | Every dotted key has a dot |
| LoadOrder.SimpleHaveNoDots | src/sqla_autoloads/core.py:194 | No plain key has a dot |
| LoadOrder.WithDotsIdempotent | src/sqla_autoloads/core.py:194 | Filtering the plain keys again changes nothing, and they have no dotted keys |
| LoadOrder.SlotsOf | src/sqla_autoloads/core.py:636-644 | Every recorded index is below the number of paths recorded |
| LoadOrder.RecordSlots | src/sqla_autoloads/core.py:636-644 | The first loop records, per table, the last direct and the last association first hop, with the tables in first-recorded order |
| LoadOrder.ReorderForAssociation | src/sqla_autoloads/core.py:632-651 | The reordered paths are a permutation of the resolved ones, and each position holds the path its swap partner had |
| LoadOrder.SwapTable | src/sqla_autoloads/core.py:646-651 | One table's swap keeps the paths a permutation and carries out the swap for that table |
| LoadOrder.SlotOwners | src/sqla_autoloads/core.py:636-644 | A recorded index belongs to a path whose first hop has that table and that kind |
| LoadOrder.SwapSourceMoves | src/sqla_autoloads/core.py:646-651 | Only the recorded pair of a table whose direct path comes after its association path moves |
| LoadOrder.DirectBeforeAssociation | src/sqla_autoloads/core.py:632-651 | After the swap, for every table recorded both ways, the direct path is at the smaller index and the association path at the larger |
| LoadOrder.SwapSourceInvolution | src/sqla_autoloads/core.py:646-651 | The swap is an involution: swapping again restores every path |
| ZipPlan.CollectDepthPaths | src/sqla_autoloads/core.py:589-598 | `depth_paths` holds a depth exactly when some counting cumulative path reaches it, and holds exactly those paths |
| ZipPlan.RecordAdds | src/sqla_autoloads/core.py:591-598 | Recording one chain adds exactly its counting cumulative paths, depth by depth |
| ZipPlan.RecordAllPaths | src/sqla_autoloads/core.py:590-598 | After any number of chains, the recorded sets are exactly the counting paths of those chains |
| ZipPlan.PathsBeforeNext | src/sqla_autoloads/core.py:590-598 | The paths of one more chain are the earlier paths plus those of that chain |
| ZipPlan.MaxLen | src/sqla_autoloads/core.py:590-592 | Bounds the length of every chain |
| ZipPlan.ZipDepths | src/sqla_autoloads/core.py:600 | Ascending, and exactly the depths below the longest chain at which two or more paths were recorded |
| ZipPlan.ZipDepthsBelow | src/sqla_autoloads/core.py:600 | The zip depths are ascending and are exactly the depths holding two or more paths |
| ZipPlan.ZipDepthsExact | src/sqla_autoloads/core.py:589-600 | With `depth_paths` as collected, the zip depths, ascending, are exactly the depths holding two or more distinct counting paths |
| ZipPlan.RankBound | src/sqla_autoloads/core.py:605-618 | The bound is at least the cap and every probed limit, and is the cap or one of them |
| ZipPlan.Probe | src/sqla_autoloads/core.py:612-618 | The limit a relationship's condition sets on `select(cls).limit(cap)` when it sets one, and otherwise the cap |
| ZipPlan.ProbePath | src/sqla_autoloads/core.py:608-618 | Probing one chain raises the bound to at least every limit probed on it, and no further |
| ZipPlan.RankName | src/sqla_autoloads/core.py:627 | `_sqla_rn` for the first zip depth and `_sqla_rn_{i}` for the i-th later one |
| ZipPlan.RankNamesDistinct | src/sqla_autoloads/core.py:626-627 | `_sqla_rn`, `_sqla_rn_1`, ... are pairwise distinct |
| Builder.ManyLoadStrategy | src/sqla_autoloads/core.py:34-37 | Only "subqueryload" and "selectinload" name a strategy, each its own |
| Builder.Criterion | src/sqla_autoloads/core.py:245-254 | A hop gets loader criteria exactly when its key has a condition with WHERE criteria, it is not self-referential, and it is an uncapped list or its cumulative path was loaded while its bare key was not; the criteria are the condition's, on the target class |
| Builder.RouteOf | src/sqla_autoloads/core.py:315-386 | A self-referential edge always self-joins; a lateral only for a capped list; the association ZIP exactly when a rank table is passed and the association table has no lateral; the direct ZIP exactly when a rank table is passed and there is no association table; to-one and uncapped routes exactly when stated |
| Builder.LateralNaming | src/sqla_autoloads/core.py:428-432 | The lateral is named after the table, or `{table}_{key}` for an alias; `_alias` is appended exactly on a collision under `check_tables` |
| Builder.SelfReload | src/sqla_autoloads/core.py:705-719 | A repeated self-join is a selectin link that carries the condition's WHERE clause when it has criteria |
| Builder.SelfJoinQuery | src/sqla_autoloads/core.py:721-787 | A first self-join adds exactly one join: a lateral ON TRUE for a capped list side, otherwise the alias joined on a key clause; the query's criteria change only for an uncapped list side |
| Builder.AssociationJoined | src/sqla_autoloads/core.py:518-531 | The association table is joined at most once, and the FROM list and earlier joins are kept |
| Builder.LateralLimits | src/sqla_autoloads/core.py:404-422 | An association ZIP lateral always keeps the cap; a direct ZIP and a plain lateral take the limit the condition sets, if it sets one |
| Builder.PresentTables | src/sqla_autoloads/core.py:474 | Returns the query's table names as `get_table_names` defines them |
| Builder.DeduplicatedIn | src/sqla_autoloads/core.py:540-542 | The name with `_alias` appended exactly when table checking is on and the query has it |
| Builder.JoinAssociation | src/sqla_autoloads/core.py:518-531 | Carries out the association join as `AssociationJoined` states |
| Builder.RankJoins | src/sqla_autoloads/core.py:626-630 | One join per zip depth, ON TRUE, named in order, each over the same bounded counter |
| Builder.JoinLateral | src/sqla_autoloads/core.py:428-437 | The lateral is outer-joined as the last join, registered for the target's table, and the option contains-eager loads from it, extending the load by the key; the FROM list and earlier joins are kept |
| Builder.ResolveKey | src/sqla_autoloads/core.py:198-202 | Fails exactly when the key is dotted and its walk fails, with the walk's error; otherwise the path resolves the key: the segment walk for a dotted key, and for a plain key the first chain the breadth-first search meets in queue and declaration order (`BfsOrder`) |
| Builder.ResolveAll | src/sqla_autoloads/core.py:197-205 | Fails exactly when some dotted key does not resolve, with that key's error; otherwise every key resolves to its path and the non-empty paths are kept in order |
| Builder.ResolvableInOrder | src/sqla_autoloads/core.py:189-205 | Reordering the keys neither adds nor removes an unresolvable key |
| Builder.UnresolvedTraced | src/sqla_autoloads/core.py:189-205 | A dotted key of the ordered keys that does not resolve is a requested key, with the same error |
| Builder.FailureTraced | src/sqla_autoloads/core.py:197-212 | An error raised while walking a resolved path is a load error of a hop on the path some requested key resolves to |
| Builder.NonEmptyMembers | src/sqla_autoloads/core.py:204-205 | The kept paths are exactly the non-empty ones |
| Builder.NonEmptySnoc | src/sqla_autoloads/core.py:204-205 | One more path is kept exactly when it is non-empty |
| Builder.LoadsCovered | src/sqla_autoloads/core.py:197-212 | Once every kept path has been walked, every requested key resolves to a path that was walked and whose option was added, or to none |
| Builder.WalkedStep | src/sqla_autoloads/core.py:272-288 | After one more hop, its cumulative path is loaded and its class seen |
| Builder.WalkedKept | src/sqla_autoloads/core.py:272-288 | Walking more keeps what earlier walks recorded |
| Builder.StepAlong | src/sqla_autoloads/core.py:256-288 | After one more hop, the loaded paths, seen classes, first loads per class and extra selectin loads are those of the walk extended by that hop |
| Builder.NewSelectBuilder | src/sqla_autoloads/core.py:126-164 | Refuses exactly the declarative base itself; otherwise a fresh builder over `select(model)` with the given settings and empty bookkeeping |
| Builder.SelectBuilder.constructor | src/sqla_autoloads/core.py:147-164 | Stores the settings and starts from `select(model)`, with the model seen and every map empty |
| Builder.SelectBuilder.ClauseAdapter | src/sqla_autoloads/core.py:663-669 | There is an adapter exactly when a lateral stands for the table |
| Builder.SelectBuilder.SelfRoute | src/sqla_autoloads/core.py:315-323 | Without a self key it fails; a model already self-joined gets the reload with nothing changed; otherwise it fails exactly when the target has no table name or the model no primary key, and on success records the model; a failure changes nothing and is a load error of the edge; the lateral map and warning flag are never touched |
| Builder.SelectBuilder.ToOneRoute | src/sqla_autoloads/core.py:555-578 | An alias gets a selectin load with the query unchanged; otherwise it fails exactly when the parent has no table name; a failure changes nothing and is a load error of the edge; the lateral map, self-join record and warning flag are never touched |
| Builder.SelectBuilder.LateralRoute | src/sqla_autoloads/core.py:339-376 | Fails exactly when the target has no table name, changing nothing; on success the lateral is the last join, on the rank table for a ZIP route and ON TRUE otherwise, it is registered for the target's table and nothing else in the lateral map changes, and the option loads from it |
| Builder.SelectBuilder.PlainLateralJoin | src/sqla_autoloads/core.py:488-553 | After the association join, the lateral is joined ON TRUE as the last join, registered for the target's table, and the option loads from it |
| Builder.SelectBuilder.RelationshipLoad | src/sqla_autoloads/core.py:292-386 | Every route keeps the FROM list and earlier joins, records at most the model as self-joined, and extends the load by the key; a failure changes nothing and is one of the load errors of the edge |
| Builder.SelectBuilder.RelationshipRoutes | src/sqla_autoloads/core.py:292-386 | Only the self-join route touches the self-join record (and records the model on success), only the lateral routes touch the lateral map, and only an uncapped list warns, exactly for an unknown strategy name, leaving the query alone |
| Builder.SelectBuilder.RelationshipLateral | src/sqla_autoloads/core.py:339-376 | A lateral route that succeeds ends the query with the lateral registered for the target's table, joined on the rank table for a ZIP route and ON TRUE otherwise |
| Builder.SelectBuilder.ChainOptions | src/sqla_autoloads/core.py:290 | The result starts with the option loading the whole path, followed by the hops' loader criteria and then their extra selectin loads |
| Builder.SelectBuilder.LoadSelf | src/sqla_autoloads/core.py:671-792 | A repeated self-join leaves the query alone and returns the reload; the first records the model and joins `{table}_{key}` as `SelfJoinQuery` states; it fails exactly when the target has no table name or the model no primary key, with that error, and a failure changes nothing |
| Builder.SelectBuilder.LoadToOne | src/sqla_autoloads/core.py:555-578 | Selectin for an alias; otherwise contains-eager plus an outer join and the condition when the parent's table is present, else a joined load; it fails exactly when the parent has no table name; the result is `ToOneRoute`'s |
| Builder.SelectBuilder.LoadZipAssociation | src/sqla_autoloads/core.py:388-439 | Joins the association ZIP lateral on the rank table, never with `_alias`, registers it for the target table and contains-eager loads from it; fails exactly when the target has no table name |
| Builder.SelectBuilder.LoadZipDirect | src/sqla_autoloads/core.py:441-486 | Joins the direct ZIP lateral on the rank table, deduplicating its name, registers it and contains-eager loads from it; fails exactly when the target has no table name |
| Builder.SelectBuilder.LoadLateral | src/sqla_autoloads/core.py:488-553 | Joins the association table when needed, then the lateral ON TRUE under a name checked against that query; registers it and contains-eager loads from it |
| Builder.SelectBuilder.LoadRelationship | src/sqla_autoloads/core.py:292-386 | The option and the new query, lateral map, self-join record and warning flag are exactly `RelationshipLoad` of the old state |
| Builder.SelectBuilder.LoadSelfRoute | src/sqla_autoloads/core.py:315-323 | The option and new state are exactly `SelfRoute` of the old state |
| Builder.SelectBuilder.LoadLateralRoute | src/sqla_autoloads/core.py:339-376 | The option and new state are exactly `LateralRoute` of the old state, with the adapter of the edge's source table |
| Builder.SelectBuilder.VisitHop | src/sqla_autoloads/core.py:256-288 | A loaded cumulative path is reused and only its class is marked seen; otherwise the hop is `RelationshipLoad` of the old state as an alias exactly when its class was seen, with the depth's rank table for a list edge; on success the option is recorded, the first load per class is written only for a class's first occurrence, and the extra selectin load is added exactly for a to-one hop to a seen class whose parent has a first load; a failure records nothing |
| Builder.SelectBuilder.FreshHop | src/sqla_autoloads/core.py:266-288 | For a path not loaded before: the hop is `RelationshipLoad` as `VisitHop` states, and the bookkeeping is recorded only on success |
| Builder.SelectBuilder.LoadHop | src/sqla_autoloads/core.py:266-276 | The hop is `RelationshipLoad` of the old state, as an alias exactly when its class was seen, with the depth's rank table for a list edge |
| Builder.SelectBuilder.Record | src/sqla_autoloads/core.py:277-288 | Records the option for the cumulative path, marks the class seen, writes the first load of a class only once, and yields the extra selectin load exactly for a to-one hop to a seen class whose parent has a first load |
| Builder.SelectBuilder.HopStep | src/sqla_autoloads/core.py:239-288 | One iteration: the cumulative path is extended by the key and the criterion is computed from the paths loaded before the hop; a loaded path is reused with nothing else changed; otherwise the hop is `RelationshipLoad` with the alias flag and rank table of the source; an error is a load error of the hop; on success the walk's bookkeeping is that of the path one hop further |
| Builder.SelectBuilder.LoopStep | src/sqla_autoloads/core.py:239-288 | One iteration with its criterion and extra load appended, so the collected criteria and extras stay those of the hops walked so far |
| Builder.SelectBuilder.ConstructLoads | src/sqla_autoloads/core.py:214-290 | An empty chain yields nothing; on success the result is exactly `[load, *criteria, *extra]` (`ChainOptions`) with the bookkeeping of the walked path; an error is a load error of one of its hops; earlier records are kept, and a fully-loaded chain changes nothing |
| Builder.SelectBuilder.WalkHops | src/sqla_autoloads/core.py:234-288 | The hop loop of a non-empty chain: on success the whole path is loaded with the last hop's option, the bookkeeping moves along the path (`Along`), and the criteria and extra loads are those of `HopCriteria` and `HopExtras`; otherwise the error is a load error of one of its hops; a fully-loaded chain changes nothing |
| Builder.SelectBuilder.CheckZipNeeds | src/sqla_autoloads/core.py:580-630 | Nothing without a cap or with optimisation off; otherwise exactly the depths with two or more counting paths get, in order, rank tables joined ON TRUE over one bound that is at least the cap and every probed limit |
| Builder.SelectBuilder.JoinRankTables | src/sqla_autoloads/core.py:626-630 | Registers each zip depth under its rank-table name and joins the tables in order |
| Builder.SelectBuilder.WalkPath | src/sqla_autoloads/core.py:657-661 | Walks one chain: on success its options are appended to the builder's, exactly as `ChainOptions` gives them; on failure the options are unchanged and the error is a load error of a hop |
| Builder.SelectBuilder.Construct | src/sqla_autoloads/core.py:632-661 | Every resolved chain is walked and its option is added; options and joins only grow; a failure is a load error of a hop of some chain |
| Builder.SelectBuilder.WalkPaths | src/sqla_autoloads/core.py:658-661 | Walks the chains in order: on success the options are the old ones followed by each chain's `ChainOptions` in turn, each chain walked from the bookkeeping the previous one left (`Chained`, `ChainsOptions`), from the old bookkeeping to the new; every chain is walked and its option is present; otherwise the error is a load error of a hop of some chain |
| Builder.SelectBuilder.WalkNext | src/sqla_autoloads/core.py:658-661 | One chain more: on success the next bookkeeping state is recorded and the options are those of one more chain in turn; on failure no state is recorded and the error is a load error of a hop of that chain |
| Builder.SelectBuilder.ChainsOptionsStep | src/sqla_autoloads/core.py:658-661 | Walking one more chain appends exactly its `ChainOptions` to the options of the chains before it |
| Builder.SelectBuilder.Build | src/sqla_autoloads/core.py:166-212 | A dotted key that does not resolve fails the build; any failure is either the unresolved-path error of a requested dotted key or a load error of a hop on the path a requested key resolves to; on success every key resolves (`Resolves`: its segment walk, or for a plain key the first chain the breadth-first search meets in queue and declaration order) to a walked path whose option is attached, the FROM list is kept, and DISTINCT is set when asked |
| Nodes.Node.constructor | src/sqla_autoloads/node.py:36-38 | A new instance holds an empty mapping |
| Nodes.Node.Get | src/sqla_autoloads/node.py:47-58 | The stored relationships of a class, or none when it is absent |
| Nodes.Node.GetItem | src/sqla_autoloads/node.py:60-64 | Fails with a key error exactly for an absent class, and otherwise agrees with `get` |
| Nodes.Node.SetNode | src/sqla_autoloads/node.py:75-86 | Replaces the mapping |
| Nodes.NodeClass.constructor | src/sqla_autoloads/node.py:23 | No instance exists at first |
| Nodes.NodeClass.New | src/sqla_autoloads/node.py:28-45 | The first call creates the instance with the given mapping; later calls return it unchanged and ignore the argument; it raises "not initialized" exactly when the mapping is empty |
| Nodes.NodeClass.Reset | src/sqla_autoloads/node.py:88-92 | Clears the instance |
| Nodes.NodeClass.InitNode | src/sqla_autoloads/node.py:121-140 | Creates the instance with the mapping unless one exists; the result follows `Node(...)` |
| Nodes.FirstInitWins | src/sqla_autoloads/node.py:35-40 | After a first non-empty initialisation, a second one returns the same instance with the first mapping |
| Nodes.ResetRecovers | src/sqla_autoloads/node.py:88-92 | `Node()` raises until reset, stays empty after a failed call, and a reset followed by a non-empty mapping recovers |
| FrozenDicts.MapOf | src/sqla_autoloads/datastructures.py:42-44 | The keys are exactly the keys of the pairs |
| FrozenDicts.OrderOf | src/sqla_autoloads/datastructures.py:42-44 | The key order holds each key of the pairs exactly once |
| FrozenDicts.FromPairs | src/sqla_autoloads/datastructures.py:42-44 | Construction yields a well-formed mapping over exactly the given keys |
| FrozenDicts.Construct | src/sqla_autoloads/datastructures.py:42-44 | Positional and keyword pairs together give the keys of both |
| FrozenDicts.Get | src/sqla_autoloads/datastructures.py:46-47 | Lookup succeeds exactly for a present key and returns its value |
| FrozenDicts.Contains | src/sqla_autoloads/datastructures.py:49-50 | `in` holds exactly for the keys a lookup finds |
| FrozenDicts.Items | src/sqla_autoloads/datastructures.py:63-64 | The items follow the key order, each with its value |
| FrozenDicts.Iter | src/sqla_autoloads/datastructures.py:63-64 | Iteration yields each stored key exactly once |
| FrozenDicts.Len | src/sqla_autoloads/datastructures.py:66-67 | `len` is the number of keys iteration yields |
| FrozenDicts.Copy | src/sqla_autoloads/datastructures.py:52-61 | A copy is a well-formed mapping |
| FrozenDicts.FromPairsLookup | src/sqla_autoloads/datastructures.py:42-47 | A key's value is the one given with its last occurrence |
| FrozenDicts.ContainsConstructed | src/sqla_autoloads/datastructures.py:49-50 | `in` holds exactly for the constructed keys |
| FrozenDicts.LenCountsDistinctKeys | src/sqla_autoloads/datastructures.py:63-67 | `len` is the number of distinct keys and iteration yields each key once |
| FrozenDicts.FromPairsAppend | src/sqla_autoloads/datastructures.py:42-44 | Later pairs override earlier ones |
| FrozenDicts.FromItemsRoundTrip | src/sqla_autoloads/datastructures.py:42-64 | Rebuilding from the items gives the same mapping |
| FrozenDicts.ItemsKeys | src/sqla_autoloads/datastructures.py:63-64 | The items cover exactly the keys |
| FrozenDicts.CopyOverrides | src/sqla_autoloads/datastructures.py:52-61 | A copy is the original overridden by the keyword pairs |
| FrozenDicts.Eq | src/sqla_autoloads/datastructures.py:72-79 | Against a frozendict or a dict: True exactly when both have the same keys with the same values, whatever the order; anything else is not implemented |
| FrozenDicts.EqualIffSameLookups | src/sqla_autoloads/datastructures.py:72-79 | Two frozen mappings are equal exactly when every lookup agrees, whatever their order |
| FrozenDicts.EqualsPlainDict | src/sqla_autoloads/datastructures.py:72-79 | `__eq__` answers True for a plain dict with the same contents, and never answers True for an operand that is neither a dict nor a frozendict |
| FrozenDicts.HashInput | src/sqla_autoloads/datastructures.py:44 | The hashed set holds exactly the (key, value) items |
| FrozenDicts.HashMatchesEquality | src/sqla_autoloads/datastructures.py:81-82 | The hashed item sets agree exactly when the mappings are equal |
| Api.FirstSelfReference | src/sqla_autoloads/core.py:967-975 | The index of the first foreign key to the model's own table and primary key, or the length |
| Api.FindSelfKey | src/sqla_autoloads/core.py:953-975 | Fails exactly for a model with foreign keys but no primary key; a non-empty key is the column of a foreign key to the model's own table and primary key, and "" means none is |
| Api.Defaults | src/sqla_autoloads/core.py:56-76 | A call passing only the model and loads gets no node, no cap override, no self key, no conditions, subqueryload and optimisation on |
| Api.SqlaSelect | src/sqla_autoloads/core.py:978-1070 | Fails when the self key is looked up (none is passed) on a model with foreign keys but no primary key, on the declarative base, or when no `Node` instance exists or its mapping is empty; otherwise the builder gets the cap 50 unless one is passed, the found self key, the frozen conditions and the node's graph, and DISTINCT is kept |

## Left out

- SQLAlchemy itself. Selects, aliases, laterals, the recursive CTE and loader options are values recording the builder's decisions. SQL generation and execution are not modelled: row capping, ordering, correlation and the absence of cross products happen in the database.
- `correlate_except`, the `row_number()` column and `ClauseAdapter`'s `equivalents` argument. A rewritten clause is recorded as `Adapted(clause, lateral)`.
- Condition callables (`add_conditions` in `tools.py` and the user's lambdas). A condition is modelled by the WHERE criteria it adds and its effect on LIMIT. Any other change a callable makes to a SELECT is not modelled.
- Truthiness of the condition value and of `whereclause` is modelled as "present" and "has criteria". A condition object that is falsy would be treated as present.
- `@lru_cache` on `_bfs_search`, `_resolve_dotted_path`, `_select_with_relationships` and `_find_self_key`, together with `sqla_cache_info` and `sqla_cache_clear`. The model computes the same results without caching.
- `warnings.warn` is a boolean flag on the builder.
- `get_node` (`node.py:95-118`) reads SQLAlchemy's mapper registry. The relationship graph is an input.
- `Node.node` (`node.py:66-73`) is the field `graph`.
- `resolve_col`, `sqla_laterals` and `unique_scalars` are re-exported by `__init__.py` but defined outside the core; they are not part of this model.
- The `repr` of `frozendict` is not modelled. Its Python hash value is modelled as the item set it hashes.
- Foreign keys are a sequence in the model, where SQLAlchemy keeps a set. `_find_self_key` returns the first match in the sequence's order.
- A relationship with an association table is assumed to have a `secondaryjoin`. The plain-lateral branch for `secondary` without `secondaryjoin` (`core.py:509`) is not modelled.
- `_extract_limit`'s `except Exception` fallback (`core.py:898-903`) is not modelled. A limit is a plain integer or none.
- Attributes looked up with `getattr`: `_load_self` reads the `self_key` column and the alias's primary-key column (`core.py:763`, `core.py:772`, `core.py:780`) and `_apply_order_by` reads each `order_by` name (`core.py:913`). Each raises `AttributeError` when the class has no such attribute. The model takes every named column to exist, so these errors are not modelled.
- `frozendict(...)` hashes its items when it is built (`datastructures.py:44`). That raises `TypeError` for an unhashable value. The model's values are all hashable, so construction never fails.
- Tables are identified by their name. The source keys `_lateral_map` and the association-swap index of `_construct` on `Table` objects (`core.py:346`, `core.py:436`, `core.py:483`, `core.py:550`, `core.py:638-647`). The model keys the lateral map, `SlotsOf` and the route choice of `RouteOf` on the table-name string, so two same-named tables from different schemas would be one table here.
- FrozenDicts.EqualsPlainDict: states `__eq__`'s own answer only. For an operand that is neither a dict nor a frozendict, `__eq__` returns `NotImplemented` (`datastructures.py:79`), and Python's `==` then asks the operand's reflected `__eq__`. That second step is not modelled: `PyEquals` counts `NotImplemented` as unequal, so a foreign mapping type that declares itself equal is not covered.
- Integers are unbounded. Limits are Python integers in the source as well.
- The class hierarchy behind "the declarative base" is a flag on the class.
- Builder.SelectBuilder.Construct: states that every chain is walked and its option added, not the exact order of the added options; `Builder.SelectBuilder.WalkPaths` states that order for the reordered chains. It does not restate the rank-table joins; `CheckZipNeeds` states them.
- Builder.SelectBuilder.Build: states that a failure is the error of some unresolvable requested dotted key or a load error on the path of some requested key. It does not state which one is raised when several could be; `ResolveAll` states that for the dotted keys.
- Api.SqlaSelect: states the builder's settings and the failure cases, not the query. `Builder.SelectBuilder.Build` states what the built query keeps and gains: its FROM list, its joins extending the start, the options appended, DISTINCT. It does not restate every join.
- FrozenDicts.Copy: its own contract states only well-formedness. `CopyOverrides` states the contents.

Behaviours kept as written:

- `Node()` called with no mapping while uninitialised still stores an (empty) instance. A later `init_node(mapping)` is then ignored and keeps raising until `reset()`; `ResetRecovers` shows this sequence.
- Laterals made by `_load_self` are not registered in `_lateral_map`.
- `_load_self` tests `if self.limit`, so a cap of 0 takes the uncapped branch.
- The limit probe in `_check_zip_needs` does not skip self-referential relationships.
