/**
 * Top-K ("ZIP") alignment planning in `_check_zip_needs`: the depths at which
 * two or more sibling to-many paths would each get a LATERAL, the shared
 * row-number bound, and the names of the row-number tables.
 */
module ZipPlan {
  import opened Wrappers
  import opened Schema
  import opened Strings
  import opened Tools
  import opened Queries

  /** The cumulative path after the first `n` hops: `cp = f"{cp}.{rel.key}" if cp else rel.key`. */
  function CumPath(rels: seq<Edge>, n: nat): string
    requires n <= |rels|
  {
    if n == 0 then "" else CumStep(CumPath(rels, n - 1), rels[n - 1].key)
  }

  /** A hop takes part in alignment when it loads a list and is not self-referential. */
  predicate Counts(model: Entity, e: Edge) {
    e.toMany && !IsSelfRef(model, e)
  }

  /** The cumulative paths, among the first `n` resolved paths, whose hop at `depth` counts. */
  ghost function PathsBefore(model: Entity, resolved: seq<seq<Edge>>, n: nat, depth: nat): set<string>
    requires n <= |resolved|
  {
    set k | 0 <= k < n && depth < |resolved[k]| && Counts(model, resolved[k][depth]) :: CumPath(resolved[k], depth + 1)
  }

  /** The distinct cumulative paths whose hop at `depth` counts. */
  ghost function PathsAt(model: Entity, resolved: seq<seq<Edge>>, depth: nat): set<string> {
    PathsBefore(model, resolved, |resolved|, depth)
  }

  /** The first `j` hops of path `i`, at `depth`. */
  ghost function Partial(model: Entity, rels: seq<Edge>, j: nat, depth: nat): set<string>
    requires j <= |rels|
  {
    if depth < j && Counts(model, rels[depth]) then {CumPath(rels, depth + 1)} else {}
  }

  /** `depth_paths` after adding the counting hops among the first `j` hops of `rels` to `dp`. */
  function Record(dp: map<nat, set<string>>, model: Entity, rels: seq<Edge>, j: nat): map<nat, set<string>>
    requires j <= |rels|
  {
    if j == 0 then dp
    else
      var prev := Record(dp, model, rels, j - 1);
      if Counts(model, rels[j - 1]) then prev[j - 1 := (if j - 1 in prev then prev[j - 1] else {}) + {CumPath(rels, j)}]
      else prev
  }

  /** `depth_paths` after the first `n` resolved paths. */
  function RecordAll(model: Entity, resolved: seq<seq<Edge>>, n: nat): map<nat, set<string>>
    requires n <= |resolved|
  {
    if n == 0 then map[] else Record(RecordAll(model, resolved, n - 1), model, resolved[n - 1], |resolved[n - 1]|)
  }

  /**
   * The first loop of `_check_zip_needs`: `depth_paths`, the set of counting
   * cumulative paths per depth, holding only depths that have one.
   */
  method CollectDepthPaths(model: Entity, resolved: seq<seq<Edge>>) returns (dp: map<nat, set<string>>)
    ensures forall d: nat :: d in dp <==> PathsAt(model, resolved, d) != {}
    ensures forall d: nat :: d in dp ==> dp[d] == PathsAt(model, resolved, d)
  {
    dp := map[];
    var i := 0;
    while i < |resolved|
      invariant 0 <= i <= |resolved|
      invariant dp == RecordAll(model, resolved, i)
    {
      var rels := resolved[i];
      var cp := "";
      var depth := 0;
      ghost var dp0 := dp;
      while depth < |rels|
        invariant 0 <= depth <= |rels|
        invariant cp == CumPath(rels, depth)
        invariant dp == Record(dp0, model, rels, depth)
      {
        cp := CumStep(cp, rels[depth].key);
        if rels[depth].toMany && !IsSelfRef(model, rels[depth]) {
          dp := dp[depth := (if depth in dp then dp[depth] else {}) + {cp}];
        }
        depth := depth + 1;
      }
      i := i + 1;
    }
    RecordAllPaths(model, resolved, |resolved|);
  }

  ghost predicate CollectedBefore(dp: map<nat, set<string>>, model: Entity, resolved: seq<seq<Edge>>, i: nat)
    requires i <= |resolved|
  {
    forall d: nat :: (d in dp <==> PathsBefore(model, resolved, i, d) != {})
      && (d in dp ==> dp[d] == PathsBefore(model, resolved, i, d))
  }

  /** Recording the hops of one path adds exactly that path's counting cumulative paths, depth by depth. */
  lemma {:induction false} RecordAdds(dp: map<nat, set<string>>, model: Entity, rels: seq<Edge>, j: nat)
    requires j <= |rels|
    ensures forall d: nat :: (d in Record(dp, model, rels, j) <==> d in dp || Partial(model, rels, j, d) != {})
    ensures forall d: nat :: d in Record(dp, model, rels, j) ==>
      Record(dp, model, rels, j)[d] == (if d in dp then dp[d] else {}) + Partial(model, rels, j, d)
  {
    if j > 0 {
      RecordAdds(dp, model, rels, j - 1);
      forall d: nat ensures Partial(model, rels, j, d) == Partial(model, rels, j - 1, d) + (if d == j - 1 && Counts(model, rels[j - 1]) then {CumPath(rels, j)} else {}) {
      }
    }
  }

  /** After `n` paths, `depth_paths` holds, per depth, exactly the counting cumulative paths seen so far. */
  lemma {:induction false} RecordAllPaths(model: Entity, resolved: seq<seq<Edge>>, n: nat)
    requires n <= |resolved|
    ensures CollectedBefore(RecordAll(model, resolved, n), model, resolved, n)
  {
    if n > 0 {
      var prev := RecordAll(model, resolved, n - 1);
      var rels := resolved[n - 1];
      RecordAllPaths(model, resolved, n - 1);
      RecordAdds(prev, model, rels, |rels|);
      PathsBeforeNext(model, resolved, n - 1);
      assert RecordAll(model, resolved, n) == Record(prev, model, rels, |rels|);
      forall d: nat ensures (if d in prev then prev[d] else {}) == PathsBefore(model, resolved, n - 1, d) {
      }
    }
  }

  lemma PathsBeforeNext(model: Entity, resolved: seq<seq<Edge>>, i: nat)
    requires i < |resolved|
    ensures forall d: nat :: PathsBefore(model, resolved, i + 1, d) == PathsBefore(model, resolved, i, d) + Partial(model, resolved[i], |resolved[i]|, d)
  {
    forall d: nat ensures PathsBefore(model, resolved, i + 1, d) == PathsBefore(model, resolved, i, d) + Partial(model, resolved[i], |resolved[i]|, d) {
      var next, prev := PathsBefore(model, resolved, i + 1, d), PathsBefore(model, resolved, i, d);
      forall x | x in next ensures x in prev + Partial(model, resolved[i], |resolved[i]|, d) {
        var k :| 0 <= k < i + 1 && d < |resolved[k]| && Counts(model, resolved[k][d]) && x == CumPath(resolved[k], d + 1);
        if k < i {
          assert x in prev;
        }
      }
      forall x | x in prev ensures x in next {
        var k :| 0 <= k < i && d < |resolved[k]| && Counts(model, resolved[k][d]) && x == CumPath(resolved[k], d + 1);
      }
    }
  }

  /** The longest resolved path's length; no depth reaches it. */
  function MaxLen(resolved: seq<seq<Edge>>): (n: nat)
    ensures forall i :: 0 <= i < |resolved| ==> |resolved[i]| <= n
  {
    if resolved == [] then 0
    else var rest := MaxLen(resolved[1..]); if |resolved[0]| > rest then |resolved[0]| else rest
  }

  /** The depths below `n` that hold two or more paths, ascending. */
  function ZipDepthsBelow(dp: map<nat, set<string>>, n: nat): (zs: seq<nat>)
    ensures forall k :: 0 <= k < |zs| ==> zs[k] < n
    ensures forall a, b :: 0 <= a < b < |zs| ==> zs[a] < zs[b]
    ensures forall d: nat :: d in zs <==> d < n && d in dp && |dp[d]| >= 2
  {
    if n == 0 then []
    else ZipDepthsBelow(dp, n - 1) + (if n - 1 in dp && |dp[n - 1]| >= 2 then [n - 1] else [])
  }

  /**
   * `zip_depths = sorted(d for d, paths in depth_paths.items() if len(paths) >= 2)`:
   * ascending, and exactly the recorded depths (all below the longest chain)
   * holding two or more paths.
   */
  function ZipDepths(dp: map<nat, set<string>>, resolved: seq<seq<Edge>>): (zs: seq<nat>)
    ensures forall a, b :: 0 <= a < b < |zs| ==> zs[a] < zs[b]
    ensures forall d: nat :: d in zs <==> d < MaxLen(resolved) && d in dp && |dp[d]| >= 2
  {
    ZipDepthsBelow(dp, MaxLen(resolved))
  }

  /**
   * With `depth_paths` as collected, the zip depths are, in ascending order,
   * exactly the depths holding two or more distinct counting cumulative paths.
   */
  lemma ZipDepthsExact(model: Entity, resolved: seq<seq<Edge>>, dp: map<nat, set<string>>)
    requires forall d: nat :: d in dp <==> PathsAt(model, resolved, d) != {}
    requires forall d: nat :: d in dp ==> dp[d] == PathsAt(model, resolved, d)
    ensures var zs := ZipDepths(dp, resolved);
      && (forall a, b :: 0 <= a < b < |zs| ==> zs[a] < zs[b])
      && (forall d: nat :: d in zs <==> |PathsAt(model, resolved, d)| >= 2)
  {
    forall d: nat | |PathsAt(model, resolved, d)| >= 2 ensures d < MaxLen(resolved) {
      var x :| x in PathsAt(model, resolved, d);
      var k :| 0 <= k < |resolved| && d < |resolved[k]| && Counts(model, resolved[k][d]) && x == CumPath(resolved[k], d + 1);
    }
  }

  /**
   * The limit the condition for `e` would leave on `select(target).limit(cap)`:
   * the one the condition sets, or the cap when it sets none or removes the limit.
   */
  function Probe(e: Edge, cap: int, conditions: Conditions): (n: int)
    ensures n == if e.key in conditions && conditions[e.key].limitEffect.SetLimit? && conditions[e.key].limitEffect.value.Some?
      then conditions[e.key].limitEffect.value.value else cap
  {
    ExtractLimit(ApplyConditions(WithLimit(Select(e.target), Some(cap)), e.key, conditions), cap)
  }

  /** A hop whose condition is probed: a list-loading hop (self-referential or not) at a zip depth. */
  predicate ProbeSite(resolved: seq<seq<Edge>>, zipDepths: seq<nat>, i: int, d: int) {
    0 <= i < |resolved| && 0 <= d < |resolved[i]| && d in zipDepths && resolved[i][d].toMany
  }

  /**
   * The rank bound of `_check_zip_needs`: the cap, raised to the largest limit
   * any probed condition sets.
   */
  method RankBound(resolved: seq<seq<Edge>>, zipDepths: seq<nat>, cap: int, conditions: Conditions) returns (bound: int)
    ensures bound >= cap
    ensures forall i, d :: ProbeSite(resolved, zipDepths, i, d) ==> bound >= Probe(resolved[i][d], cap, conditions)
    ensures bound == cap || exists i, d :: ProbeSite(resolved, zipDepths, i, d) && bound == Probe(resolved[i][d], cap, conditions)
  {
    bound := cap;
    if conditions != map[] {
      var i := 0;
      while i < |resolved|
        invariant 0 <= i <= |resolved|
        invariant bound >= cap
        invariant forall k, d :: 0 <= k < i && ProbeSite(resolved, zipDepths, k, d) ==> bound >= Probe(resolved[k][d], cap, conditions)
        invariant bound == cap || exists k, d :: ProbeSite(resolved, zipDepths, k, d) && bound == Probe(resolved[k][d], cap, conditions)
      {
        var b := ProbePath(resolved, zipDepths, i, cap, conditions, bound);
        bound := b;
        i := i + 1;
      }
    } else {
      forall i, d | ProbeSite(resolved, zipDepths, i, d) ensures Probe(resolved[i][d], cap, conditions) == cap {
      }
    }
  }

  /** The inner loop of `RankBound` over the hops of the `i`-th path, starting from the bound so far. */
  method ProbePath(resolved: seq<seq<Edge>>, zipDepths: seq<nat>, i: nat, cap: int, conditions: Conditions, bound0: int)
    returns (bound: int)
    requires i < |resolved|
    ensures bound >= bound0
    ensures forall d :: ProbeSite(resolved, zipDepths, i, d) ==> bound >= Probe(resolved[i][d], cap, conditions)
    ensures bound == bound0 || exists d :: ProbeSite(resolved, zipDepths, i, d) && bound == Probe(resolved[i][d], cap, conditions)
  {
    bound := bound0;
    var rels := resolved[i];
    var depth := 0;
    while depth < |rels|
      invariant 0 <= depth <= |rels|
      invariant bound >= bound0
      invariant forall d :: 0 <= d < depth && ProbeSite(resolved, zipDepths, i, d) ==> bound >= Probe(resolved[i][d], cap, conditions)
      invariant bound == bound0 || exists d :: ProbeSite(resolved, zipDepths, i, d) && bound == Probe(resolved[i][d], cap, conditions)
    {
      var rel := rels[depth];
      if depth in zipDepths && rel.toMany {
        var probe := ApplyConditions(WithLimit(Select(rel.target), Some(cap)), rel.key, conditions);
        var probed := ExtractLimit(probe, cap);
        assert ProbeSite(resolved, zipDepths, i, depth) && probed == Probe(resolved[i][depth], cap, conditions);
        if probed > bound {
          bound := probed;
        }
      }
      depth := depth + 1;
    }
  }

  /** The name of the `idx`-th row-number table: `_sqla_rn`, then `_sqla_rn_1`, `_sqla_rn_2`, ... */
  function RankName(idx: nat): (name: string)
    ensures idx == 0 ==> name == "_sqla_rn"
    ensures idx > 0 ==> |name| > 9 && name[..9] == "_sqla_rn_" && name[9..] == NatToString(idx)
  {
    if idx == 0 then "_sqla_rn" else "_sqla_rn_" + NatToString(idx)
  }

  /** Distinct positions get distinct row-number table names. */
  lemma RankNamesDistinct(a: nat, b: nat)
    requires a != b
    ensures RankName(a) != RankName(b)
  {
    if a != 0 && b != 0 && RankName(a) == RankName(b) {
      var prefix := "_sqla_rn_";
      assert RankName(a)[|prefix|..] == NatToString(a);
      assert RankName(b)[|prefix|..] == NatToString(b);
      NatToStringInjective(a, b);
    }
  }

  /**
   * The recursive CTE `_sqla_rn_cte` counting 1, 2, ... up to `bound`, shown
   * as a selectable named after it whose row count is `bound`.
   */
  function RankSeries(bound: int): Query {
    Query([Named(Some("_sqla_rn_cte"), None)], [], [], Some(bound), [], [], false)
  }

  /** The subquery `select(_cte.c._rn).subquery(name=RankName(idx))`; it wraps a SELECT, which has no name. */
  function RankTable(idx: nat): FromClause {
    Named(Some(RankName(idx)), Some(Named(None, None)))
  }
}
