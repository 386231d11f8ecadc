/**
 * Resolving a load key to the chain of relationships that reaches it: a
 * breadth-first search for a bare key, a strict segment-by-segment walk for a
 * dotted one. The graph passed in is the mapping held by the Node singleton,
 * read through `Node.get` (unknown classes have no edges).
 */
module Paths {
  import opened Wrappers
  import opened Schema
  import opened Strings

  /** The class a chain of edges ends at; the empty chain stays at `start`. */
  function Target(start: Entity, p: seq<Edge>): Entity {
    if p == [] then start else p[|p| - 1].target
  }

  /** Each edge is a relationship declared on the class the previous edge reached. */
  ghost predicate ValidChain(g: Graph, start: Entity, p: seq<Edge>)
    decreases |p|
  {
    p == [] || (ValidChain(g, start, p[..|p| - 1]) && p[|p| - 1] in Edges(g, Target(start, p[..|p| - 1])))
  }

  /** A non-empty chain from `start` whose last relationship is keyed `end`. */
  ghost predicate Qualifies(g: Graph, start: Entity, p: seq<Edge>, end: string) {
    |p| > 0 && ValidChain(g, start, p) && p[|p| - 1].key == end
  }

  /**
   * What `_bfs_search` promises: a non-empty answer qualifies and no qualifying
   * chain is shorter; the answer is empty exactly when nothing qualifies.
   */
  ghost predicate BfsResult(g: Graph, start: Entity, end: string, path: seq<Edge>) {
    && (path != [] ==> Qualifies(g, start, path, end))
    && (path == [] <==> forall p :: !Qualifies(g, start, p, end))
    && (forall p :: Qualifies(g, start, p, end) ==> |path| <= |p|)
  }

  /** Every class the search can ever enqueue: the start and every edge target. */
  ghost function Universe(g: Graph, start: Entity): set<Entity> {
    {start} + set c, e | c in g && e in g[c] :: e.target
  }

  // ---------------------------------------------------------------------------
  // Search state. `q` is every entry ever enqueued; the deque is `q[head..]`,
  // so `popleft` advances `head`. `depth` records the length of the path with
  // which each seen class was expanded.

  type Entry = (Entity, seq<Edge>)

  ghost predicate QueueShape(g: Graph, start: Entity, q: seq<Entry>) {
    && |q| >= 1 && q[0] == (start, [])
    && (forall k :: 0 <= k < |q| ==> ValidChain(g, start, q[k].1) && Target(start, q[k].1) == q[k].0)
    && (forall k :: 0 <= k < |q| ==> q[k].0 in Universe(g, start))
    && (forall i, j :: 0 <= i <= j < |q| ==> |q[i].1| <= |q[j].1|)
  }

  /** Some entry enqueues class `c` with a path of length at most `n`. */
  ghost predicate Reached(q: seq<Entry>, c: Entity, n: nat) {
    exists k :: 0 <= k < |q| && q[k].0 == c && |q[k].1| <= n
  }

  ghost predicate NoEndEdge(g: Graph, end: string, c: Entity) {
    forall e :: e in Edges(g, c) ==> e.key != end
  }

  /** A seen class: its relationships are not keyed `end`, and their targets were enqueued one level deeper. */
  ghost predicate Expanded(g: Graph, end: string, q: seq<Entry>, depth: map<Entity, nat>, c: Entity)
    requires c in depth
  {
    NoEndEdge(g, end, c) && forall e :: e in Edges(g, c) ==> Reached(q, e.target, depth[c] + 1)
  }

  /** Every popped entry names a seen class, seen no deeper than that entry. */
  ghost predicate Consumed(q: seq<Entry>, head: nat, seen: set<Entity>, depth: map<Entity, nat>) {
    && head <= |q|
    && seen == depth.Keys
    && (forall k :: 0 <= k < head ==> q[k].0 in depth && depth[q[k].0] <= |q[k].1|)
  }

  /** Every chain shorter than `f` ends at a class seen at no greater depth. */
  ghost predicate ShortChainsSeen(g: Graph, start: Entity, depth: map<Entity, nat>, f: nat) {
    forall p :: ValidChain(g, start, p) && |p| < f ==> Target(start, p) in depth && depth[Target(start, p)] <= |p|
  }

  /** The entries still queued are at most one level deeper than the front. */
  ghost predicate Spread(q: seq<Entry>, head: nat)
    requires head < |q|
  {
    forall k :: head <= k < |q| ==> |q[k].1| <= |q[head].1| + 1
  }

  /** The loop invariant of the search, over the state after `head` pops. */
  ghost predicate SearchInv(g: Graph, start: Entity, end: string, q: seq<Entry>, head: nat, seen: set<Entity>, depth: map<Entity, nat>) {
    && QueueShape(g, start, q)
    && Consumed(q, head, seen, depth)
    && seen <= Universe(g, start)
    && (forall c :: c in depth ==> Expanded(g, end, q, depth, c))
    && (head < |q| ==> Spread(q, head) && ShortChainsSeen(g, start, depth, |q[head].1|))
    && (head < |q| ==> DepthsAtMost(depth, |q[head].1|))
  }

  ghost predicate DepthsAtMost(depth: map<Entity, nat>, n: nat) {
    forall c :: c in depth ==> depth[c] <= n
  }

  /**
   * `_bfs_search(start, end, node)`: breadth-first over classes, each class
   * expanded at most once; returns the first path whose last relationship is
   * keyed `end`, or the empty sequence.
   */
  method BfsSearch(g: Graph, start: Entity, end: string) returns (path: seq<Edge>)
    ensures path == BfsOrder(g, start, end)
    ensures BfsResult(g, start, end, path)
  {
    var q: seq<Entry> := [(start, [])];
    var head := 0;
    var seen: set<Entity> := {};
    ghost var depth: map<Entity, nat> := map[];
    SearchStarts(g, start, end);
    while head < |q|
      invariant SearchInv(g, start, end, q, head, seen, depth)
      invariant BfsFrom(g, start, end, q, head, seen) == BfsOrder(g, start, end)
      decreases |Universe(g, start) - seen|, |q| - head
    {
      var (current, p) := q[head];
      head := head + 1;
      if current in seen {
        SkipStep(g, start, end, q, head - 1, seen, depth);
        continue;
      }
      var edges := Edges(g, current);
      var q', found := ScanEdges(q, p, edges, end);
      EdgeTargets(g, start, current);
      if found.Some? {
        FoundStep(g, start, end, q, head - 1, seen, depth, edges, found.value);
        return found.value;
      }
      ExpandStep(g, start, end, q, q', head - 1, seen, depth, edges);
      Shrinks(Universe(g, start), seen, current);
      q, seen, depth := q', seen + {current}, depth[current := |p|];
    }
    Exhausted(g, start, end, q, seen, depth);
    return [];
  }

  /**
   * The `for rel in node.get(current)` loop: returns `path + [rel]` for the
   * first relationship keyed `end`; until then enqueues each target with its
   * extended path.
   */
  method ScanEdges(q0: seq<Entry>, p: seq<Edge>, edges: seq<Edge>, end: string) returns (q: seq<Entry>, found: Option<seq<Edge>>)
    ensures (q, found) == Scan(q0, p, edges, end)
  {
    q := q0;
    var j := 0;
    while j < |edges|
      invariant 0 <= j <= |edges|
      invariant Scan(q, p, edges[j..], end) == Scan(q0, p, edges, end)
    {
      var rel := edges[j];
      var newPath := p + [rel];
      assert edges[j..][0] == rel && edges[j..][1..] == edges[j + 1..];
      if rel.key == end {
        return q, Some(newPath);
      }
      q := q + [(rel.target, newPath)];
      j := j + 1;
    }
    return q, None;
  }

  /**
   * The scan as a function: the first relationship keyed `end` gives the
   * answer, `p` extended by it; every relationship before it enqueues its
   * target with `p` extended by it.
   */
  function Scan(q: seq<Entry>, p: seq<Edge>, edges: seq<Edge>, end: string): (r: (seq<Entry>, Option<seq<Edge>>))
    ensures r.1.Some? ==> exists j :: 0 <= j < |edges| && edges[j].key == end && r.1.value == p + [edges[j]]
                                      && forall i :: 0 <= i < j ==> edges[i].key != end
    ensures r.1.None? ==> (forall i :: 0 <= i < |edges| ==> edges[i].key != end) && Appended(q, r.0, p, edges)
    decreases |edges|
  {
    if edges == [] then (q, None)
    else if edges[0].key == end then (q, Some(p + [edges[0]]))
    else
      var r := Scan(q + [(edges[0].target, p + [edges[0]])], p, edges[1..], end);
      assert r.1.Some? ==> exists j :: 0 <= j < |edges| && edges[j].key == end && r.1.value == p + [edges[j]]
                                       && forall i :: 0 <= i < j ==> edges[i].key != end by {
        if r.1.Some? {
          var j :| 0 <= j < |edges[1..]| && edges[1..][j].key == end && r.1.value == p + [edges[1..][j]]
                   && forall i :: 0 <= i < j ==> edges[1..][i].key != end;
          assert edges[j + 1] == edges[1..][j];
          forall i | 0 <= i < j + 1 ensures edges[i].key != end {
            if i > 0 { assert edges[i] == edges[1..][i - 1]; }
          }
        }
      }
      r
  }

  /** The targets of a class's relationships are in the search's universe. */
  lemma EdgeTargets(g: Graph, start: Entity, c: Entity)
    ensures forall e :: e in Edges(g, c) ==> e.target in Universe(g, start)
  {
    forall e | e in Edges(g, c) ensures e.target in Universe(g, start) {
      assert c in g && e in g[c];
    }
  }

  /**
   * The search as a function over the deque `q[head..]` and the seen classes:
   * pop the front, skip a seen class, otherwise scan its relationships in
   * declaration order, stopping at the first keyed `end`.
   */
  ghost function BfsFrom(g: Graph, start: Entity, end: string, q: seq<Entry>, head: nat, seen: set<Entity>): seq<Edge>
    requires head <= |q| && seen <= Universe(g, start)
    requires forall k :: 0 <= k < |q| ==> q[k].0 in Universe(g, start)
    decreases |Universe(g, start) - seen|, |q| - head
  {
    if head == |q| then []
    else
      var (current, p) := q[head];
      if current in seen then BfsFrom(g, start, end, q, head + 1, seen)
      else
        var (q', found) := Scan(q, p, Edges(g, current), end);
        if found.Some? then found.value
        else
          EdgeTargets(g, start, current);
          Shrinks(Universe(g, start), seen, current);
          BfsFrom(g, start, end, q', head + 1, seen + {current})
  }

  /** The chain `_bfs_search` returns: the search from the start class alone, nothing seen. */
  ghost function BfsOrder(g: Graph, start: Entity, end: string): seq<Edge> {
    BfsFrom(g, start, end, [(start, [])], 0, {})
  }

  /** `q` is `q0` followed by one entry per edge: its target and `p` extended by it. */
  ghost predicate Appended(q0: seq<Entry>, q: seq<Entry>, p: seq<Edge>, edges: seq<Edge>) {
    && |q| == |q0| + |edges|
    && (forall k :: 0 <= k < |q0| ==> q[k] == q0[k])
    && (forall k :: |q0| <= k < |q| ==> q[k] == (edges[k - |q0|].target, p + [edges[k - |q0|]]))
  }

  // ---------------------------------------------------------------------------
  // Proof of the search

  lemma Shrinks<T>(u: set<T>, seen: set<T>, x: T)
    requires x in u && x !in seen
    ensures |u - (seen + {x})| < |u - seen|
  {
    assert u - (seen + {x}) == (u - seen) - {x};
  }

  /** Appending an edge declared on the chain's last class extends the chain. */
  lemma ChainSnoc(g: Graph, start: Entity, p: seq<Edge>, e: Edge)
    requires ValidChain(g, start, p) && e in Edges(g, Target(start, p))
    ensures ValidChain(g, start, p + [e]) && Target(start, p + [e]) == e.target
  {
    assert (p + [e])[..|p|] == p;
  }

  /** Dropping the last edge of a chain leaves a chain, ending where that edge is declared. */
  lemma ChainInit(g: Graph, start: Entity, p: seq<Edge>)
    requires ValidChain(g, start, p) && p != []
    ensures ValidChain(g, start, p[..|p| - 1]) && p[|p| - 1] in Edges(g, Target(start, p[..|p| - 1]))
  {
  }

  lemma SearchStarts(g: Graph, start: Entity, end: string)
    ensures SearchInv(g, start, end, [(start, [])], 0, {}, map[])
  {
    assert ValidChain(g, start, []);
    forall p | ValidChain(g, start, p) && |p| < 0 ensures false {
    }
  }

  /** Popping an already-seen class changes nothing but the front. */
  lemma SkipStep(g: Graph, start: Entity, end: string, q: seq<Entry>, h: nat, seen: set<Entity>, depth: map<Entity, nat>)
    requires SearchInv(g, start, end, q, h, seen, depth)
    requires h < |q| && q[h].0 in seen
    ensures SearchInv(g, start, end, q, h + 1, seen, depth)
  {
    var f := |q[h].1|;
    forall k | h <= k < |q| ensures f <= |q[k].1| <= f + 1 {
      assert |q[h].1| <= |q[k].1|;
    }
    AdvanceFront(g, start, end, q, h + 1, depth, f);
    if h + 1 < |q| {
      assert |q[h].1| <= |q[h + 1].1|;
    }
  }

  /** Returning `path + [rel]`: it qualifies, and no qualifying chain is shorter. */
  lemma FoundStep(g: Graph, start: Entity, end: string, q: seq<Entry>, h: nat, seen: set<Entity>, depth: map<Entity, nat>, edges: seq<Edge>, path: seq<Edge>)
    requires SearchInv(g, start, end, q, h, seen, depth)
    requires h < |q| && q[h].0 !in seen && edges == Edges(g, q[h].0)
    requires exists j :: 0 <= j < |edges| && edges[j].key == end && path == q[h].1 + [edges[j]]
    ensures BfsResult(g, start, end, path)
  {
    var (current, p) := q[h];
    var j :| 0 <= j < |edges| && edges[j].key == end && path == p + [edges[j]];
    ChainSnoc(g, start, p, edges[j]);
    forall p' | Qualifies(g, start, p', end) ensures |path| <= |p'| {
      ChainInit(g, start, p');
    }
    assert Qualifies(g, start, path, end);
  }

  /** Expanding a new class: mark it seen at its path's length and enqueue its targets. */
  lemma ExpandStep(g: Graph, start: Entity, end: string, q: seq<Entry>, q': seq<Entry>, h: nat, seen: set<Entity>, depth: map<Entity, nat>, edges: seq<Edge>)
    requires SearchInv(g, start, end, q, h, seen, depth)
    requires h < |q| && q[h].0 !in seen && edges == Edges(g, q[h].0)
    requires forall i :: 0 <= i < |edges| ==> edges[i].key != end
    requires Appended(q, q', q[h].1, edges)
    ensures SearchInv(g, start, end, q', h + 1, seen + {q[h].0}, depth[q[h].0 := |q[h].1|])
  {
    var (current, p) := q[h];
    var depth' := depth[current := |p|];
    EnqueuedShape(g, start, q, q', h, edges);
    EnqueuedExpanded(g, end, q, q', depth, depth', current, p, edges);
    ConsumedStep(q, q', h, seen, depth, depth');
    ShortChainsStep(g, start, depth, depth', current, |p|);
    assert current in Universe(g, start);
    AdvanceFront(g, start, end, q', h + 1, depth', |p|);
    DepthsStep(q, q', h, depth, depth', current);
  }

  lemma ConsumedStep(q: seq<Entry>, q': seq<Entry>, h: nat, seen: set<Entity>, depth: map<Entity, nat>, depth': map<Entity, nat>)
    requires Consumed(q, h, seen, depth) && h < |q| <= |q'|
    requires forall k :: 0 <= k < |q| ==> q'[k] == q[k]
    requires depth' == depth[q[h].0 := |q[h].1|] && q[h].0 !in depth
    ensures Consumed(q', h + 1, seen + {q[h].0}, depth')
  {
    forall k | 0 <= k < h + 1 ensures q'[k].0 in depth' && depth'[q'[k].0] <= |q'[k].1| {
      assert q'[k] == q[k];
    }
  }

  lemma ShortChainsStep(g: Graph, start: Entity, depth: map<Entity, nat>, depth': map<Entity, nat>, current: Entity, f: nat)
    requires ShortChainsSeen(g, start, depth, f) && current !in depth && depth' == depth[current := f]
    ensures ShortChainsSeen(g, start, depth', f)
  {
    forall p0 | ValidChain(g, start, p0) && |p0| < f
      ensures Target(start, p0) in depth' && depth'[Target(start, p0)] <= |p0|
    {
      assert Target(start, p0) in depth;
    }
  }

  lemma DepthsStep(q: seq<Entry>, q': seq<Entry>, h: nat, depth: map<Entity, nat>, depth': map<Entity, nat>, current: Entity)
    requires h < |q| && DepthsAtMost(depth, |q[h].1|) && depth' == depth[current := |q[h].1|]
    requires forall k :: h <= k < |q'| ==> |q[h].1| <= |q'[k].1|
    ensures h + 1 < |q'| ==> DepthsAtMost(depth', |q'[h + 1].1|)
  {
  }

  lemma EnqueuedShape(g: Graph, start: Entity, q: seq<Entry>, q': seq<Entry>, h: nat, edges: seq<Edge>)
    requires QueueShape(g, start, q) && h < |q| && Spread(q, h)
    requires edges == Edges(g, q[h].0)
    requires Appended(q, q', q[h].1, edges)
    ensures QueueShape(g, start, q')
    ensures forall k :: h <= k < |q'| ==> |q[h].1| <= |q'[k].1| <= |q[h].1| + 1
  {
    var (current, p) := q[h];
    var f := |p|;
    forall k | |q| <= k < |q'|
      ensures ValidChain(g, start, q'[k].1) && Target(start, q'[k].1) == q'[k].0
      ensures q'[k].0 in Universe(g, start)
      ensures |q'[k].1| == f + 1
    {
      var e := edges[k - |q|];
      ChainSnoc(g, start, p, e);
      assert current in g && e in g[current];
    }
    forall k | 0 <= k < |q| ensures |q[k].1| <= f + 1 {
      if k < h { assert |q[k].1| <= |q[h].1|; }
    }
    forall k | 0 <= k < |q'| ensures ValidChain(g, start, q'[k].1) && Target(start, q'[k].1) == q'[k].0 && q'[k].0 in Universe(g, start) {
      if k < |q| {
        assert q'[k] == q[k];
      }
    }
    forall i, j | 0 <= i <= j < |q'| ensures |q'[i].1| <= |q'[j].1| {
      if j < |q| {
        assert q'[i] == q[i] && q'[j] == q[j];
      } else if i < |q| {
        assert q'[i] == q[i];
      }
    }
    forall k | h <= k < |q'| ensures f <= |q'[k].1| <= f + 1 {
      if k < |q| {
        assert q'[k] == q[k];
        assert |q[h].1| <= |q[k].1|;
      }
    }
  }

  lemma EnqueuedExpanded(g: Graph, end: string, q: seq<Entry>, q': seq<Entry>, depth: map<Entity, nat>, depth': map<Entity, nat>, current: Entity, p: seq<Edge>, edges: seq<Edge>)
    requires current !in depth && depth' == depth[current := |p|]
    requires forall c :: c in depth ==> Expanded(g, end, q, depth, c)
    requires edges == Edges(g, current)
    requires forall i :: 0 <= i < |edges| ==> edges[i].key != end
    requires Appended(q, q', p, edges)
    ensures forall c :: c in depth' ==> Expanded(g, end, q', depth', c)
  {
    forall c | c in depth ensures Expanded(g, end, q', depth', c) {
      forall e | e in Edges(g, c) ensures Reached(q', e.target, depth'[c] + 1) {
        assert Reached(q, e.target, depth[c] + 1);
        var k :| 0 <= k < |q| && q[k].0 == e.target && |q[k].1| <= depth[c] + 1;
        assert q'[k] == q[k];
      }
    }
    forall e | e in Edges(g, current) ensures Reached(q', e.target, depth'[current] + 1) {
      var i :| 0 <= i < |edges| && edges[i] == e;
      assert q'[|q| + i] == (edges[i].target, p + [edges[i]]);
    }
  }

  /** After a pop, chains shorter than the new front end at seen classes. */
  lemma AdvanceFront(g: Graph, start: Entity, end: string, q: seq<Entry>, head: nat, depth: map<Entity, nat>, f: nat)
    requires 1 <= head <= |q|
    requires QueueShape(g, start, q)
    requires forall k :: 0 <= k < head ==> q[k].0 in depth && depth[q[k].0] <= |q[k].1|
    requires forall c :: c in depth ==> Expanded(g, end, q, depth, c)
    requires ShortChainsSeen(g, start, depth, f)
    requires forall k :: head - 1 <= k < |q| ==> f <= |q[k].1| <= f + 1
    ensures head < |q| ==> Spread(q, head) && ShortChainsSeen(g, start, depth, |q[head].1|)
  {
    if head < |q| && |q[head].1| == f + 1 {
      forall p | ValidChain(g, start, p) && |p| == f
        ensures Target(start, p) in depth && depth[Target(start, p)] <= |p|
      {
        if p == [] {
          assert q[0].0 == start;
        } else {
          ChainInit(g, start, p);
          var p0 := p[..|p| - 1];
          var t := Target(start, p0);
          assert t in depth && depth[t] <= |p0|;
          var e: Edge := p[|p| - 1];
          assert Reached(q, e.target, depth[t] + 1);
          var k :| 0 <= k < |q| && q[k].0 == e.target && |q[k].1| <= depth[t] + 1;
        }
      }
    }
  }

  /** With the deque empty, every chain ends at a seen class, so nothing qualifies. */
  lemma Exhausted(g: Graph, start: Entity, end: string, q: seq<Entry>, seen: set<Entity>, depth: map<Entity, nat>)
    requires SearchInv(g, start, end, q, |q|, seen, depth)
    ensures BfsResult(g, start, end, [])
  {
    forall p | Qualifies(g, start, p, end) ensures false {
      ChainInit(g, start, p);
      ChainEndsSeen(g, start, end, q, depth, p[..|p| - 1]);
    }
  }

  lemma {:induction false} ChainEndsSeen(g: Graph, start: Entity, end: string, q: seq<Entry>, depth: map<Entity, nat>, p: seq<Edge>)
    requires QueueShape(g, start, q)
    requires forall k :: 0 <= k < |q| ==> q[k].0 in depth
    requires forall c :: c in depth ==> Expanded(g, end, q, depth, c)
    requires ValidChain(g, start, p)
    ensures Target(start, p) in depth
    decreases |p|
  {
    if p == [] {
      assert q[0].0 == start;
    } else {
      ChainInit(g, start, p);
      var p0 := p[..|p| - 1];
      ChainEndsSeen(g, start, end, q, depth, p0);
      var t := Target(start, p0);
      assert Reached(q, p[|p| - 1].target, depth[t] + 1);
    }
  }

  // ---------------------------------------------------------------------------
  // Dotted paths

  /** The index of the first relationship keyed `key`, or `|edges|` when there is none. */
  function FirstWithKey(edges: seq<Edge>, key: string): (i: nat)
    ensures i <= |edges|
    ensures forall j :: 0 <= j < i ==> edges[j].key != key
    ensures i < |edges| ==> edges[i].key == key
  {
    if edges == [] || edges[0].key == key then 0 else 1 + FirstWithKey(edges[1..], key)
  }

  /** `next((r for r in relations if r.key == key), None)`: the first relationship with that key. */
  function FindEdge(edges: seq<Edge>, key: string): (r: Option<Edge>)
    ensures r.None? <==> forall e :: e in edges ==> e.key != key
    ensures r.Some? ==> r.value in edges && r.value.key == key
    ensures r.Some? ==> r.value == edges[FirstWithKey(edges, key)]
  {
    var i := FirstWithKey(edges, key);
    if i < |edges| then Some(edges[i]) else None
  }

  /** ValueError("No relationship '{segment}' on {class} (resolving '{dotted}' from {model})"). */
  datatype DottedError = NoRelationship(segment: string, onClass: string, dotted: string, model: string)

  /**
   * The segment walk over the first `|segs|` segments: each segment takes the
   * first relationship with that key on the class reached so far; the first
   * segment without one fails the whole walk.
   */
  function Walk(g: Graph, model: Entity, dotted: string, segs: seq<string>): (r: Result<seq<Edge>, DottedError>)
    ensures r.Success? ==> |r.value| == |segs|
    ensures r.Success? ==> forall i :: 0 <= i < |segs| ==> r.value[i].key == segs[i]
    decreases |segs|
  {
    if segs == [] then Success([])
    else
      var w := Walk(g, model, dotted, segs[..|segs| - 1]);
      if w.Failure? then w
      else
        var cur := Target(model, w.value);
        var rel := FindEdge(Edges(g, cur), segs[|segs| - 1]);
        if rel.None? then Failure(NoRelationship(segs[|segs| - 1], cur.name, dotted, model.name))
        else Success(w.value + [rel.value])
  }

  /**
   * `_resolve_dotted_path(model, dotted, node)`: a key without a dot goes to the
   * breadth-first search; otherwise every segment must be a direct relationship.
   */
  method ResolveDottedPath(g: Graph, model: Entity, dotted: string) returns (r: Result<seq<Edge>, DottedError>)
    ensures |Split(dotted)| == 1 ==> r.Success? && BfsResult(g, model, dotted, r.value) && r.value == BfsOrder(g, model, dotted)
    ensures |Split(dotted)| > 1 ==> r == Walk(g, model, dotted, Split(dotted))
  {
    var parts := Split(dotted);
    if |parts| == 1 {
      SplitSingle(dotted);
      var path := BfsSearch(g, model, dotted);
      return Success(path);
    }
    var result: seq<Edge> := [];
    var current := model;
    var i := 0;
    while i < |parts|
      invariant 0 <= i <= |parts|
      invariant Walk(g, model, dotted, parts[..i]) == Success(result)
      invariant current == Target(model, result)
    {
      var segment := parts[i];
      var rel := FindEdge(Edges(g, current), segment);
      WalkStep(g, model, dotted, parts, i, result);
      if rel.None? {
        WalkFailurePersists(g, model, dotted, parts, i + 1);
        return Failure(NoRelationship(segment, current.name, dotted, model.name));
      }
      result := result + [rel.value];
      current := rel.value.target;
      i := i + 1;
    }
    assert parts[..i] == parts;
    return Success(result);
  }

  /** One more segment: the walk so far extended by the first relationship keyed by it, or the error naming it. */
  lemma WalkStep(g: Graph, model: Entity, dotted: string, segs: seq<string>, i: nat, result: seq<Edge>)
    requires i < |segs| && Walk(g, model, dotted, segs[..i]) == Success(result)
    ensures var rel := FindEdge(Edges(g, Target(model, result)), segs[i]);
      && (rel.None? ==> Walk(g, model, dotted, segs[..i + 1]) == Failure(NoRelationship(segs[i], Target(model, result).name, dotted, model.name)))
      && (rel.Some? ==> Walk(g, model, dotted, segs[..i + 1]) == Success(result + [rel.value]) && Target(model, result + [rel.value]) == rel.value.target)
  {
    assert segs[..i + 1][..i] == segs[..i] && segs[..i + 1][i] == segs[i];
  }

  lemma SplitSingle(s: string)
    requires |Split(s)| == 1
    ensures Split(s) == [s]
  {
    JoinSplit(s);
  }

  /** Once a prefix of the segments fails, the whole walk fails the same way. */
  lemma {:induction false} WalkFailurePersists(g: Graph, model: Entity, dotted: string, segs: seq<string>, n: nat)
    requires n <= |segs|
    requires Walk(g, model, dotted, segs[..n]).Failure?
    ensures Walk(g, model, dotted, segs) == Walk(g, model, dotted, segs[..n])
    decreases |segs| - n
  {
    if n < |segs| {
      assert segs[..n + 1][..n] == segs[..n];
      WalkFailurePersists(g, model, dotted, segs, n + 1);
    } else {
      assert segs[..n] == segs;
    }
  }

  // ---------------------------------------------------------------------------
  // Properties of the walk

  /**
   * A successful walk has one relationship per segment, keyed by that
   * segment, and together they form a chain of relationships from the model.
   */
  lemma WalkSuccess(g: Graph, model: Entity, dotted: string, segs: seq<string>, p: seq<Edge>)
    requires Walk(g, model, dotted, segs) == Success(p)
    ensures |p| == |segs|
    ensures ValidChain(g, model, p)
    ensures forall i :: 0 <= i < |segs| ==> p[i].key == segs[i]
  {
    WalkChain(g, model, dotted, segs, p);
  }

  lemma {:induction false} WalkChain(g: Graph, model: Entity, dotted: string, segs: seq<string>, p: seq<Edge>)
    requires Walk(g, model, dotted, segs) == Success(p)
    ensures |p| == |segs| && ValidChain(g, model, p)
    decreases |segs|
  {
    if segs != [] {
      var n := |segs|;
      var w := Walk(g, model, dotted, segs[..n - 1]).value;
      WalkChain(g, model, dotted, segs[..n - 1], w);
      WalkStep(g, model, dotted, segs, n - 1, w);
      assert segs[..n] == segs;
      ChainSnoc(g, model, w, p[n - 1]);
    }
  }

  /**
   * A failed walk names a segment that has no relationship on the class the
   * successful part of the walk reached, together with that class and the model.
   */
  lemma {:induction false} WalkFailure(g: Graph, model: Entity, dotted: string, segs: seq<string>)
    requires Walk(g, model, dotted, segs).Failure?
    ensures exists i :: 0 <= i < |segs| && MissingAt(g, model, dotted, segs, i)
    decreases |segs|
  {
    var n := |segs|;
    var init := segs[..n - 1];
    var w := Walk(g, model, dotted, init);
    if w.Failure? {
      assert Walk(g, model, dotted, segs) == w;
      WalkFailure(g, model, dotted, init);
      var i :| 0 <= i < |init| && MissingAt(g, model, dotted, init, i);
      assert init[..i] == segs[..i] && init[i] == segs[i];
      assert MissingAt(g, model, dotted, segs, i);
    } else {
      var cur := Target(model, w.value);
      assert FindEdge(Edges(g, cur), segs[n - 1]).None?;
      assert Walk(g, model, dotted, segs) == Failure(NoRelationship(segs[n - 1], cur.name, dotted, model.name));
      assert MissingAt(g, model, dotted, segs, n - 1);
    }
  }

  /**
   * Segment `i` is where the walk stops: the first `i` segments resolve, the
   * class they reach has no relationship keyed `segs[i]`, and the walk's error
   * names that segment, that class, the dotted key and the model.
   */
  ghost predicate MissingAt(g: Graph, model: Entity, dotted: string, segs: seq<string>, i: nat)
    requires i < |segs|
  {
    && Walk(g, model, dotted, segs[..i]).Success?
    && var cur := Target(model, Walk(g, model, dotted, segs[..i]).value);
    && FindEdge(Edges(g, cur), segs[i]).None?
    && Walk(g, model, dotted, segs) == Failure(NoRelationship(segs[i], cur.name, dotted, model.name))
  }

  /** Conversely, a segment missing after a resolved prefix makes the walk fail with that segment named. */
  lemma MissingSegmentFails(g: Graph, model: Entity, dotted: string, segs: seq<string>, i: nat)
    requires i < |segs| && Walk(g, model, dotted, segs[..i]).Success?
    requires FindEdge(Edges(g, Target(model, Walk(g, model, dotted, segs[..i]).value)), segs[i]).None?
    ensures MissingAt(g, model, dotted, segs, i)
  {
    assert segs[..i + 1][..i] == segs[..i];
    WalkFailurePersists(g, model, dotted, segs, i + 1);
  }
}
