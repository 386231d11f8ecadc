/**
 * The order in which `SelectBuilder` processes load keys and resolved paths:
 * `build` puts dotted keys first, deepest first, then the plain keys; `_construct`
 * then moves a direct path ahead of an association path that goes through the
 * table the direct path loads.
 */
module LoadOrder {
  import opened Wrappers
  import opened Schema
  import opened Strings

  // ---------------------------------------------------------------------------
  // Ordering of load keys in `build`

  /** The keys with exactly `k` dots, in their original order. */
  function WithDots(xs: seq<string>, k: nat): seq<string> {
    if xs == [] then []
    else (if CountDots(xs[0]) == k then [xs[0]] else []) + WithDots(xs[1..], k)
  }

  /** `[load for load in loads if "." in load]` */
  function Dotted(xs: seq<string>): seq<string> {
    if xs == [] then []
    else (if CountDots(xs[0]) > 0 then [xs[0]] else []) + Dotted(xs[1..])
  }

  /** `[load for load in loads if "." not in load]` */
  function Simple(xs: seq<string>): seq<string> {
    WithDots(xs, 0)
  }

  predicate NonIncreasingDots(s: seq<string>) {
    forall i, j :: 0 <= i < j < |s| ==> CountDots(s[i]) >= CountDots(s[j])
  }

  /** Inserts `x` ahead of every key with as many dots or fewer (so `x` stays ahead of later equals). */
  function InsertByDots(x: string, s: seq<string>): seq<string> {
    if s == [] then [x]
    else if CountDots(s[0]) > CountDots(x) then [s[0]] + InsertByDots(x, s[1..])
    else [x] + s
  }

  /** `sorted(xs, key=lambda x: x.count("."), reverse=True)`: a stable sort, most dots first. */
  function SortByDots(xs: seq<string>): seq<string> {
    if xs == [] then [] else InsertByDots(xs[0], SortByDots(xs[1..]))
  }

  /**
   * The order `build` resolves loads in: `(*dotted, *simple)`, a permutation
   * of the requested loads in which dotted keys come first, most dots first,
   * and plain keys (no dots) last.
   */
  function OrderLoads(loads: seq<string>): (order: seq<string>)
    ensures multiset(order) == multiset(loads)
    ensures NonIncreasingDots(order)
  {
    SortMultiset(Dotted(loads));
    SplitMultiset(loads);
    DottedThenSimple(loads);
    SortByDots(Dotted(loads)) + Simple(loads)
  }

  lemma {:induction false} WithDotsAppend(a: seq<string>, b: seq<string>, k: nat)
    ensures WithDots(a + b, k) == WithDots(a, k) + WithDots(b, k)
  {
    if a != [] {
      assert (a + b)[0] == a[0] && (a + b)[1..] == a[1..] + b;
      WithDotsAppend(a[1..], b, k);
    } else {
      assert a + b == b;
    }
  }

  lemma {:induction false} InsertMembers(x: string, s: seq<string>)
    ensures forall y :: y in InsertByDots(x, s) ==> y == x || y in s
  {
    if s != [] && CountDots(s[0]) > CountDots(x) {
      InsertMembers(x, s[1..]);
    }
  }

  lemma ConsSorted(x: string, s: seq<string>)
    requires NonIncreasingDots(s)
    requires forall y :: y in s ==> CountDots(y) <= CountDots(x)
    ensures NonIncreasingDots([x] + s)
  {
    var r := [x] + s;
    forall i, j | 0 <= i < j < |r| ensures CountDots(r[i]) >= CountDots(r[j]) {
      assert r[j] == s[j - 1];
      if i > 0 {
        assert r[i] == s[i - 1];
      }
    }
  }

  lemma {:induction false} InsertSorted(x: string, s: seq<string>)
    requires NonIncreasingDots(s)
    ensures NonIncreasingDots(InsertByDots(x, s))
  {
    if s == [] {
    } else if CountDots(s[0]) > CountDots(x) {
      var rest := s[1..];
      assert NonIncreasingDots(rest) by {
        forall i, j | 0 <= i < j < |rest| ensures CountDots(rest[i]) >= CountDots(rest[j]) {
          assert rest[i] == s[i + 1] && rest[j] == s[j + 1];
        }
      }
      InsertSorted(x, rest);
      InsertMembers(x, rest);
      forall y | y in InsertByDots(x, rest) ensures CountDots(y) <= CountDots(s[0]) {
        if y != x {
          var j :| 0 <= j < |rest| && rest[j] == y;
          assert rest[j] == s[j + 1];
        }
      }
      ConsSorted(s[0], InsertByDots(x, rest));
    } else {
      forall y | y in s ensures CountDots(y) <= CountDots(x) {
        var j :| 0 <= j < |s| && s[j] == y;
        assert CountDots(s[0]) >= CountDots(s[j]);
      }
      ConsSorted(x, s);
    }
  }

  lemma {:induction false} InsertMultiset(x: string, s: seq<string>)
    ensures multiset(InsertByDots(x, s)) == multiset{x} + multiset(s)
  {
    if s != [] && CountDots(s[0]) > CountDots(x) {
      InsertMultiset(x, s[1..]);
      assert s == [s[0]] + s[1..];
    }
  }

  lemma {:induction false} WithDotsCons(x: string, s: seq<string>, k: nat)
    ensures WithDots([x] + s, k) == (if CountDots(x) == k then [x] else []) + WithDots(s, k)
  {
    assert ([x] + s)[0] == x && ([x] + s)[1..] == s;
  }

  lemma {:induction false} InsertWithDots(x: string, s: seq<string>, k: nat)
    ensures WithDots(InsertByDots(x, s), k) == (if CountDots(x) == k then [x] else []) + WithDots(s, k)
  {
    if s == [] {
      WithDotsCons(x, s, k);
    } else if CountDots(s[0]) > CountDots(x) {
      var rest := s[1..];
      var inserted := InsertByDots(x, rest);
      InsertWithDots(x, rest, k);
      assert InsertByDots(x, s) == [s[0]] + inserted;
      WithDotsCons(s[0], inserted, k);
      WithDotsCons(s[0], rest, k);
      assert s == [s[0]] + rest;
      if CountDots(x) == k {
        assert CountDots(s[0]) != k;
      }
    } else {
      WithDotsCons(x, s, k);
    }
  }

  lemma {:induction false} SortSorted(xs: seq<string>)
    ensures NonIncreasingDots(SortByDots(xs))
  {
    if xs != [] {
      SortSorted(xs[1..]);
      InsertSorted(xs[0], SortByDots(xs[1..]));
    }
  }

  lemma {:induction false} SortMultiset(xs: seq<string>)
    ensures multiset(SortByDots(xs)) == multiset(xs)
  {
    if xs != [] {
      SortMultiset(xs[1..]);
      InsertMultiset(xs[0], SortByDots(xs[1..]));
      assert xs == [xs[0]] + xs[1..];
    }
  }

  lemma {:induction false} SortWithDots(xs: seq<string>, k: nat)
    ensures WithDots(SortByDots(xs), k) == WithDots(xs, k)
  {
    if xs != [] {
      SortWithDots(xs[1..], k);
      InsertWithDots(xs[0], SortByDots(xs[1..]), k);
    }
  }

  lemma {:induction false} SplitMultiset(xs: seq<string>)
    ensures multiset(Dotted(xs)) + multiset(Simple(xs)) == multiset(xs)
  {
    if xs != [] {
      SplitMultiset(xs[1..]);
      assert xs == [xs[0]] + xs[1..];
    }
  }

  lemma {:induction false} DottedWithDots(xs: seq<string>, k: nat)
    ensures WithDots(Dotted(xs), k) == (if k == 0 then [] else WithDots(xs, k))
  {
    if xs != [] {
      DottedWithDots(xs[1..], k);
      var d := Dotted(xs[1..]);
      WithDotsCons(xs[0], xs[1..], k);
      assert xs == [xs[0]] + xs[1..];
      if CountDots(xs[0]) > 0 {
        assert Dotted(xs) == [xs[0]] + d;
        WithDotsCons(xs[0], d, k);
      } else {
        assert Dotted(xs) == d;
      }
    }
  }

  lemma {:induction false} DottedHaveDots(xs: seq<string>)
    ensures forall y :: y in Dotted(xs) ==> CountDots(y) > 0
  {
    if xs != [] {
      DottedHaveDots(xs[1..]);
    }
  }

  lemma {:induction false} SortMembers(xs: seq<string>)
    ensures forall y :: y in SortByDots(xs) ==> y in xs
  {
    if xs != [] {
      SortMembers(xs[1..]);
      InsertMembers(xs[0], SortByDots(xs[1..]));
    }
  }

  lemma {:induction false} SimpleHaveNoDots(xs: seq<string>)
    ensures forall y :: y in Simple(xs) ==> CountDots(y) == 0
  {
    if xs != [] {
      SimpleHaveNoDots(xs[1..]);
    }
  }

  /** Sorted dotted keys followed by the plain keys have non-increasing dot counts. */
  lemma DottedThenSimple(loads: seq<string>)
    ensures NonIncreasingDots(SortByDots(Dotted(loads)) + Simple(loads))
  {
    var d := Dotted(loads);
    var sd := SortByDots(d);
    var simple := Simple(loads);
    SortSorted(d);
    SortMembers(d);
    DottedHaveDots(loads);
    SimpleHaveNoDots(loads);
    var r := sd + simple;
    forall i, j | 0 <= i < j < |r| ensures CountDots(r[i]) >= CountDots(r[j]) {
      if j >= |sd| {
        assert r[j] == simple[j - |sd|] && r[j] in simple;
      } else {
        assert r[i] == sd[i] && r[j] == sd[j];
      }
    }
  }

  /** Keys with the same number of dots keep their input order; in particular plain keys stay in input order. */
  lemma OrderLoadsStable(loads: seq<string>, k: nat)
    ensures WithDots(OrderLoads(loads), k) == WithDots(loads, k)
  {
    SortWithDots(Dotted(loads), k);
    DottedWithDots(loads, k);
    WithDotsAppend(SortByDots(Dotted(loads)), Simple(loads), k);
    WithDotsIdempotent(loads, k);
  }

  lemma {:induction false} WithDotsIdempotent(xs: seq<string>, k: nat)
    ensures WithDots(WithDots(xs, 0), k) == (if k == 0 then WithDots(xs, 0) else [])
  {
    if xs != [] {
      WithDotsIdempotent(xs[1..], k);
      var rest := WithDots(xs[1..], 0);
      if CountDots(xs[0]) == 0 {
        assert WithDots(xs, 0) == [xs[0]] + rest;
        WithDotsCons(xs[0], rest, k);
      } else {
        assert WithDots(xs, 0) == rest;
      }
    }
  }

  // ---------------------------------------------------------------------------
  // Association-table swap in `_construct`

  /** The table a path's first hop is recorded under: its association table, else the target's table. */
  function SlotKey(path: seq<Edge>): string
    requires path != []
  {
    if path[0].secondary.Some? then path[0].secondary.value else path[0].target.table
  }

  predicate IsAssoc(path: seq<Edge>)
    requires path != []
  {
    path[0].secondary.Some?
  }

  /** An `idx` entry `[o2m, m2m]`: the last direct and the last association path index for one table. */
  datatype Slot = Slot(direct: Option<nat>, assoc: Option<nat>)

  predicate AllNonEmpty(resolved: seq<seq<Edge>>) {
    forall i :: 0 <= i < |resolved| ==> resolved[i] != []
  }

  predicate SlotBelow(s: Slot, n: nat) {
    (s.direct.Some? ==> s.direct.value < n) && (s.assoc.Some? ==> s.assoc.value < n)
  }

  /** `idx` after recording the first `n` paths. */
  function SlotsOf(resolved: seq<seq<Edge>>, n: nat): (slots: map<string, Slot>)
    requires n <= |resolved| && AllNonEmpty(resolved)
    ensures forall t :: t in slots ==> SlotBelow(slots[t], n)
  {
    if n == 0 then map[]
    else
      var m := SlotsOf(resolved, n - 1);
      var p := resolved[n - 1];
      var t := SlotKey(p);
      var e := if t in m then m[t] else Slot(None, None);
      m[t := if IsAssoc(p) then e.(assoc := Some(n - 1)) else e.(direct := Some(n - 1))]
  }

  /** Where the path at index `i` comes from after the swaps: its swap partner, or itself. */
  function SwapSource(resolved: seq<seq<Edge>>, i: nat): (j: nat)
    requires AllNonEmpty(resolved) && i < |resolved|
    ensures j < |resolved|
  {
    var t := SlotKey(resolved[i]);
    var slots := SlotsOf(resolved, |resolved|);
    if t !in slots then i
    else
      var s := slots[t];
      if s.direct == Some(i) && s.assoc.Some? && s.assoc.value < i then s.assoc.value
      else if s.assoc == Some(i) && s.direct.Some? && s.direct.value > i then s.direct.value
      else i
  }

  /** The first loop of `_construct`: `idx`, and its keys in insertion order. */
  method RecordSlots(resolved: seq<seq<Edge>>) returns (slots: map<string, Slot>, keys: seq<string>)
    requires AllNonEmpty(resolved)
    ensures slots == SlotsOf(resolved, |resolved|)
    ensures forall a, b :: 0 <= a < b < |keys| ==> keys[a] != keys[b]
    ensures forall t :: t in slots <==> t in keys
  {
    slots, keys := map[], [];
    var i := 0;
    while i < |resolved|
      invariant 0 <= i <= |resolved|
      invariant slots == SlotsOf(resolved, i)
      invariant forall a, b :: 0 <= a < b < |keys| ==> keys[a] != keys[b]
      invariant forall t :: t in slots <==> t in keys
    {
      var p := resolved[i];
      var t := SlotKey(p);
      if t !in slots {
        keys := keys + [t];
      }
      var e := if t in slots then slots[t] else Slot(None, None);
      slots := slots[t := if IsAssoc(p) then e.(assoc := Some(i)) else e.(direct := Some(i))];
      i := i + 1;
    }
  }

  /** The paths once the tables in `done` have had their swap. */
  ghost predicate SwappedFor(resolved: seq<seq<Edge>>, r: seq<seq<Edge>>, done: set<string>)
    requires AllNonEmpty(resolved)
  {
    && |r| == |resolved|
    && forall j :: 0 <= j < |r| ==> r[j] == resolved[if SlotKey(resolved[j]) in done then SwapSource(resolved, j) else j]
  }

  predicate NeedsSwap(s: Slot) {
    s.direct.Some? && s.assoc.Some? && s.direct.value > s.assoc.value
  }

  /** Processing table `t` whose pair trades places. */
  lemma SwapStep(resolved: seq<seq<Edge>>, r: seq<seq<Edge>>, done: set<string>, t: string, o: nat, m: nat)
    requires AllNonEmpty(resolved) && SwappedFor(resolved, r, done)
    requires t !in done && t in SlotsOf(resolved, |resolved|)
    requires SlotsOf(resolved, |resolved|)[t] == Slot(Some(o), Some(m)) && o > m
    ensures o < |r| && SwappedFor(resolved, r[m := r[o]][o := r[m]], done + {t})
  {
    SlotOwners(resolved, |resolved|, t);
    assert SwapSource(resolved, o) == m && SwapSource(resolved, m) == o;
    var r' := r[m := r[o]][o := r[m]];
    forall j | 0 <= j < |r'|
      ensures r'[j] == resolved[if SlotKey(resolved[j]) in done + {t} then SwapSource(resolved, j) else j]
    {
      if j != m && j != o && SlotKey(resolved[j]) == t {
        SwapSourceMoves(resolved, j);
      }
    }
  }

  /** Processing table `t` whose pair stays where it is. */
  lemma KeepStep(resolved: seq<seq<Edge>>, r: seq<seq<Edge>>, done: set<string>, t: string)
    requires AllNonEmpty(resolved) && SwappedFor(resolved, r, done)
    requires t in SlotsOf(resolved, |resolved|) && !NeedsSwap(SlotsOf(resolved, |resolved|)[t])
    ensures SwappedFor(resolved, r, done + {t})
  {
    forall j | 0 <= j < |r| && SlotKey(resolved[j]) == t
      ensures SwapSource(resolved, j) == j
    {
      SwapSourceMoves(resolved, j);
    }
  }

  /**
   * The swap step of `_construct`: `idx` records, per table, the last direct
   * and the last association path; then, table by table in first-seen order,
   * a direct path found after its association path trades places with it.
   */
  method ReorderForAssociation(resolved: seq<seq<Edge>>) returns (r: seq<seq<Edge>>)
    requires AllNonEmpty(resolved)
    ensures |r| == |resolved|
    ensures multiset(r) == multiset(resolved)
    ensures forall i :: 0 <= i < |r| ==> r[i] == resolved[SwapSource(resolved, i)]
  {
    var slots, keys := RecordSlots(resolved);
    r := resolved;
    ghost var done: set<string> := {};
    var k := 0;
    while k < |keys|
      invariant 0 <= k <= |keys|
      invariant multiset(r) == multiset(resolved)
      invariant SwappedFor(resolved, r, done)
      invariant forall x :: x in done <==> x in keys[..k]
    {
      var t := keys[k];
      assert t !in done;
      r := SwapTable(resolved, r, done, t, slots[t]);
      assert keys[..k + 1] == keys[..k] + [t];
      done := done + {t};
      k := k + 1;
    }
    assert keys[..k] == keys;
    forall j | 0 <= j < |resolved| ensures SlotKey(resolved[j]) in done {
      SlotKeyRecorded(resolved, j);
    }
    AllSwapped(resolved, r, done);
  }

  /** One turn of the second loop: the entry of table `t` swaps its two paths if the direct one comes later. */
  method SwapTable(resolved: seq<seq<Edge>>, r: seq<seq<Edge>>, ghost done: set<string>, t: string, s: Slot)
    returns (r': seq<seq<Edge>>)
    requires AllNonEmpty(resolved) && SwappedFor(resolved, r, done)
    requires t !in done && t in SlotsOf(resolved, |resolved|) && s == SlotsOf(resolved, |resolved|)[t]
    ensures multiset(r') == multiset(r)
    ensures SwappedFor(resolved, r', done + {t})
  {
    if NeedsSwap(s) {
      var o, m := s.direct.value, s.assoc.value;
      SwapStep(resolved, r, done, t, o, m);
      r' := r[m := r[o]][o := r[m]];
      SwapPreservesMultiset(r, m, o);
    } else {
      KeepStep(resolved, r, done, t);
      r' := r;
    }
  }

  lemma AllSwapped(resolved: seq<seq<Edge>>, r: seq<seq<Edge>>, done: set<string>)
    requires AllNonEmpty(resolved) && SwappedFor(resolved, r, done)
    requires forall j :: 0 <= j < |resolved| ==> SlotKey(resolved[j]) in done
    ensures forall i :: 0 <= i < |r| ==> r[i] == resolved[SwapSource(resolved, i)]
  {
  }

  lemma SwapPreservesMultiset<T>(s: seq<T>, a: nat, b: nat)
    requires a < |s| && b < |s|
    ensures multiset(s[a := s[b]][b := s[a]]) == multiset(s)
  {
    if a != b {
      var s1 := s[a := s[b]];
      assert multiset(s1) == multiset(s) - multiset{s[a]} + multiset{s[b]};
      assert s1[b] == s[b];
      assert multiset(s1[b := s[a]]) == multiset(s1) - multiset{s[b]} + multiset{s[a]};
    }
  }

  /** Every path's table is recorded. */
  lemma {:induction false} SlotKeyRecorded(resolved: seq<seq<Edge>>, j: nat)
    requires AllNonEmpty(resolved) && j < |resolved|
    ensures SlotKey(resolved[j]) in SlotsOf(resolved, |resolved|)
  {
    SlotsGrow(resolved, j + 1, |resolved|);
  }

  lemma {:induction false} SlotsGrow(resolved: seq<seq<Edge>>, a: nat, b: nat)
    requires AllNonEmpty(resolved) && 0 < a <= b <= |resolved|
    ensures SlotKey(resolved[a - 1]) in SlotsOf(resolved, b)
    decreases b - a
  {
    if a < b {
      SlotsGrow(resolved, a, b - 1);
    }
  }

  /**
   * A recorded index of table `t` is the last direct (or last association)
   * path of `t` among all paths.
   */
  lemma {:induction false} SlotIndices(resolved: seq<seq<Edge>>, t: string)
    requires AllNonEmpty(resolved)
    ensures t in SlotsOf(resolved, |resolved|) ==> var s := SlotsOf(resolved, |resolved|)[t];
      && (s.direct.Some? ==> LastOfKind(resolved, t, false, s.direct.value))
      && (s.assoc.Some? ==> LastOfKind(resolved, t, true, s.assoc.value))
  {
    SlotIndicesUpTo(resolved, t, |resolved|);
  }

  /** `i` is the last index whose path is recorded under `t` as an association path (`assoc`) or a direct one. */
  ghost predicate LastOfKind(resolved: seq<seq<Edge>>, t: string, assoc: bool, i: nat)
    requires AllNonEmpty(resolved)
  {
    && i < |resolved| && SlotKey(resolved[i]) == t && IsAssoc(resolved[i]) == assoc
    && forall j :: i < j < |resolved| ==> !(SlotKey(resolved[j]) == t && IsAssoc(resolved[j]) == assoc)
  }

  lemma {:induction false} SlotIndicesUpTo(resolved: seq<seq<Edge>>, t: string, n: nat)
    requires AllNonEmpty(resolved) && n <= |resolved|
    ensures t in SlotsOf(resolved, n) ==> var s := SlotsOf(resolved, n)[t];
      && (s.direct.Some? ==> LastBefore(resolved, t, false, s.direct.value, n))
      && (s.assoc.Some? ==> LastBefore(resolved, t, true, s.assoc.value, n))
  {
    if n > 0 {
      SlotIndicesUpTo(resolved, t, n - 1);
    }
  }

  ghost predicate LastBefore(resolved: seq<seq<Edge>>, t: string, assoc: bool, i: nat, n: nat)
    requires AllNonEmpty(resolved) && n <= |resolved|
  {
    && i < n && SlotKey(resolved[i]) == t && IsAssoc(resolved[i]) == assoc
    && forall j :: i < j < n ==> !(SlotKey(resolved[j]) == t && IsAssoc(resolved[j]) == assoc)
  }

  /** Only the recorded pair of a table with a direct path after its association path moves. */
  lemma SwapSourceMoves(resolved: seq<seq<Edge>>, j: nat)
    requires AllNonEmpty(resolved) && j < |resolved|
    ensures var t := SlotKey(resolved[j]);
      SwapSource(resolved, j) != j ==>
        var s := SlotsOf(resolved, |resolved|)[t];
        s.direct.Some? && s.assoc.Some? && s.direct.value > s.assoc.value && (j == s.direct.value || j == s.assoc.value)
  {
  }

  /**
   * After the swap, for every table recorded both ways, the direct path sits
   * at the smaller of the two indices and the association path at the larger.
   */
  lemma DirectBeforeAssociation(resolved: seq<seq<Edge>>, t: string)
    requires AllNonEmpty(resolved)
    requires t in SlotsOf(resolved, |resolved|)
    requires SlotsOf(resolved, |resolved|)[t].direct.Some? && SlotsOf(resolved, |resolved|)[t].assoc.Some?
    ensures var s := SlotsOf(resolved, |resolved|)[t];
      var o, m := s.direct.value, s.assoc.value;
      && o < |resolved| && m < |resolved|
      && SwapSource(resolved, if o < m then o else m) == o
      && SwapSource(resolved, if o < m then m else o) == m
  {
    SlotOwners(resolved, |resolved|, t);
  }

  /** Swapping twice restores: every index's source has it as its source. */
  lemma SwapSourceInvolution(resolved: seq<seq<Edge>>, i: nat)
    requires AllNonEmpty(resolved) && i < |resolved|
    ensures SwapSource(resolved, i) < |resolved|
    ensures SwapSource(resolved, SwapSource(resolved, i)) == i
  {
    SlotOwners(resolved, |resolved|, SlotKey(resolved[i]));
  }

  /** A recorded index belongs to a path of that table and of that kind. */
  lemma {:induction false} SlotOwners(resolved: seq<seq<Edge>>, n: nat, t: string)
    requires AllNonEmpty(resolved) && n <= |resolved|
    ensures t in SlotsOf(resolved, n) ==> var s := SlotsOf(resolved, n)[t];
      && (s.direct.Some? ==> SlotKey(resolved[s.direct.value]) == t && !IsAssoc(resolved[s.direct.value]))
      && (s.assoc.Some? ==> SlotKey(resolved[s.assoc.value]) == t && IsAssoc(resolved[s.assoc.value]))
  {
    if n > 0 {
      SlotOwners(resolved, n - 1, t);
    }
  }
}
