/**
 * `frozendict`: an immutable mapping that remembers key insertion order (as a
 * Python dict does), compares by contents and hashes by its set of items.
 * `order` is the iteration order and `items` the contents.
 */
module FrozenDicts {
  import opened Wrappers

  datatype FrozenDict<K, V> = FrozenDict(order: seq<K>, items: map<K, V>)

  datatype KeyError = KeyError

  /** Each key is iterated exactly once and iteration covers exactly the stored keys. */
  ghost predicate Valid<K, V>(fd: FrozenDict<K, V>) {
    && (forall i, j :: 0 <= i < j < |fd.order| ==> fd.order[i] != fd.order[j])
    && fd.items.Keys == set i | 0 <= i < |fd.order| :: fd.order[i]
  }

  ghost function KeysOf<K, V>(pairs: seq<(K, V)>): set<K> {
    set p | p in pairs :: p.0
  }

  /** The contents after inserting `pairs` left to right: a later value for a key replaces an earlier one. */
  function MapOf<K, V>(pairs: seq<(K, V)>): (m: map<K, V>)
    ensures m.Keys == KeysOf(pairs)
  {
    if pairs == [] then map[]
    else
      var init := pairs[..|pairs| - 1];
      assert pairs == init + [pairs[|pairs| - 1]];
      MapOf(init)[pairs[|pairs| - 1].0 := pairs[|pairs| - 1].1]
  }

  /** The insertion order: a key keeps the position of its first insertion. */
  function OrderOf<K(==), V>(pairs: seq<(K, V)>): (order: seq<K>)
    ensures forall i, j :: 0 <= i < j < |order| ==> order[i] != order[j]
    ensures (set i | 0 <= i < |order| :: order[i]) == KeysOf(pairs)
  {
    if pairs == [] then []
    else
      var init := pairs[..|pairs| - 1];
      var prev := OrderOf(init);
      var k := pairs[|pairs| - 1].0;
      assert pairs == init + [pairs[|pairs| - 1]];
      var order := if k in MapOf(init) then prev else prev + [k];
      assert (set i | 0 <= i < |order| :: order[i]) == KeysOf(init) + {k} by {
        if k !in MapOf(init) {
          assert forall i :: 0 <= i < |prev| ==> order[i] == prev[i];
          assert order[|prev|] == k;
        }
      }
      order
  }

  /** `dict(pairs)`, frozen. */
  function FromPairs<K, V>(pairs: seq<(K, V)>): (fd: FrozenDict<K, V>)
    ensures Valid(fd)
    ensures fd.items.Keys == KeysOf(pairs)
  {
    FrozenDict(OrderOf(pairs), MapOf(pairs))
  }

  /** `frozendict(*args, **kwargs)`: positional pairs first, keyword pairs override. */
  function Construct<K, V>(args: seq<(K, V)>, kwargs: seq<(K, V)>): (fd: FrozenDict<K, V>)
    ensures Valid(fd)
    ensures fd.items.Keys == KeysOf(args) + KeysOf(kwargs)
  {
    assert KeysOf(args + kwargs) == KeysOf(args) + KeysOf(kwargs);
    FromPairs(args + kwargs)
  }

  /** `fd[key]`, raising KeyError for a missing key. */
  function Get<K, V>(fd: FrozenDict<K, V>, key: K): (r: Result<V, KeyError>)
    ensures r.Success? <==> key in fd.items
    ensures r.Success? ==> r.value == fd.items[key]
  {
    if key in fd.items then Success(fd.items[key]) else Failure(KeyError)
  }

  /** `key in fd`: holds exactly for the keys a lookup finds. */
  predicate Contains<K, V>(fd: FrozenDict<K, V>, key: K)
    ensures Contains(fd, key) <==> Get(fd, key).Success?
  {
    key in fd.items
  }

  /** `len(fd)`: the number of stored keys, which is the number of keys iteration yields. */
  function Len<K, V>(fd: FrozenDict<K, V>): (n: nat)
    ensures Valid(fd) ==> n == |fd.order|
  {
    ValidCard(fd);
    |fd.items|
  }

  /** A well-formed frozendict stores as many keys as its order lists. */
  lemma ValidCard<K, V>(fd: FrozenDict<K, V>)
    ensures Valid(fd) ==> |fd.items| == |fd.order|
  {
    if Valid(fd) {
      DistinctSeqCard(fd.order);
      assert fd.items.Keys == set k | k in fd.order;
    }
  }

  /** `iter(fd)`: keys in insertion order, each stored key exactly once. */
  function Iter<K, V>(fd: FrozenDict<K, V>): (ks: seq<K>)
    ensures Valid(fd) ==> forall i, j :: 0 <= i < j < |ks| ==> ks[i] != ks[j]
    ensures Valid(fd) ==> (forall i :: 0 <= i < |ks| ==> ks[i] in fd.items) && (forall k :: k in fd.items ==> k in ks)
  {
    fd.order
  }

  /** The pairs of `fd` in iteration order, which is what `dict(fd)` consumes. */
  function Items<K, V>(fd: FrozenDict<K, V>): (r: seq<(K, V)>)
    requires forall i :: 0 <= i < |fd.order| ==> fd.order[i] in fd.items
    ensures |r| == |fd.order|
    ensures forall i :: 0 <= i < |r| ==> r[i] == (fd.order[i], fd.items[fd.order[i]])
  {
    seq(|fd.order|, i requires 0 <= i < |fd.order| => (fd.order[i], fd.items[fd.order[i]]))
  }

  /** `fd.copy(**kw)`: a new frozendict built from `fd` then `kw`; `fd` itself is a value and stays as it is. */
  function Copy<K, V>(fd: FrozenDict<K, V>, kw: seq<(K, V)>): (r: FrozenDict<K, V>)
    requires Valid(fd)
    ensures Valid(r)
  {
    Construct(Items(fd), kw)
  }

  /**
   * The right operand of `fd.__eq__`: a frozendict, a dict, or anything else
   * (`Other`), which covers every operand that is neither.
   */
  datatype Operand<K, V> = AFrozenDict(fd: FrozenDict<K, V>) | ADict(d: map<K, V>) | Other

  datatype Comparison = Equal(result: bool) | NotImplemented

  /**
   * `fd.__eq__(other)`: contents compared against a frozendict or a dict, key
   * by key and whatever the insertion order; anything else is not implemented.
   */
  function Eq<K, V(==)>(fd: FrozenDict<K, V>, other: Operand<K, V>): (c: Comparison)
    ensures c.NotImplemented? <==> other.Other?
    ensures other.AFrozenDict? ==>
      (c == Equal(true) <==> fd.items.Keys == other.fd.items.Keys && forall k :: k in fd.items ==> fd.items[k] == other.fd.items[k])
    ensures other.ADict? ==>
      (c == Equal(true) <==> fd.items.Keys == other.d.Keys && forall k :: k in fd.items ==> fd.items[k] == other.d[k])
  {
    match other
    case AFrozenDict(o) => Equal(fd.items == o.items)
    case ADict(d) => Equal(fd.items == d)
    case Other => NotImplemented
  }

  /**
   * `__eq__`'s own answer is True. A NotImplemented answer counts as unequal:
   * that is what `==` gives unless the other operand's reflected `__eq__`
   * answers, which is outside this module.
   */
  predicate PyEquals<K, V(==)>(fd: FrozenDict<K, V>, other: Operand<K, V>) {
    Eq(fd, other) == Equal(true)
  }

  /** What `__hash__` hashes: the frozenset of the items, independent of insertion order. */
  function HashInput<K, V(==)>(fd: FrozenDict<K, V>): (h: set<(K, V)>)
    ensures forall p :: p in h ==> p.0 in fd.items && fd.items[p.0] == p.1
    ensures forall k :: k in fd.items ==> (k, fd.items[k]) in h
  {
    set k | k in fd.items :: (k, fd.items[k])
  }

  // ---------------------------------------------------------------------------
  // Properties

  /** Lookup after construction returns the value of the LAST pair with that key. */
  lemma {:induction false} FromPairsLookup<K, V>(pairs: seq<(K, V)>, i: nat)
    requires i < |pairs|
    requires forall j :: i < j < |pairs| ==> pairs[j].0 != pairs[i].0
    ensures Get(FromPairs(pairs), pairs[i].0) == Success(pairs[i].1)
  {
    var n := |pairs|;
    var init := pairs[..n - 1];
    FromPairsSnoc(pairs);
    if i < n - 1 {
      assert init[i] == pairs[i];
      FromPairsLookup(init, i);
      assert pairs[n - 1].0 != pairs[i].0;
    }
  }

  /** `key in fd` holds exactly for the keys some constructing pair supplied. */
  lemma ContainsConstructed<K, V>(pairs: seq<(K, V)>, key: K)
    ensures Contains(FromPairs(pairs), key) <==> exists i :: 0 <= i < |pairs| && pairs[i].0 == key
  {
  }

  /** `len` counts distinct keys, and iteration yields each key once. */
  lemma {:induction false} LenCountsDistinctKeys<K, V>(fd: FrozenDict<K, V>)
    requires Valid(fd)
    ensures Len(fd) == |Iter(fd)|
    ensures forall i, j :: 0 <= i < j < |Iter(fd)| ==> Iter(fd)[i] != Iter(fd)[j]
  {
    DistinctSeqCard(fd.order);
    assert fd.items.Keys == set k | k in fd.order;
  }

  lemma {:induction false} DistinctSeqCard<K>(s: seq<K>)
    requires forall i, j :: 0 <= i < j < |s| ==> s[i] != s[j]
    ensures |set k | k in s| == |s|
  {
    if s != [] {
      var t := s[..|s| - 1];
      DistinctSeqCard(t);
      assert (set k | k in s) == (set k | k in t) + {s[|s| - 1]};
      assert s[|s| - 1] !in (set k | k in t);
    }
  }

  /** Building from two pair lists in turn is overriding the first map by the second. */
  lemma {:induction false} FromPairsAppend<K, V>(a: seq<(K, V)>, b: seq<(K, V)>)
    ensures FromPairs(a + b).items == FromPairs(a).items + FromPairs(b).items
    decreases |b|
  {
    if b == [] {
      assert a + b == a;
    } else {
      var n := |b|;
      var ab := a + b;
      var last := b[n - 1];
      assert ab[..|ab| - 1] == a + b[..n - 1];
      assert ab[|ab| - 1] == last;
      FromPairsAppend(a, b[..n - 1]);
      FromPairsSnoc(ab);
      FromPairsSnoc(b);
      UnionUpdate(FromPairs(a).items, FromPairs(b[..n - 1]).items, last.0, last.1);
    }
  }

  /** The last pair is applied on top of the others. */
  lemma FromPairsSnoc<K, V>(pairs: seq<(K, V)>)
    requires pairs != []
    ensures FromPairs(pairs).items == FromPairs(pairs[..|pairs| - 1]).items[pairs[|pairs| - 1].0 := pairs[|pairs| - 1].1]
  {
  }

  lemma UnionUpdate<K, V>(x: map<K, V>, y: map<K, V>, k: K, v: V)
    ensures (x + y)[k := v] == x + y[k := v]
  {
  }

  /** Rebuilding a valid frozendict from its own items gives the same contents. */
  lemma {:induction false} FromItemsRoundTrip<K, V>(fd: FrozenDict<K, V>)
    requires Valid(fd)
    ensures FromPairs(Items(fd)).items == fd.items
  {
    ItemsKeys(fd);
    var m := FromPairs(Items(fd)).items;
    forall k | k in m ensures m[k] == fd.items[k] {
      var i :| 0 <= i < |fd.order| && fd.order[i] == k;
      ItemLookup(fd, i);
    }
  }

  /** The pair for the `i`-th key is the last one with that key, so rebuilding keeps its value. */
  lemma ItemLookup<K, V>(fd: FrozenDict<K, V>, i: nat)
    requires Valid(fd) && i < |fd.order|
    ensures fd.order[i] in fd.items
    ensures Get(FromPairs(Items(fd)), fd.order[i]) == Success(fd.items[fd.order[i]])
  {
    var its := Items(fd);
    assert fd.order[i] in fd.items;
    assert its[i] == (fd.order[i], fd.items[fd.order[i]]);
    forall j | i < j < |its| ensures its[j].0 != its[i].0 {
      assert its[j].0 == fd.order[j];
    }
    FromPairsLookup(its, i);
  }

  lemma ItemsKeys<K, V>(fd: FrozenDict<K, V>)
    requires Valid(fd)
    ensures KeysOf(Items(fd)) == fd.items.Keys
  {
    var its := Items(fd);
    forall k | k in fd.items ensures k in KeysOf(its) {
      var i :| 0 <= i < |fd.order| && fd.order[i] == k;
      assert its[i] in its;
    }
  }

  /** `copy(**kw)` equals the original overridden by `kw`. */
  lemma CopyOverrides<K, V>(fd: FrozenDict<K, V>, kw: seq<(K, V)>)
    requires Valid(fd)
    ensures Copy(fd, kw).items == fd.items + FromPairs(kw).items
  {
    FromPairsAppend(Items(fd), kw);
    FromItemsRoundTrip(fd);
  }

  /** Equality is pointwise agreement of lookups, whatever the insertion orders. */
  lemma EqualIffSameLookups<K, V>(a: FrozenDict<K, V>, b: FrozenDict<K, V>)
    ensures PyEquals(a, AFrozenDict(b)) <==> forall k :: Get(a, k) == Get(b, k)
  {
    if forall k :: Get(a, k) == Get(b, k) {
      assert a.items.Keys == b.items.Keys by {
        forall k ensures k in a.items <==> k in b.items {
          assert Get(a, k) == Get(b, k);
        }
      }
      forall k | k in a.items ensures a.items[k] == b.items[k] {
        assert Get(a, k) == Get(b, k);
      }
    }
  }

  /** `__eq__` answers True for a plain dict with the same contents, and never for an operand that is neither a dict nor a frozendict. */
  lemma EqualsPlainDict<K, V>(fd: FrozenDict<K, V>)
    ensures PyEquals(fd, ADict(fd.items))
    ensures !PyEquals(fd, Other)
  {
  }

  /** Equal frozendicts hash alike, and equal hash inputs mean equal contents. */
  lemma {:induction false} HashMatchesEquality<K, V>(a: FrozenDict<K, V>, b: FrozenDict<K, V>)
    ensures PyEquals(a, AFrozenDict(b)) <==> HashInput(a) == HashInput(b)
  {
    if HashInput(a) == HashInput(b) {
      forall k | k in a.items ensures k in b.items && b.items[k] == a.items[k] {
        assert (k, a.items[k]) in HashInput(b);
      }
      forall k | k in b.items ensures k in a.items {
        assert (k, b.items[k]) in HashInput(a);
      }
    }
  }
}
