/**
 * Table-level helpers: the table name and first primary-key column of a mapped
 * class, and the traversal that lists the table names a query selects from.
 */
module Tools {
  import opened Wrappers
  import opened Schema

  datatype ToolError =
    | NoTableName(entity: string)  // ValueError("Cannot determine tablename for ...")
    | NoPrimaryKey(entity: string) // `next` on an empty primary key raises StopIteration

  /** `_get_table_name`: `__tablename__` when the class declares it, else the table's description; an empty result is an error. */
  function TableName(e: Entity): (r: Result<string, ToolError>)
    ensures r.Success? <==> (if e.tablename.Some? then e.tablename.value else e.table) != ""
    ensures r.Success? && e.tablename.Some? ==> r.value == e.tablename.value
    ensures r.Success? && e.tablename.None? ==> r.value == e.table
    ensures r.Failure? ==> r.error == NoTableName(e.name)
  {
    var result := e.tablename.GetOr(e.table);
    if result == "" then Failure(NoTableName(e.name)) else Success(result)
  }

  /** `_get_primary_key`: the first primary-key column of the class's table. */
  function PrimaryKey(e: Entity): (r: Result<string, ToolError>)
    ensures r.Success? <==> |e.primaryKey| > 0
    ensures r.Success? ==> r.value == e.primaryKey[0] && r.value in e.primaryKey
    ensures r.Failure? ==> r.error == NoPrimaryKey(e.name)
  {
    if |e.primaryKey| == 0 then Failure(NoPrimaryKey(e.name)) else Success(e.primaryKey[0])
  }

  /**
   * A FROM-clause tree: a table, a join of two clauses, or any other
   * selectable (alias, lateral, subquery) with an optional name and an optional
   * wrapped `element`.
   */
  datatype FromClause =
    | Table(name: string)
    | Join(left: FromClause, right: FromClause)
    | Named(wrapperName: Option<string>, element: Option<FromClause>)

  function Size(f: FromClause): (n: nat)
    ensures n >= 1
  {
    match f
    case Table(_) => 1
    case Join(l, r) => 1 + Size(l) + Size(r)
    case Named(_, e) => if e.Some? then 1 + Size(e.value) else 1
  }

  function StackSize(stack: seq<FromClause>): nat {
    if stack == [] then 0 else StackSize(stack[..|stack| - 1]) + Size(stack[|stack| - 1])
  }

  /**
   * The names offered to `add`, in the order a stack visits the tree: the
   * right side of a join is pushed last and so popped first, and a named
   * node offers its own name before its element is popped.
   */
  function Offers(f: FromClause): seq<Option<string>> {
    match f
    case Table(n) => [Some(n)]
    case Join(l, r) => Offers(r) + Offers(l)
    case Named(n, e) => [n] + (if e.Some? then Offers(e.value) else [])
  }

  /** What the remaining stack will offer, top (last element) first. */
  function StackOffers(stack: seq<FromClause>): seq<Option<string>> {
    if stack == [] then [] else Offers(stack[|stack| - 1]) + StackOffers(stack[..|stack| - 1])
  }

  /** What a list of roots offers, processed in order. */
  function RootsOffers(roots: seq<FromClause>): seq<Option<string>> {
    if roots == [] then [] else Offers(roots[0]) + RootsOffers(roots[1..])
  }

  /** `add(name)`: appends a name that is present, non-empty and not yet output. */
  function AddName(out: seq<string>, n: Option<string>): seq<string> {
    if n.Some? && n.value != "" && n.value !in out then out + [n.value] else out
  }

  /** Offering names one after the other. */
  function AddAll(out: seq<string>, offers: seq<Option<string>>): seq<string>
    decreases |offers|
  {
    if offers == [] then out else AddAll(AddName(out, offers[0]), offers[1..])
  }

  /** `get_table_names(query)` over the query's final FROM roots. */
  method GetTableNames(roots: seq<FromClause>) returns (out: seq<string>)
    ensures out == AddAll([], RootsOffers(roots))
  {
    var seen: set<string> := {};
    out := [];
    var i := 0;
    while i < |roots|
      invariant 0 <= i <= |roots|
      invariant seen == set x | x in out
      invariant AddAll(out, RootsOffers(roots[i..])) == AddAll([], RootsOffers(roots))
    {
      assert roots[i..][1..] == roots[i + 1..];
      AddAllAppend(out, Offers(roots[i]), RootsOffers(roots[i + 1..]));
      out, seen := Drain(out, seen, roots[i]);
      i := i + 1;
    }
    assert roots[i..] == [];
  }

  /** The `while stack` loop for one root: pop a node, add its name or push its children. */
  method Drain(out0: seq<string>, seen0: set<string>, root: FromClause) returns (out: seq<string>, seen: set<string>)
    requires seen0 == set x | x in out0
    ensures seen == set x | x in out
    ensures out == AddAll(out0, Offers(root))
  {
    out, seen := out0, seen0;
    var stack := [root];
    assert stack[..0] == [];
    assert StackOffers(stack) == Offers(root) + [];
    assert Offers(root) + [] == Offers(root);
    while stack != []
      invariant seen == set x | x in out
      invariant AddAll(out, StackOffers(stack)) == AddAll(out0, Offers(root))
      decreases StackSize(stack)
    {
      var node := stack[|stack| - 1];
      var rest := stack[..|stack| - 1];
      assert stack == rest + [node];
      StackPush(rest, node);
      PopStep(rest, node);
      AddAllAppend(out, Emitted(node), StackOffers(Push(rest, node)));
      match node {
        case Table(n) =>
          AddAllOne(out, Some(n));
          out, seen := Add(out, seen, Some(n));
        case Join(_, _) =>
        case Named(n, _) =>
          AddAllOne(out, n);
          out, seen := Add(out, seen, n);
      }
      stack := Push(rest, node);
    }
  }

  /** What popping `node` adds by itself: a table's name, a wrapper's name, nothing for a join. */
  function Emitted(node: FromClause): seq<Option<string>> {
    match node
    case Table(n) => [Some(n)]
    case Join(_, _) => []
    case Named(n, _) => [n]
  }

  /** The stack after popping `node` off the top: a join pushes left then right, a wrapper its element. */
  function Push(rest: seq<FromClause>, node: FromClause): seq<FromClause> {
    match node
    case Table(_) => rest
    case Join(l, r) => rest + [l, r]
    case Named(_, e) => if e.Some? then rest + [e.value] else rest
  }

  /** Popping one node preserves what the stack still offers and shrinks it. */
  lemma PopStep(rest: seq<FromClause>, node: FromClause)
    ensures Offers(node) + StackOffers(rest) == Emitted(node) + StackOffers(Push(rest, node))
    ensures StackSize(Push(rest, node)) < StackSize(rest) + Size(node)
  {
    match node
    case Table(n) =>
    case Join(l, r) => PopJoin(rest, l, r);
    case Named(n, e) => PopNamed(rest, n, e);
  }

  lemma PopJoin(rest: seq<FromClause>, l: FromClause, r: FromClause)
    ensures Offers(Join(l, r)) + StackOffers(rest) == StackOffers(rest + [l, r])
    ensures StackSize(rest + [l, r]) == StackSize(rest) + Size(l) + Size(r)
  {
    StackPush(rest, l);
    StackPush(rest + [l], r);
    assert rest + [l, r] == rest + [l] + [r];
    assert Offers(Join(l, r)) == Offers(r) + Offers(l);
  }

  lemma PopNamed(rest: seq<FromClause>, n: Option<string>, e: Option<FromClause>)
    ensures Offers(Named(n, e)) + StackOffers(rest) == Emitted(Named(n, e)) + StackOffers(Push(rest, Named(n, e)))
    ensures StackSize(Push(rest, Named(n, e))) < StackSize(rest) + Size(Named(n, e))
  {
    if e.Some? {
      StackPush(rest, e.value);
      assert Offers(Named(n, e)) == [n] + Offers(e.value);
    }
  }

  lemma AddAllOne(out: seq<string>, o: Option<string>)
    ensures AddAll(out, [o]) == AddName(out, o)
  {
    assert [o][1..] == [];
  }

  lemma StackPush(rest: seq<FromClause>, f: FromClause)
    ensures StackOffers(rest + [f]) == Offers(f) + StackOffers(rest)
    ensures StackSize(rest + [f]) == StackSize(rest) + Size(f)
  {
    assert (rest + [f])[..|rest|] == rest;
  }

  /** The body of `add`, on the output list and its companion `seen` set. */
  method Add(out: seq<string>, seen: set<string>, n: Option<string>) returns (out': seq<string>, seen': set<string>)
    requires seen == set x | x in out
    ensures out' == AddName(out, n)
    ensures seen' == set x | x in out'
  {
    out', seen' := out, seen;
    if n.Some? && n.value != "" && n.value !in seen {
      seen' := seen + {n.value};
      out' := out + [n.value];
    }
  }

  // ---------------------------------------------------------------------------
  // Properties of the traversal

  lemma {:induction false} AddAllAppend(out: seq<string>, a: seq<Option<string>>, b: seq<Option<string>>)
    ensures AddAll(out, a + b) == AddAll(AddAll(out, a), b)
    decreases |a|
  {
    if a == [] {
      assert a + b == b;
    } else {
      assert (a + b)[0] == a[0];
      assert (a + b)[1..] == a[1..] + b;
      AddAllAppend(AddName(out, a[0]), a[1..], b);
    }
  }

  predicate NoDuplicates(s: seq<string>) {
    forall i, j :: 0 <= i < j < |s| ==> s[i] != s[j]
  }

  /** Offering names keeps earlier output in place, adds each name once and never adds an empty or missing one. */
  lemma {:induction false} AddAllShape(out: seq<string>, offers: seq<Option<string>>)
    requires NoDuplicates(out) && "" !in out
    ensures NoDuplicates(AddAll(out, offers)) && "" !in AddAll(out, offers)
    ensures out <= AddAll(out, offers)
    ensures forall x :: x in AddAll(out, offers) <==> x in out || (x != "" && Some(x) in offers)
    decreases |offers|
  {
    if offers != [] {
      var next := AddName(out, offers[0]);
      AddAllShape(next, offers[1..]);
      assert forall x :: Some(x) in offers <==> Some(x) == offers[0] || Some(x) in offers[1..];
    }
  }

  /** `get_table_names` lists each name once and never an empty or missing one. */
  lemma TableNamesDistinctNonEmpty(roots: seq<FromClause>)
    ensures NoDuplicates(AddAll([], RootsOffers(roots)))
    ensures "" !in AddAll([], RootsOffers(roots))
  {
    AddAllShape([], RootsOffers(roots));
  }

  /** A name is listed exactly when some visited node offers it and it is non-empty. */
  lemma TableNamesMembership(roots: seq<FromClause>, x: string)
    ensures x in AddAll([], RootsOffers(roots)) <==> x != "" && Some(x) in RootsOffers(roots)
  {
    AddAllShape([], RootsOffers(roots));
  }

  /** Names of the tables reachable through join sides and wrapped elements. */
  function TablesIn(f: FromClause): set<string> {
    match f
    case Table(n) => {n}
    case Join(l, r) => TablesIn(l) + TablesIn(r)
    case Named(_, e) => if e.Some? then TablesIn(e.value) else {}
  }

  /** Names carried by named wrappers (aliases, laterals, subqueries). */
  function LabelsIn(f: FromClause): set<string> {
    match f
    case Table(_) => {}
    case Join(l, r) => LabelsIn(l) + LabelsIn(r)
    case Named(n, e) => (if n.Some? then {n.value} else {}) + (if e.Some? then LabelsIn(e.value) else {})
  }

  function RootsTables(roots: seq<FromClause>): set<string> {
    if roots == [] then {} else TablesIn(roots[0]) + RootsTables(roots[1..])
  }

  function RootsLabels(roots: seq<FromClause>): set<string> {
    if roots == [] then {} else LabelsIn(roots[0]) + RootsLabels(roots[1..])
  }

  /** What one tree offers: exactly its table names and wrapper labels (a join offers nothing of its own). */
  lemma {:induction false} OffersAreTablesAndLabels(f: FromClause, x: string)
    ensures Some(x) in Offers(f) <==> x in TablesIn(f) || x in LabelsIn(f)
  {
    match f
    case Table(_) =>
    case Join(l, r) =>
      OffersAreTablesAndLabels(l, x);
      OffersAreTablesAndLabels(r, x);
    case Named(n, e) =>
      if e.Some? {
        OffersAreTablesAndLabels(e.value, x);
      }
  }

  lemma {:induction false} RootsOffersAreTablesAndLabels(roots: seq<FromClause>, x: string)
    ensures Some(x) in RootsOffers(roots) <==> x in RootsTables(roots) || x in RootsLabels(roots)
  {
    if roots != [] {
      OffersAreTablesAndLabels(roots[0], x);
      RootsOffersAreTablesAndLabels(roots[1..], x);
    }
  }

  /**
   * Coverage: every non-empty table name reachable from a root is listed, so is
   * every non-empty wrapper name, and nothing else is.
   */
  lemma TableNamesCoverage(roots: seq<FromClause>, x: string)
    ensures x in AddAll([], RootsOffers(roots)) <==> x != "" && (x in RootsTables(roots) || x in RootsLabels(roots))
  {
    TableNamesMembership(roots, x);
    RootsOffersAreTablesAndLabels(roots, x);
  }

  /** A named wrapper contributes its own name before any of the names inside it. */
  lemma WrapperNameFirst(n: string, inner: FromClause)
    requires n != ""
    ensures |AddAll([], Offers(Named(Some(n), Some(inner))))| > 0
    ensures AddAll([], Offers(Named(Some(n), Some(inner))))[0] == n
  {
    var o := Offers(Named(Some(n), Some(inner)));
    assert o[0] == Some(n) && o[1..] == Offers(inner);
    assert AddName([], o[0]) == [n];
    AddAllShape([n], Offers(inner));
  }

  /** Of a join, the right side's names come first. */
  lemma JoinRightFirst(l: FromClause, r: FromClause)
    ensures AddAll([], Offers(Join(l, r))) == AddAll(AddAll([], Offers(r)), Offers(l))
  {
    AddAllAppend([], Offers(r), Offers(l));
  }
}
