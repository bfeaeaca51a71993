/**
 What `Neo4jParser.parse` computes, as functions: the records are flattened into
 (column, value) pairs, the pairs of each column are gathered in record order with
 every graph value projected, and a column holding one list value is replaced by
 that list.
 */
module Grouping {
  import opened Wrappers
  import opened Graph
  import opened Projections

  /** One element of a column: a projected graph object, or a value passed through unchanged. */
  datatype Entry =
    | NodeEntry(node: NodeRecord)
    | RelEntry(rel: RelRecord)
    | PathEntry(path: PathRecord)
    | Raw(value: Value)

  /** One (column name, value) item of a record. */
  type Pair = (string, Value)

  /** A record's items, in the order the driver gives them. */
  type Record = seq<Pair>

  /** The type dispatch applied to each value: graph objects are projected, everything else kept. */
  function Dispatch(v: Value): (e: Entry)
    ensures e.NodeEntry? <==> v.NodeV?
    ensures e.RelEntry? <==> v.RelV?
    ensures e.PathEntry? <==> v.PathV?
    ensures e.NodeEntry? ==> ProcessNode(v) == Ok(e.node)
    ensures e.RelEntry? ==> ProcessRelationship(v) == Ok(e.rel)
    ensures e.PathEntry? ==> ProcessPath(v) == Ok(e.path)
    ensures v.Other? ==> e == Raw(v)
  {
    match v
    case NodeV(_) => NodeEntry(ProcessNode(v).value)
    case RelV(_) => RelEntry(ProcessRelationship(v).value)
    case PathV(_) => PathEntry(ProcessPath(v).value)
    case Other(_) => Raw(v)
  }

  /** All pairs of all records, record after record, each record's pairs in order. */
  function Flatten(records: seq<Record>): seq<Pair> {
    if records == [] then [] else Flatten(records[..|records| - 1]) + records[|records| - 1]
  }

  /** The distinct column names of all records. */
  function Columns(records: seq<Record>): set<string> {
    set p | p in Flatten(records) :: p.0
  }

  /** The entries gathered for column `c` from `pairs`, in order. */
  function Collect(pairs: seq<Pair>, c: string): seq<Entry> {
    if pairs == [] then []
    else
      var last := pairs[|pairs| - 1];
      Collect(pairs[..|pairs| - 1], c) + if last.0 == c then [Dispatch(last.1)] else []
  }

  /** The column names of `pairs`, with repetitions, in order. */
  function Names(pairs: seq<Pair>): seq<string> {
    seq(|pairs|, k requires 0 <= k < |pairs| => pairs[k].0)
  }

  /** The per-column lists before the unwrap pass; every column has at least one entry. */
  function Grouped(records: seq<Record>): (g: map<string, seq<Entry>>)
    ensures g.Keys == Columns(records)
    ensures forall c :: c in g ==> |g[c]| > 0
  {
    ColumnsNonEmpty(records);
    map c | c in Columns(records) :: Collect(Flatten(records), c)
  }

  /** A column's elements once unwrapped: the list's own elements, not projected. */
  function Lift(items: seq<Value>): (es: seq<Entry>)
    ensures |es| == |items|
    ensures forall k :: 0 <= k < |items| ==> es[k] == Raw(items[k])
  {
    seq(|items|, k requires 0 <= k < |items| => Raw(items[k]))
  }

  /** True of an entry that is a list value passed through unchanged. */
  predicate IsList(e: Entry) {
    e.Raw? && IsListValue(e.value)
  }

  /**
   The unwrap rule for one column. The source tests both the length and the first
   element without short-circuiting, so the column must not be empty.
   */
  function Unwrap(col: seq<Entry>): (r: seq<Entry>)
    requires |col| > 0
    ensures r != col ==> |col| == 1 && IsList(col[0])
    ensures |col| == 1 && IsList(col[0]) ==> r == Lift(col[0].value.plain.items)
  {
    var single := |col| == 1;
    var headIsList := IsList(col[0]);
    if single && headIsList then Lift(col[0].value.plain.items) else col
  }

  /** The unwrap rule applied to every column; the keys stay the same. */
  function UnwrapAll(g: map<string, seq<Entry>>): (r: map<string, seq<Entry>>)
    requires forall c :: c in g ==> |g[c]| > 0
    ensures r.Keys == g.Keys
  {
    map c | c in g :: Unwrap(g[c])
  }

  /** The dictionary `parse` returns when no table is asked for. */
  function Normalized(records: seq<Record>): map<string, seq<Entry>> {
    UnwrapAll(Grouped(records))
  }

  // ---------------------------------------------------------------- lemmas

  /** Adding one pair at the end adds at most one entry, at the end of its own column. */
  lemma CollectSnoc(pairs: seq<Pair>, p: Pair, c: string)
    ensures Collect(pairs + [p], c) == Collect(pairs, c) + if p.0 == c then [Dispatch(p.1)] else []
  {
  }

  /** `m` has one list per name in `keys`, each holding what `pairs` gathers for it. */
  predicate Gathered(m: map<string, seq<Entry>>, keys: set<string>, pairs: seq<Pair>) {
    && m.Keys == keys
    && forall c :: c in m ==> m[c] == Collect(pairs, c)
  }

  /** Before any pair is seen, every column holds the empty list. */
  lemma GatheredStart(keys: set<string>)
    ensures Gathered(map c | c in keys :: [], keys, [])
  {
  }

  /** Appending the dispatch of one more pair to its own column keeps every column gathered. */
  lemma GroupStep(m: map<string, seq<Entry>>, keys: set<string>, pairs: seq<Pair>, p: Pair)
    requires Gathered(m, keys, pairs)
    requires p.0 in keys
    ensures Gathered(m[p.0 := m[p.0] + [Dispatch(p.1)]], keys, pairs + [p])
  {
  }

  /** Once all pairs of all records are gathered under all column names, the map is `Grouped`. */
  lemma GatheredAll(m: map<string, seq<Entry>>, records: seq<Record>)
    requires Gathered(m, Columns(records), Flatten(records))
    ensures m == Grouped(records)
  {
  }

  /** Gathering distributes over concatenation: entries keep the order of their pairs. */
  lemma {:induction false} CollectAppend(a: seq<Pair>, b: seq<Pair>, c: string)
    ensures Collect(a + b, c) == Collect(a, c) + Collect(b, c)
  {
    if b == [] {
      assert a + b == a;
    } else {
      var init := b[..|b| - 1];
      var last := b[|b| - 1];
      assert b == init + [last];
      assert a + b == (a + init) + [last];
      CollectAppend(a, init, c);
      CollectSnoc(a + init, last, c);
      CollectSnoc(init, last, c);
    }
  }

  /** A column gets exactly one entry per pair that names it. */
  lemma {:induction false} CollectCount(pairs: seq<Pair>, c: string)
    ensures |Collect(pairs, c)| == multiset(Names(pairs))[c]
  {
    if pairs != [] {
      var init := pairs[..|pairs| - 1];
      CollectCount(init, c);
      assert Names(pairs) == Names(init) + [pairs[|pairs| - 1].0];
    }
  }

  /** Every entry of a column is the dispatch of some value paired with that column. */
  lemma {:induction false} CollectSound(pairs: seq<Pair>, c: string, e: Entry)
    requires e in Collect(pairs, c)
    ensures exists v :: (c, v) in pairs && e == Dispatch(v)
  {
    var init := pairs[..|pairs| - 1];
    var last := pairs[|pairs| - 1];
    if e in Collect(init, c) {
      CollectSound(init, c, e);
      var v :| (c, v) in init && e == Dispatch(v);
      assert (c, v) in pairs;
    } else {
      assert last.0 == c && e == Dispatch(last.1);
      assert (c, last.1) == last;
    }
  }

  /** Every value paired with a column is dispatched into that column: nothing is dropped. */
  lemma {:induction false} CollectComplete(pairs: seq<Pair>, c: string, v: Value)
    requires (c, v) in pairs
    ensures Dispatch(v) in Collect(pairs, c)
  {
    var init := pairs[..|pairs| - 1];
    if pairs[|pairs| - 1] != (c, v) {
      assert (c, v) in init;
      CollectComplete(init, c, v);
    }
  }

  /** The pairs of the flattened records are exactly the items of the records. */
  lemma {:induction false} FlattenMembers(records: seq<Record>, p: Pair)
    ensures p in Flatten(records) <==>
      exists i, j :: 0 <= i < |records| && 0 <= j < |records[i]| && records[i][j] == p
  {
    if records != [] {
      var init := records[..|records| - 1];
      var n := |records| - 1;
      FlattenMembers(init, p);
      if p in Flatten(records) {
        if p in Flatten(init) {
          var i, j :| 0 <= i < |init| && 0 <= j < |init[i]| && init[i][j] == p;
          assert records[i][j] == p;
        } else {
          var j :| 0 <= j < |records[n]| && records[n][j] == p;
        }
      }
      if exists i, j :: 0 <= i < |records| && 0 <= j < |records[i]| && records[i][j] == p {
        var i, j :| 0 <= i < |records| && 0 <= j < |records[i]| && records[i][j] == p;
        if i < n {
          assert init[i][j] == p;
        } else {
          assert p in records[n];
        }
      }
    }
  }

  /** A column that occurs in `pairs` gets at least one entry. */
  lemma {:induction false} CollectNonEmpty(pairs: seq<Pair>, p: Pair)
    requires p in pairs
    ensures |Collect(pairs, p.0)| > 0
  {
    var init := pairs[..|pairs| - 1];
    if pairs[|pairs| - 1] != p {
      assert p in init;
      CollectNonEmpty(init, p);
    }
  }

  /** Every column has at least one entry before the unwrap pass. */
  lemma ColumnsNonEmpty(records: seq<Record>)
    ensures forall c :: c in Columns(records) ==> |Collect(Flatten(records), c)| > 0
  {
    forall c | c in Columns(records)
      ensures |Collect(Flatten(records), c)| > 0
    {
      var p :| p in Flatten(records) && p.0 == c;
      CollectNonEmpty(Flatten(records), p);
    }
  }

  /** The result's keys are exactly the column names that occur in some record. */
  lemma NormalizedKeys(records: seq<Record>, c: string)
    ensures c in Normalized(records) <==>
      exists i, j :: 0 <= i < |records| && 0 <= j < |records[i]| && records[i][j].0 == c
  {
    if c in Normalized(records) {
      var p :| p in Flatten(records) && p.0 == c;
      FlattenMembers(records, p);
    }
    if exists i, j :: 0 <= i < |records| && 0 <= j < |records[i]| && records[i][j].0 == c {
      var i, j :| 0 <= i < |records| && 0 <= j < |records[i]| && records[i][j].0 == c;
      FlattenMembers(records, records[i][j]);
      assert records[i][j] in Flatten(records);
    }
  }

  /**
   The dictionary is empty exactly when no record has an item; in particular zero
   records give an empty dictionary, not one empty list per column.
   */
  lemma NormalizedEmpty(records: seq<Record>)
    ensures Normalized(records) == map[] <==> forall i :: 0 <= i < |records| ==> records[i] == []
  {
    if Normalized(records) == map[] {
      forall i | 0 <= i < |records|
        ensures records[i] == []
      {
        if records[i] != [] {
          NormalizedKeys(records, records[i][0].0);
        }
      }
    } else {
      var c :| c in Normalized(records);
      NormalizedKeys(records, c);
    }
  }

  /** A further record appends its own entries to each column, after those of the earlier records. */
  lemma GroupedRecordOrder(records: seq<Record>, rec: Record, c: string)
    ensures Collect(Flatten(records + [rec]), c) == Collect(Flatten(records), c) + Collect(rec, c)
  {
    assert (records + [rec])[..|records|] == records;
    CollectAppend(Flatten(records), rec, c);
  }

  /**
   The unwrap pass keeps the key set, replaces a column holding a single list by that
   list's elements, and leaves every other column as it was gathered.
   */
  lemma NormalizedUnwrap(records: seq<Record>, c: string)
    requires c in Columns(records)
    ensures c in Normalized(records)
    ensures var col := Collect(Flatten(records), c);
      Normalized(records)[c] == if |col| == 1 && IsList(col[0]) then Lift(col[0].value.plain.items) else col
  {
  }

  /**
   A single record with a node column and a list column: the node is projected, and the
   list column holds the list's own elements rather than a one-element list.
   */
  lemma SingleRecordListColumn(n: Node, items: seq<Value>)
    ensures Normalized([[("a", NodeV(n)), ("b", Other(List(items)))]]) ==
      map["a" := [NodeEntry(NodeFields(n))], "b" := Lift(items)]
  {
    var records: seq<Record> := [[("a", NodeV(n)), ("b", Other(List(items)))]];
    var pairs := records[0];
    assert records[..0] == [];
    assert Flatten(records) == pairs;
    assert pairs == [("a", NodeV(n))] + [("b", Other(List(items)))];
    CollectSnoc([("a", NodeV(n))], ("b", Other(List(items))), "a");
    CollectSnoc([("a", NodeV(n))], ("b", Other(List(items))), "b");
    CollectSnoc([], ("a", NodeV(n)), "a");
    CollectSnoc([], ("a", NodeV(n)), "b");
    assert Columns(records) == {"a", "b"};
    assert Collect(pairs, "a") == [NodeEntry(NodeFields(n))];
    assert Collect(pairs, "b") == [Raw(Other(List(items)))];
  }
}
