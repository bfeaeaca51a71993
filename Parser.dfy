/**
 `Neo4jParser.parse`, dictionary branch: the nested loops that fill the per-column
 lists, then the pass that unwraps single list-valued columns in place.
 */
module Parser {
  import opened Wrappers
  import opened Graph
  import opened Projections
  import opened Grouping

  /** The per-column dictionary of `records`. */
  method Parse(records: seq<Record>) returns (processed: map<string, seq<Entry>>)
    ensures processed == Normalized(records)
  {
    processed := GroupColumns(records);
    processed := UnwrapColumns(processed);
  }

  /**
   The nested loops: one empty list per distinct column name, then, record by record
   and item by item, the dispatched value appended to its column's list.
   */
  method GroupColumns(data: seq<Record>) returns (processed: map<string, seq<Entry>>)
    ensures processed == Grouped(data)
  {
    var columnHeaders := Columns(data);
    processed := map key | key in columnHeaders :: [];
    GatheredStart(columnHeaders);

    var i := 0;
    while i < |data|
      invariant 0 <= i <= |data|
      invariant Gathered(processed, columnHeaders, Flatten(data[..i]))
    {
      var record := data[i];
      ghost var before := Flatten(data[..i]);
      var j := 0;
      assert before + record[..j] == before;
      while j < |record|
        invariant 0 <= j <= |record|
        invariant Gathered(processed, columnHeaders, before + record[..j])
      {
        var columnHeader, dataObject := record[j].0, record[j].1;
        FlattenMembers(data, record[j]);
        assert columnHeader in columnHeaders;

        var entry := DispatchValue(dataObject);
        GroupStep(processed, columnHeaders, before + record[..j], record[j]);
        assert (before + record[..j]) + [record[j]] == before + record[..j + 1];
        processed := processed[columnHeader := processed[columnHeader] + [entry]];
        j := j + 1;
      }
      assert record[..j] == record;
      assert data[..i + 1][..i] == data[..i];
      i := i + 1;
    }
    assert data[..i] == data;
    GatheredAll(processed, data);
  }

  /**
   The type dispatch of the inner loop: a node, relationship or path goes through its
   projection, which checks the type again and so cannot fail here; any other value,
   a nested list included, is kept as it is.
   */
  method DispatchValue(dataObject: Value) returns (entry: Entry)
    ensures entry == Dispatch(dataObject)
    ensures entry.Raw? <==> dataObject.Other?
  {
    if dataObject.NodeV? {
      entry := NodeEntry(ProcessNode(dataObject).value);
    } else if dataObject.RelV? {
      entry := RelEntry(ProcessRelationship(dataObject).value);
    } else if dataObject.PathV? {
      entry := PathEntry(ProcessPath(dataObject).value);
    } else {
      entry := Raw(dataObject);
    }
  }

  /**
   The post-pass over the keys. Both operands of the test are evaluated, so every
   column is indexed at 0, which is safe because no column is empty.
   */
  method UnwrapColumns(grouped: map<string, seq<Entry>>) returns (processed: map<string, seq<Entry>>)
    requires forall c :: c in grouped ==> |grouped[c]| > 0
    ensures processed == UnwrapAll(grouped)
  {
    processed := grouped;
    var keys := processed.Keys;
    while keys != {}
      invariant keys <= grouped.Keys
      invariant processed.Keys == grouped.Keys
      invariant forall c :: c in processed && c !in keys ==> processed[c] == Unwrap(grouped[c])
      invariant forall c :: c in keys ==> processed[c] == grouped[c]
      decreases keys
    {
      var key :| key in keys;
      var column := processed[key];
      var single := |column| == 1;
      var headIsList := IsList(column[0]);
      if single && headIsList {
        processed := processed[key := Lift(column[0].value.plain.items)];
      }
      keys := keys - {key};
    }
  }
}
