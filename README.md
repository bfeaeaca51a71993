# Neo4jParser result normalizer, modelled in Dafny

`Neo4jParser` turns the results of a graph query into plain dictionaries. The results
hold nodes, relationships, paths and ordinary values. This project models its core:

- the three projections `process_node`, `process_relationship` and `process_path`. Each
  checks the runtime type of its argument, then builds a record or raises `ValueError`;
- the dictionary branch of `parse`. It flattens the records into (column, value) items
  and collects the distinct column names. It fills one list per column in nested loops,
  projecting nodes, relationships and paths and passing every other value through. A
  final pass replaces a column whose only element is a list with that list.

Layout:

- `Wrappers.dfy`: the `Result` datatype, used for the projections' error outcome.
- `Graph.dfy`: the driver's object model. `Value` is a tagged variant (`NodeV`, `RelV`,
  `PathV`, `Other`). `Other` holds every non-graph value: null, booleans, integers,
  strings, lists, maps, and an `Opaque` case for any other driver type.
- `Projections.dfy`: the records the projections build, the projections themselves, and
  lemmas that the records lose nothing and keep direction and path shape.
- `Grouping.dfy`: what `parse` computes, as functions (`Flatten`, `Columns`, `Collect`,
  `Dispatch`, `Grouped`, `Unwrap`, `Normalized`), and the lemmas about them.
- `Parser.dfy`: `parse` itself as methods with loops, proved equal to `Normalized`.

Modelling decisions:

- The relationship's `nodes[0]` and `nodes[1]` are the fields `startNode` and `endNode`.
  The path's `start_node` and `end_node` are fields of their own. `WellFormedPath` states
  the shape the driver gives a path.
- A record's `items()` is a sequence of (name, value) pairs. The source's inner
  `enumerate` walks one pair: index 0 sets `column_header` and index 1 is dispatched. The
  model reads both halves of the pair in one step.
- A column holds a sequence of `Entry`: a projected record, or `Raw(v)` for a value kept
  as it is. When a column is unwrapped, its elements are the list's own elements, each
  `Raw`. Graph objects inside that list are not projected, as in the source.
- Python's `&` at line 167 evaluates both operands. So `Unwrap` requires a non-empty
  column, and `UnwrapColumns` reads `column[0]` whatever the length. The proof that
  every gathered column is non-empty (`Grouped`, `ColumnsNonEmpty`) is what makes this safe.
- The column names come from a Python `set`, whose order is unspecified. The model keeps
  them as a `set`, and the unwrap pass picks keys in an arbitrary order.
- Zero records give an empty dictionary, not one empty list per column, because the columns
  come only from the records' items (line 135); see `NormalizedEmpty`.

## Model

| member | source | states |
|---|---|---|
| `Projections.ProcessNode` | utils/Neo4jParser.py:25-32 | Succeeds exactly on a node. Then `elementId`, `labels` and `properties` are the node's element id, label set and property map. Any other value gives the error outcome. |
| `Projections.ProcessRelationship` | utils/Neo4jParser.py:61-78 | Succeeds exactly on a relationship. It copies the relationship's own id, type and properties. `startNode` is the projection of the first endpoint and `endNode` that of the second, never swapped. Anything else is an error. |
| `Projections.ProcessPath` | utils/Neo4jParser.py:100-108 | Succeeds exactly on a path. `nodes` and `relationships` have the path's lengths, and each element is the projection of the element at the same position. The start and end ids come from the path's start and end nodes. Anything else is an error. |
| `Projections.NodeRoundTrip` | utils/Neo4jParser.py:25-30 | A node's record loses nothing: the node is recovered from it exactly. |
| `Projections.RelationshipRoundTrip` | utils/Neo4jParser.py:61-76 | A relationship's record loses nothing. The relationship read back has the same start and end nodes, in the same order. |
| `Projections.PathRecordChained` | utils/Neo4jParser.py:100-106 | For a well-formed path, the record has one more node than relationships. Its start and end ids are those of its first and last node records. Each relationship record joins its neighbouring node records. |
| `Grouping.Dispatch` | utils/Neo4jParser.py:155-162 | A node, relationship or path becomes its projection's successful result. Any other value, a nested list included, is kept unchanged and never rejected. |
| `Parser.DispatchValue` | utils/Neo4jParser.py:155-162 | The if/elif chain computes exactly `Dispatch`. Only non-graph values are kept as raw values. |
| `Grouping.Grouped` | utils/Neo4jParser.py:135-162 | Before the unwrap pass, the keys are exactly the column names that occur, and every column's list is non-empty. |
| `Grouping.Unwrap` | utils/Neo4jParser.py:166-168 | Needs a non-empty column. A column is changed only when it has exactly one element that is a list, and then it becomes that list's elements. |
| `Grouping.UnwrapAll` | utils/Neo4jParser.py:166-168 | The unwrap pass keeps the key set. |
| `Grouping.CollectSnoc` | utils/Neo4jParser.py:155-162 | One more item adds one entry to the end of its own column's list and nothing to any other column. |
| `Grouping.GatheredStart` | utils/Neo4jParser.py:137 | Each column name starts with an empty list. |
| `Grouping.GroupStep` | utils/Neo4jParser.py:155-162 | Appending the dispatched value to its column keeps every column equal to what the items so far gather. |
| `Grouping.GatheredAll` | utils/Neo4jParser.py:137-162 | After all items of all records, the per-column map is `Grouped`. |
| `Grouping.CollectAppend` | utils/Neo4jParser.py:140-162 | Gathering distributes over concatenation, so entries keep the order of their items. |
| `Grouping.CollectCount` | utils/Neo4jParser.py:140-162 | A column's list has exactly one entry per item naming that column, across all records. |
| `Grouping.CollectSound` | utils/Neo4jParser.py:155-162 | Every entry of a column is the dispatch of some value paired with that column. |
| `Grouping.CollectComplete` | utils/Neo4jParser.py:155-162 | Every value paired with a column is dispatched into that column's list: nothing is dropped. |
| `Grouping.FlattenMembers` | utils/Neo4jParser.py:133-135 | The flattened items are exactly the items of the records. |
| `Grouping.CollectNonEmpty` | utils/Neo4jParser.py:135-162 | A column that occurs in the items gets at least one entry. |
| `Grouping.ColumnsNonEmpty` | utils/Neo4jParser.py:135-167 | Every collected column name has a non-empty list, so indexing `[0]` at line 167 is safe. |
| `Grouping.NormalizedKeys` | utils/Neo4jParser.py:133-137 | A name is a key of the result exactly when some item of some record carries it. |
| `Grouping.NormalizedEmpty` | utils/Neo4jParser.py:133-137 | The result is empty exactly when no record has an item. In particular, zero records give an empty dictionary. |
| `Grouping.GroupedRecordOrder` | utils/Neo4jParser.py:140-162 | A further record appends its own entries to each column after those of all earlier records. |
| `Grouping.NormalizedUnwrap` | utils/Neo4jParser.py:166-168 | Each result column is the gathered list. The one exception is a gathered list made of a single list value, which becomes that list's elements. |
| `Grouping.SingleRecordListColumn` | utils/Neo4jParser.py:133-168 | Take one record with a node column and a list column. The node column holds the node's projection, and the list column holds the list's elements rather than a one-element list. |
| `Parser.GroupColumns` | utils/Neo4jParser.py:133-163 | The nested loops leave each column with exactly the `Grouped` list. |
| `Parser.UnwrapColumns` | utils/Neo4jParser.py:166-168 | The in-place pass over the keys computes `UnwrapAll`. It reads each column's first element without fault. |
| `Parser.Parse` | utils/Neo4jParser.py:133-173 | The dictionary `parse` returns when no table is requested equals `Normalized`. |

## Left out

- Building a pandas `DataFrame` when `return_table` is true (lines 170-171): a call into a foreign library. Only the dictionary branch (line 173) is modelled.
- The timing and metadata `print` calls and the `verbose` flag (lines 125-130): console output only.
- `simple_parse` (line 190): it only calls the driver's `record.data()`, which is not part of this model.
- The driver's internals (`element_id` stability, what `items()` returns): node, relationship and path fields are opaque values here.
- The order in which column names come out of the Python `set` (line 135): it is unspecified, so no ordering is stated over columns.
- The text of the `ValueError` messages. Line 32 names the wrong type in its message ("Relationship" for a node). Failure is modelled only as the `ValueError` outcome.
- `str(data_object)` at line 147: column names are already strings, so the conversion is the identity here.
- Aliasing: the source's unwrapped column is the very list object from the record. Dafny values have no identity, so the model keeps only its contents.
