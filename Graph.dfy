/**
 The graph driver's object model as the converter sees it: nodes, relationships,
 paths, and every other value a query can return. The driver's objects are opaque
 here; only the fields the converter reads are kept.
 */
module Graph {

  /** A node: its element id (valid within one query execution), its label set and its properties. */
  datatype Node = Node(elementId: string, labels: set<string>, props: map<string, Value>)

  /**
   A relationship: its element id, its type name, its properties and its two endpoints.
   `startNode` is the driver's `nodes[0]` and `endNode` its `nodes[1]`.
   */
  datatype Relationship = Relationship(
    elementId: string,
    relType: string,
    props: map<string, Value>,
    startNode: Node,
    endNode: Node)

  /** A path: its nodes and relationships in path order and its start and end nodes. */
  datatype Path = Path(nodes: seq<Node>, relationships: seq<Relationship>, startNode: Node, endNode: Node)

  /** Any value a record can hold: the three graph types, or anything else. */
  datatype Value =
    | NodeV(node: Node)
    | RelV(rel: Relationship)
    | PathV(path: Path)
    | Other(plain: Plain)

  /**
   Values that are not graph objects; `List` is a list value, whose elements may be anything.
   `Opaque` stands for every other driver type (floats, bytes, temporal and spatial values),
   which the converter never looks inside.
   */
  datatype Plain =
    | Null
    | Bool(b: bool)
    | Int(i: int)
    | Str(s: string)
    | List(items: seq<Value>)
    | Dict(entries: map<string, Value>)
    | Opaque(tag: string)

  /** True of a list value, the one kind the unwrap pass looks for. */
  predicate IsListValue(v: Value) {
    v.Other? && v.plain.List?
  }

  /** True when relationship `r` joins `a` and `b`, in either direction. */
  predicate Joins(r: Relationship, a: Node, b: Node) {
    (r.startNode == a && r.endNode == b) || (r.startNode == b && r.endNode == a)
  }

  /**
   The shape the driver gives every path: one more node than relationships, the
   i-th relationship joining the i-th and (i+1)-th nodes, and the start and end
   nodes being the first and last nodes.
   */
  predicate WellFormedPath(p: Path) {
    && |p.nodes| == |p.relationships| + 1
    && p.startNode == p.nodes[0]
    && p.endNode == p.nodes[|p.nodes| - 1]
    && forall i :: 0 <= i < |p.relationships| ==> Joins(p.relationships[i], p.nodes[i], p.nodes[i + 1])
  }
}
