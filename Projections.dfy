/**
 The three projections of `Neo4jParser`: a node, a relationship or a path becomes a
 plain record. Each first checks the runtime type of its argument and raises a
 `ValueError` when it does not match.
 */
module Projections {
  import opened Wrappers
  import opened Graph

  /** The dictionary `{"elementId", "labels", "properties"}` built for a node. */
  datatype NodeRecord = NodeRecord(elementId: string, labels: set<string>, properties: map<string, Value>)

  /** The dictionary `{"startNode", "elementId", "type", "properties", "endNode"}` built for a relationship. */
  datatype RelRecord = RelRecord(
    startNode: NodeRecord,
    elementId: string,
    relType: string,
    properties: map<string, Value>,
    endNode: NodeRecord)

  /** The dictionary `{"startNodeElementId", "nodes", "relationships", "endNodeElementId"}` built for a path. */
  datatype PathRecord = PathRecord(
    startNodeElementId: string,
    nodes: seq<NodeRecord>,
    relationships: seq<RelRecord>,
    endNodeElementId: string)

  /** The one error the projections raise: the argument has the wrong runtime type. */
  datatype TypeError = ValueError

  /** The three node fields, as every projection copies them. */
  function NodeFields(n: Node): NodeRecord {
    NodeRecord(n.elementId, n.labels, n.props)
  }

  /** `process_node`. */
  function ProcessNode(v: Value): (r: Result<NodeRecord, TypeError>)
    ensures r.Ok? <==> v.NodeV?
    ensures r.Ok? ==>
      && r.value.elementId == v.node.elementId
      && r.value.labels == v.node.labels
      && r.value.properties == v.node.props
  {
    if v.NodeV? then Ok(NodeFields(v.node)) else Err(ValueError)
  }

  /** `process_relationship`: the endpoint records are built inline with the node fields. */
  function ProcessRelationship(v: Value): (r: Result<RelRecord, TypeError>)
    ensures r.Ok? <==> v.RelV?
    ensures r.Ok? ==>
      && r.value.elementId == v.rel.elementId
      && r.value.relType == v.rel.relType
      && r.value.properties == v.rel.props
      && Ok(r.value.startNode) == ProcessNode(NodeV(v.rel.startNode))
      && Ok(r.value.endNode) == ProcessNode(NodeV(v.rel.endNode))
  {
    if v.RelV? then
      var rel := v.rel;
      Ok(RelRecord(NodeFields(rel.startNode), rel.elementId, rel.relType, rel.props, NodeFields(rel.endNode)))
    else
      Err(ValueError)
  }

  /** `process_path`: the node and relationship lists are built by the other two projections. */
  function ProcessPath(v: Value): (r: Result<PathRecord, TypeError>)
    ensures r.Ok? <==> v.PathV?
    ensures r.Ok? ==>
      && r.value.startNodeElementId == v.path.startNode.elementId
      && r.value.endNodeElementId == v.path.endNode.elementId
      && |r.value.nodes| == |v.path.nodes|
      && (forall k :: 0 <= k < |v.path.nodes| ==> Ok(r.value.nodes[k]) == ProcessNode(NodeV(v.path.nodes[k])))
      && |r.value.relationships| == |v.path.relationships|
      && (forall k :: 0 <= k < |v.path.relationships| ==>
            Ok(r.value.relationships[k]) == ProcessRelationship(RelV(v.path.relationships[k])))
  {
    if v.PathV? then
      var p := v.path;
      var nodes := seq(|p.nodes|, k requires 0 <= k < |p.nodes| => ProcessNode(NodeV(p.nodes[k])).value);
      var rels := seq(|p.relationships|, k requires 0 <= k < |p.relationships| =>
                        ProcessRelationship(RelV(p.relationships[k])).value);
      Ok(PathRecord(p.startNode.elementId, nodes, rels, p.endNode.elementId))
    else
      Err(ValueError)
  }

  /** The node a node record was built from. */
  function NodeOfRecord(r: NodeRecord): Node {
    Node(r.elementId, r.labels, r.properties)
  }

  /** The relationship a relationship record was built from. */
  function RelationshipOfRecord(r: RelRecord): Relationship {
    Relationship(r.elementId, r.relType, r.properties, NodeOfRecord(r.startNode), NodeOfRecord(r.endNode))
  }

  /** A node's record loses nothing: the node can be read back from it. */
  lemma NodeRoundTrip(n: Node)
    ensures ProcessNode(NodeV(n)).Ok?
    ensures NodeOfRecord(ProcessNode(NodeV(n)).value) == n
  {
  }

  /**
   A relationship's record loses nothing, and its direction is kept: the relationship
   read back from the record has the same start and end nodes, in that order.
   */
  lemma RelationshipRoundTrip(rel: Relationship)
    ensures ProcessRelationship(RelV(rel)).Ok?
    ensures RelationshipOfRecord(ProcessRelationship(RelV(rel)).value) == rel
  {
  }

  /** True when relationship record `r` joins node records `a` and `b`, in either direction. */
  predicate RecordJoins(r: RelRecord, a: NodeRecord, b: NodeRecord) {
    (r.startNode == a && r.endNode == b) || (r.startNode == b && r.endNode == a)
  }

  /**
   The record of a well-formed path is itself a well-formed chain: its start and end ids
   are those of its first and last node records, and each relationship record joins the
   node records on either side of it.
   */
  lemma PathRecordChained(p: Path)
    requires WellFormedPath(p)
    ensures ProcessPath(PathV(p)).Ok?
    ensures var r := ProcessPath(PathV(p)).value;
      && |r.nodes| == |r.relationships| + 1
      && r.startNodeElementId == r.nodes[0].elementId
      && r.endNodeElementId == r.nodes[|r.nodes| - 1].elementId
      && forall i :: 0 <= i < |r.relationships| ==> RecordJoins(r.relationships[i], r.nodes[i], r.nodes[i + 1])
  {
  }
}
