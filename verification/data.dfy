/**
 * The loaded dataset (`graphData` in Scripts/app.js): the raw leaf-to-leaf
 * edges, the number of layers and the node mapping, which sends each leaf id
 * to its ancestor id at every layer.
 */
module Data {

  /** A raw edge between two leaves; the date is an opaque timestamp. */
  datatype RawEdge = RawEdge(source: string, target: string, date: int)

  /** One row of the node mapping: the ids at layer 1, 2, ..., in that order (index = layer - 1). */
  type Row = seq<string>

  type NodeMapping = map<string, Row>

  datatype GraphData = GraphData(bareNodeLinks: seq<RawEdge>, numberOfLayers: nat, nodeMapping: NodeMapping)

  /** `leaf` has a row that names its ancestor at every layer up to `layers`. */
  predicate Mapped(m: NodeMapping, leaf: string, layers: nat)
  {
    leaf in m && layers <= |m[leaf]|
  }

  /**
   * Every endpoint of every edge has a row naming its ancestor on each of the
   * first `layers` layers. The code never checks this; the model assumes it
   * of the loaded dataset and of every filtered edge list.
   */
  predicate EdgesMapped(m: NodeMapping, edges: seq<RawEdge>, layers: nat)
  {
    forall e :: e in edges ==> Mapped(m, e.source, layers) && Mapped(m, e.target, layers)
  }

  /** An edge mapped on `layers` layers is mapped on fewer. */
  lemma EdgesMappedFewer(m: NodeMapping, edges: seq<RawEdge>, k: nat, layers: nat)
    requires EdgesMapped(m, edges, layers) && k <= layers
    ensures EdgesMapped(m, edges, k)
  {
    forall e | e in edges ensures Mapped(m, e.source, k) && Mapped(m, e.target, k) {
      assert Mapped(m, e.source, layers) && Mapped(m, e.target, layers);
    }
  }

  predicate WellFormed(d: GraphData)
  {
    && 1 <= d.numberOfLayers
    && (forall leaf :: leaf in d.nodeMapping ==> d.numberOfLayers <= |d.nodeMapping[leaf]|)
    && EdgesMapped(d.nodeMapping, d.bareNodeLinks, d.numberOfLayers)
  }

  /** The id of the ancestor of `leaf` at `layer` (`nodeMapping.get(leaf)["layer" + layer]`). */
  function Project(m: NodeMapping, leaf: string, layer: nat): string
    requires 1 <= layer && Mapped(m, leaf, layer)
  {
    m[leaf][layer - 1]
  }

  /** `Graph.isInCluster`: the ancestor of `leaf` at the cluster's layer is the cluster. */
  predicate IsInCluster(m: NodeMapping, leaf: string, clusterName: string, clusterLayer: nat)
    requires 1 <= clusterLayer && Mapped(m, leaf, clusterLayer)
  {
    clusterName == Project(m, leaf, clusterLayer)
  }

  /** 2 to the power `k` (`Math.pow(2, k)`). */
  function Pow2(k: nat): (r: nat)
    ensures 1 <= r
    ensures 0 < k ==> 2 <= r
  {
    if k == 0 then 1 else 2 * Pow2(k - 1)
  }

  /**
   * `DataManager.initNodeMapping`: every row is stored under its deepest-layer id;
   * a later row with the same id replaces an earlier one.
   */
  method InitNodeMapping(rows: seq<Row>, numberOfLayers: nat) returns (m: NodeMapping)
    requires 1 <= numberOfLayers
    requires forall k :: 0 <= k < |rows| ==> numberOfLayers <= |rows[k]|
    ensures forall leaf :: leaf in m <==> exists k :: 0 <= k < |rows| && rows[k][numberOfLayers - 1] == leaf
    ensures forall leaf :: leaf in m ==> m[leaf] in rows && m[leaf][numberOfLayers - 1] == leaf
    ensures forall k :: 0 <= k < |rows| ==>
              (forall k' :: k < k' < |rows| ==> rows[k'][numberOfLayers - 1] != rows[k][numberOfLayers - 1]) ==>
              m[rows[k][numberOfLayers - 1]] == rows[k]
  {
    m := map[];
    var i := 0;
    while i < |rows|
      invariant 0 <= i <= |rows|
      invariant forall leaf :: leaf in m <==> exists k :: 0 <= k < i && rows[k][numberOfLayers - 1] == leaf
      invariant forall leaf :: leaf in m ==> m[leaf] in rows[..i] && m[leaf][numberOfLayers - 1] == leaf
      invariant forall k :: 0 <= k < i ==>
                  (forall k' :: k < k' < i ==> rows[k'][numberOfLayers - 1] != rows[k][numberOfLayers - 1]) ==>
                  m[rows[k][numberOfLayers - 1]] == rows[k]
    {
      m := m[rows[i][numberOfLayers - 1] := rows[i]];
      i := i + 1;
    }
  }
}
