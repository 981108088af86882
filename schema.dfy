/** The city graph's vocabulary (backend/core/graph_builder.py): the node
    and edge type codes, the fixed order of the six node features, and the
    records the generator hands to the graph builder. */
module Schema {

  /** FEATURE_KEYS: the column order of the feature matrix. */
  const FeatureKeys: seq<string> := [
    "water_consumption",
    "energy_consumption",
    "income_level",
    "emissions",
    "infrastructure_stress",
    "social_vulnerability_score"
  ]
  const NumFeatures: nat := 6

  /** FEATURE_KEYS.index(...) of each key. */
  const Water: nat := 0
  const Energy: nat := 1
  const Income: nat := 2
  const Emissions: nat := 3
  const Stress: nat := 4
  const Vulnerability: nat := 5

  /** NODE_TYPE_MAP. */
  const NodeTypeMap: map<string, nat> := map[
    "household" := 0,
    "industry" := 1,
    "reservoir" := 2,
    "transport_hub" := 3,
    "socio_economic_cluster" := 4,
    "hospital" := 5
  ]

  /** EDGE_TYPE_MAP. */
  const EdgeTypeMap: map<string, nat> := map[
    "water_pipeline" := 0,
    "road" := 1,
    "energy_grid" := 2,
    "economic_transaction" := 3
  ]

  /** The schema is consistent: six distinct feature keys, and every node
      and edge type code in range. */
  lemma SchemaShape()
    ensures |FeatureKeys| == NumFeatures
    ensures forall i, j :: 0 <= i < j < |FeatureKeys| ==> FeatureKeys[i] != FeatureKeys[j]
    ensures FeatureKeys[Water] == "water_consumption" && FeatureKeys[Energy] == "energy_consumption"
    ensures FeatureKeys[Income] == "income_level" && FeatureKeys[Emissions] == "emissions"
    ensures FeatureKeys[Stress] == "infrastructure_stress"
    ensures FeatureKeys[Vulnerability] == "social_vulnerability_score"
    ensures forall t :: t in NodeTypeMap ==> NodeTypeMap[t] < 6
    ensures forall t :: t in EdgeTypeMap ==> EdgeTypeMap[t] < 4
  {
  }

  /** An attribute value: the graph stores numbers and, for the type
      attributes, strings. */
  datatype Value = Num(num: real) | Text(text: string)

  type Attrs = map<string, Value>

  /** A node as the generator emits it: {'id', 'type', 'features'}. */
  datatype NodeSpec = NodeSpec(id: int, nodeType: string, features: map<string, real>)

  /** An edge as the generator emits it: (source, target, attributes). */
  datatype EdgeSpec = EdgeSpec(source: int, target: int, attrs: Attrs)

  type Row = seq<real>
  type Matrix = seq<Row>

  /** An N x 6 feature matrix. */
  ghost predicate IsFeatureMatrix(x: Matrix) {
    forall i :: 0 <= i < |x| ==> |x[i]| == NumFeatures
  }

  /** Every entry is at least zero. */
  ghost predicate NonNegative(x: Matrix) {
    forall i, j :: 0 <= i < |x| && 0 <= j < |x[i]| ==> x[i][j] >= 0.0
  }
}
