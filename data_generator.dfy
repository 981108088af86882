/** The synthetic micro-city generator (backend/core/data_generator.py).
    Node ids are handed out contiguously in a fixed type order; the edges
    follow a fixed wiring pattern whose random choices and drawn values come
    from a `RandomSource`. */
module CityGenerator {
  import opened Schema

  /** The six count parameters, in the order the source declares them. */
  datatype Counts = Counts(
    households: int,
    industries: int,
    reservoirs: int,
    hubs: int,
    clusters: int,
    hospitals: int)

  /** The source's defaults. */
  const DefaultCounts := Counts(250, 15, 1, 3, 2, 1)

  /** `range(n)` runs max(n, 0) times. */
  function Runs(n: int): nat { if n < 0 then 0 else n }

  /** How many nodes of each type are created, in creation order. */
  datatype Layout = Layout(
    reservoirs: nat,
    hospitals: nat,
    hubs: nat,
    clusters: nat,
    industries: nat,
    households: nat)
  {
    function HospitalStart(): nat { reservoirs }
    function HubStart(): nat { reservoirs + hospitals }
    function ClusterStart(): nat { reservoirs + hospitals + hubs }
    function IndustryStart(): nat { reservoirs + hospitals + hubs + clusters }
    function HouseholdStart(): nat { reservoirs + hospitals + hubs + clusters + industries }
    function Total(): nat { reservoirs + hospitals + hubs + clusters + industries + households }
  }

  function LayoutOf(c: Counts): Layout {
    Layout(Runs(c.reservoirs), Runs(c.hospitals), Runs(c.hubs),
           Runs(c.clusters), Runs(c.industries), Runs(c.households))
  }

  // ---------------------------------------------------------------------
  // Randomness: every drawn value and every choice is an input.

  /** The values the source draws from numpy distributions, one stream per
      call site, indexed by the position of the node or edge in its group. */
  datatype Draw =
    | ClusterIncome | ClusterVulnerability
    | IndustryWater | IndustryEnergy | IndustryRevenue | IndustryEmissions | IndustryStress
    | HouseholdIncome | HouseholdNoise | HouseholdWater | HouseholdEnergy
    | HouseholdEmissions | HouseholdStress
    | TransactionVolume

  /** The `random.choice` call sites. */
  datatype Pick = ClusterHub | HouseholdCluster | IndustryHub | IndustryCluster | Employer

  /** `sample(d, i)`: the i-th value drawn at site d; `pick(p, i)`: the raw
      choice at site p for the i-th member, reduced modulo the group size;
      `worksAtIndustry(i)`: whether `random.random() < 0.7` for household i. */
  datatype RandomSource = RandomSource(
    sample: (Draw, nat) -> real,
    pick: (Pick, nat) -> nat,
    worksAtIndustry: nat -> bool)

  /** `random.choice` over the contiguous id group [start, start + count). */
  function ChooseIn(start: nat, count: nat, k: nat): (r: nat)
    ensures count > 0 ==> start <= r < start + count
  {
    if count == 0 then start else start + k % count
  }

  // ---------------------------------------------------------------------
  // Node table

  /** The six node types; `Name()` is the string the node records carry. */
  datatype NodeType = Household | Industry | Reservoir | TransportHub | Cluster | Hospital
  {
    function Name(): (s: string)
      ensures s in NodeTypeMap
    {
      match this
      case Household => "household"
      case Industry => "industry"
      case Reservoir => "reservoir"
      case TransportHub => "transport_hub"
      case Cluster => "socio_economic_cluster"
      case Hospital => "hospital"
    }
  }

  /** The six base features, keyed as in FEATURE_KEYS. */
  function Features(water: real, energy: real, income: real, emissions: real,
                    stress: real, vulnerability: real): (f: map<string, real>)
    ensures forall i :: 0 <= i < |FeatureKeys| ==> FeatureKeys[i] in f
    ensures "income_level" in f && "social_vulnerability_score" in f
    ensures f["income_level"] == income && f["social_vulnerability_score"] == vulnerability
  {
    map[
      "water_consumption" := water,
      "energy_consumption" := energy,
      "income_level" := income,
      "emissions" := emissions,
      "infrastructure_stress" := stress,
      "social_vulnerability_score" := vulnerability]
  }

  const ReservoirFeatures: map<string, real> :=
    Features(0.0, 50.0, 0.0, 10.0, 0.1, 0.0)["capacity" := 10000.0]
  const HospitalFeatures: map<string, real> := Features(200.0, 500.0, 0.0, 50.0, 0.3, 0.1)
  const HubFeatures: map<string, real> := Features(50.0, 300.0, 0.0, 150.0, 0.4, 0.2)

  function MaxReal(a: real, b: real): real { if a >= b then a else b }

  /** max(0.0, min(1.0, v)). */
  function Clamp01(v: real): (r: real)
    ensures 0.0 <= r <= 1.0
    ensures 0.0 <= v <= 1.0 ==> r == v
  {
    if v < 0.0 then 0.0 else if v > 1.0 then 1.0 else v
  }

  /** Household j's income: max(10000, drawn income). */
  function HouseholdIncomeOf(rng: RandomSource, j: nat): (income: real)
    ensures income >= 10000.0
  {
    MaxReal(10000.0, rng.sample(HouseholdIncome, j))
  }

  /** Household j's vulnerability: 1 - income / 150000 plus noise, clamped to [0, 1]. */
  function HouseholdVulnerabilityOf(rng: RandomSource, j: nat): (v: real)
    ensures 0.0 <= v <= 1.0
  {
    Clamp01(1.0 - HouseholdIncomeOf(rng, j) / 150000.0 + rng.sample(HouseholdNoise, j))
  }

  /** The type of node i: reservoirs, hospitals, hubs, clusters, industries,
      households, in that order. */
  function TypeAt(l: Layout, i: nat): NodeType {
    if i < l.HospitalStart() then Reservoir
    else if i < l.HubStart() then Hospital
    else if i < l.ClusterStart() then TransportHub
    else if i < l.IndustryStart() then Cluster
    else if i < l.HouseholdStart() then Industry
    else Household
  }

  /** The base features of the j-th node of type t (the dictionaries the
      six node loops pass to add_node). */
  function NodeFeatures(t: NodeType, rng: RandomSource, j: nat): map<string, real> {
    match t
    case Reservoir => ReservoirFeatures
    case Hospital => HospitalFeatures
    case TransportHub => HubFeatures
    case Cluster =>
      Features(100.0, 200.0, rng.sample(ClusterIncome, j), 80.0, 0.2, rng.sample(ClusterVulnerability, j))
    case Industry =>
      Features(rng.sample(IndustryWater, j), rng.sample(IndustryEnergy, j), rng.sample(IndustryRevenue, j),
               rng.sample(IndustryEmissions, j), rng.sample(IndustryStress, j), 0.1)
    case Household =>
      Features(rng.sample(HouseholdWater, j), rng.sample(HouseholdEnergy, j), HouseholdIncomeOf(rng, j),
               rng.sample(HouseholdEmissions, j), rng.sample(HouseholdStress, j),
               HouseholdVulnerabilityOf(rng, j))
  }

  /** The features of node i: those of its position within its type's group. */
  function FeaturesAt(l: Layout, rng: RandomSource, i: nat): map<string, real> {
    NodeFeatures(TypeAt(l, i), rng, i - GroupBounds(l, TypeAt(l, i)).0)
  }

  function NodeAt(l: Layout, rng: RandomSource, i: nat): NodeSpec {
    NodeSpec(i, TypeAt(l, i).Name(), FeaturesAt(l, rng, i))
  }

  /** The first k nodes created. */
  function NodesUpTo(l: Layout, rng: RandomSource, k: nat): (ns: seq<NodeSpec>)
    ensures |ns| == k
    ensures forall i :: 0 <= i < k ==> ns[i] == NodeAt(l, rng, i)
  {
    seq(k, (i: nat) => NodeAt(l, rng, i))
  }

  /** The creation order of the types. */
  function Rank(t: NodeType): nat {
    match t
    case Reservoir => 0
    case Hospital => 1
    case TransportHub => 2
    case Cluster => 3
    case Industry => 4
    case Household => 5
  }

  /** The node list of a successful run: one node per unit of the six
      counts (negative counts create none), node i has id i, the types come
      in creation order, so the first reservoir has id 0, and each node's
      type string is a key of NODE_TYPE_MAP. */
  lemma NodeList(c: Counts, rng: RandomSource)
    requires Generate(c, rng).Success?
    ensures var nodes := Generate(c, rng).value.nodes;
      && |nodes| == Runs(c.households) + Runs(c.industries) + Runs(c.reservoirs)
                    + Runs(c.hubs) + Runs(c.clusters) + Runs(c.hospitals)
      && (forall i :: 0 <= i < |nodes| ==> nodes[i].id == i && nodes[i].nodeType in NodeTypeMap)
      && (forall i, j :: 0 <= i <= j < |nodes| ==> Rank(TypeAt(LayoutOf(c), i)) <= Rank(TypeAt(LayoutOf(c), j)))
      && |nodes| > 0 && nodes[0].nodeType == "reservoir"
  {
  }

  /** Every node of the generated table, as the nodes list holds them. */
  lemma NodeTable(l: Layout, rng: RandomSource, i: nat)
    requires i < l.Total()
    ensures NodesUpTo(l, rng, l.Total())[i].id == i
    ensures i < l.reservoirs ==> NodesUpTo(l, rng, l.Total())[i].nodeType == "reservoir"
    ensures l.HouseholdStart() <= i ==>
      var n := NodesUpTo(l, rng, l.Total())[i];
      var j := i - l.HouseholdStart();
      n.nodeType == "household" &&
      n.features["income_level"] == HouseholdIncomeOf(rng, j) &&
      n.features["income_level"] >= 10000.0 &&
      0.0 <= n.features["social_vulnerability_score"] <= 1.0
  {
  }

  // ---------------------------------------------------------------------
  // Node groups

  /** [lo, hi) as a list. */
  function Range(lo: nat, hi: nat): (r: seq<nat>)
    ensures |r| == if lo <= hi then hi - lo else 0
    ensures forall i :: 0 <= i < |r| ==> r[i] == lo + i
  {
    if lo < hi then seq(hi - lo, i => lo + i) else []
  }

  function Between(k: nat, lo: nat, hi: nat): nat {
    if k < lo then lo else if k > hi then hi else k
  }

  /** node_groups: the ids created so far, per type, in creation order. */
  datatype Groups = Groups(
    households: seq<nat>,
    industries: seq<nat>,
    reservoirs: seq<nat>,
    hubs: seq<nat>,
    clusters: seq<nat>,
    hospitals: seq<nat>)
  {
    /** node_groups[t] */
    function Get(t: NodeType): seq<nat> {
      match t
      case Household => households
      case Industry => industries
      case Reservoir => reservoirs
      case TransportHub => hubs
      case Cluster => clusters
      case Hospital => hospitals
    }

    /** node_groups[t].append(id) */
    function Append(t: NodeType, id: nat): (g: Groups)
      ensures g.Get(t) == Get(t) + [id]
      ensures forall u :: u != t ==> g.Get(u) == Get(u)
    {
      match t
      case Household => this.(households := households + [id])
      case Industry => this.(industries := industries + [id])
      case Reservoir => this.(reservoirs := reservoirs + [id])
      case TransportHub => this.(hubs := hubs + [id])
      case Cluster => this.(clusters := clusters + [id])
      case Hospital => this.(hospitals := hospitals + [id])
    }
  }

  const NoGroups := Groups([], [], [], [], [], [])

  /** The id range [lo, hi) of node type t. */
  function GroupBounds(l: Layout, t: NodeType): (nat, nat) {
    match t
    case Reservoir => (0, l.HospitalStart())
    case Hospital => (l.HospitalStart(), l.HubStart())
    case TransportHub => (l.HubStart(), l.ClusterStart())
    case Cluster => (l.ClusterStart(), l.IndustryStart())
    case Industry => (l.IndustryStart(), l.HouseholdStart())
    case Household => (l.HouseholdStart(), l.Total())
  }

  /** The part of type t's group that exists once k nodes were added. */
  function GroupUpTo(l: Layout, t: NodeType, k: nat): seq<nat> {
    var (lo, hi) := GroupBounds(l, t);
    Range(lo, Between(k, lo, hi))
  }

  /** node_groups after the first k nodes were added. */
  function GroupsUpTo(l: Layout, k: nat): (g: Groups)
    ensures forall t :: g.Get(t) == GroupUpTo(l, t, k)
  {
    Groups(GroupUpTo(l, Household, k), GroupUpTo(l, Industry, k), GroupUpTo(l, Reservoir, k),
           GroupUpTo(l, TransportHub, k), GroupUpTo(l, Cluster, k), GroupUpTo(l, Hospital, k))
  }

  lemma RangeSnoc(lo: nat, hi: nat)
    requires lo <= hi
    ensures Range(lo, hi) + [hi] == Range(lo, hi + 1)
  {
    assert |Range(lo, hi) + [hi]| == |Range(lo, hi + 1)|;
  }

  /** Node k joins exactly its own type's group. */
  lemma GroupUpToStep(l: Layout, t: NodeType, k: nat)
    requires k < l.Total()
    ensures GroupUpTo(l, t, k + 1) == if TypeAt(l, k) == t then GroupUpTo(l, t, k) + [k] else GroupUpTo(l, t, k)
  {
    var (lo, hi) := GroupBounds(l, t);
    if TypeAt(l, k) == t {
      assert lo <= k < hi;
      RangeSnoc(lo, k);
    } else {
      assert k < lo || hi <= k;
    }
  }

  /** Adding node k to its own group keeps the groups in step with the ids:
      each group holds exactly the ids of its type created so far. */
  lemma GroupsStep(l: Layout, k: nat)
    requires k < l.Total()
    ensures GroupsUpTo(l, k).Append(TypeAt(l, k), k) == GroupsUpTo(l, k + 1)
  {
    var g, g' := GroupsUpTo(l, k).Append(TypeAt(l, k), k), GroupsUpTo(l, k + 1);
    GroupUpToStep(l, Household, k);
    GroupUpToStep(l, Industry, k);
    GroupUpToStep(l, Reservoir, k);
    GroupUpToStep(l, TransportHub, k);
    GroupUpToStep(l, Cluster, k);
    GroupUpToStep(l, Hospital, k);
    assert g.Get(Household) == g'.Get(Household) && g.Get(Industry) == g'.Get(Industry);
    assert g.Get(Reservoir) == g'.Get(Reservoir) && g.Get(TransportHub) == g'.Get(TransportHub);
    assert g.Get(Cluster) == g'.Get(Cluster) && g.Get(Hospital) == g'.Get(Hospital);
  }

  /** Once every node exists, each group is its type's whole id range. */
  lemma GroupsComplete(l: Layout, t: NodeType)
    ensures GroupsUpTo(l, l.Total()).Get(t) == Range(GroupBounds(l, t).0, GroupBounds(l, t).1)
  {
  }

  // ---------------------------------------------------------------------
  // Edge table

  function PipeAttrs(): Attrs { map["type" := Text("water_pipeline"), "capacity" := Num(100.0)] }
  function RoadAttrs(capacity: real): Attrs { map["type" := Text("road"), "capacity" := Num(capacity)] }
  function GridAttrs(): Attrs { map["type" := Text("energy_grid"), "capacity" := Num(1000.0)] }
  function TradeAttrs(volume: real): Attrs {
    map["type" := Text("economic_transaction"), "volume" := Num(volume)]
  }

  /** The five wiring loops of the source, in the order they run. */
  datatype Wiring = Pipes | ClusterRoads | HouseholdRoads | IndustryLinks | Jobs

  /** The edges one iteration of loop w appends for the j-th member of the
      group it walks. */
  function EdgesFor(w: Wiring, l: Layout, rng: RandomSource, j: nat): seq<EdgeSpec> {
    match w
    // The reservoir (id 0) to node j, for every node but the reservoir.
    case Pipes =>
      if j == 0 then [] else [EdgeSpec(0, j, PipeAttrs())]
    // Cluster j and its randomly chosen hub, both ways.
    case ClusterRoads =>
      var c := l.ClusterStart() + j;
      var h := ChooseIn(l.HubStart(), l.hubs, rng.pick(ClusterHub, j));
      [EdgeSpec(c, h, RoadAttrs(500.0)), EdgeSpec(h, c, RoadAttrs(500.0))]
    // Household j and its randomly chosen cluster, both ways.
    case HouseholdRoads =>
      var h := l.HouseholdStart() + j;
      var c := ChooseIn(l.ClusterStart(), l.clusters, rng.pick(HouseholdCluster, j));
      [EdgeSpec(h, c, RoadAttrs(10.0)), EdgeSpec(c, h, RoadAttrs(10.0))]
    // Industry j's grid link to a hub and trade link to a cluster.
    case IndustryLinks =>
      var ind := l.IndustryStart() + j;
      var h := ChooseIn(l.HubStart(), l.hubs, rng.pick(IndustryHub, j));
      var c := ChooseIn(l.ClusterStart(), l.clusters, rng.pick(IndustryCluster, j));
      [EdgeSpec(ind, h, GridAttrs()), EdgeSpec(ind, c, TradeAttrs(rng.sample(TransactionVolume, j)))]
    // Household j's employment link, whose volume is the household's income
    // (the income_level feature of its node, by HouseholdRecord).
    case Jobs =>
      [EdgeSpec(l.HouseholdStart() + j, EmployerOf(l, rng, j), TradeAttrs(HouseholdIncomeOf(rng, j)))]
  }

  /** Household j's employer: an industry, or else a hospital or hub (the
      hospital and hub groups are adjacent id ranges). */
  function EmployerOf(l: Layout, rng: RandomSource, j: nat): nat {
    if rng.worksAtIndustry(j) then ChooseIn(l.IndustryStart(), l.industries, rng.pick(Employer, j))
    else ChooseIn(l.HospitalStart(), l.hospitals + l.hubs, rng.pick(Employer, j))
  }

  /** The edges loop w has appended after its first n iterations. */
  function Concat(w: Wiring, l: Layout, rng: RandomSource, n: nat): seq<EdgeSpec> {
    if n == 0 then [] else Concat(w, l, rng, n - 1) + EdgesFor(w, l, rng, n - 1)
  }

  lemma ConcatSnoc(w: Wiring, l: Layout, rng: RandomSource, n: nat, done: seq<EdgeSpec>)
    ensures done + Concat(w, l, rng, n + 1) == done + Concat(w, l, rng, n) + EdgesFor(w, l, rng, n)
  {
  }

  /** How many members the group walked by loop w has. */
  function Iterations(w: Wiring, l: Layout): nat {
    match w
    case Pipes => l.Total()
    case ClusterRoads => l.clusters
    case HouseholdRoads => l.households
    case IndustryLinks => l.industries
    case Jobs => l.households
  }

  function Wired(w: Wiring, l: Layout, rng: RandomSource): seq<EdgeSpec> {
    Concat(w, l, rng, Iterations(w, l))
  }

  function EdgesOf(l: Layout, rng: RandomSource): seq<EdgeSpec> {
    Wired(Pipes, l, rng) + Wired(ClusterRoads, l, rng) + Wired(HouseholdRoads, l, rng)
      + Wired(IndustryLinks, l, rng) + Wired(Jobs, l, rng)
  }

  // ---------------------------------------------------------------------
  // The whole generator

  datatype City = City(nodes: seq<NodeSpec>, edges: seq<EdgeSpec>)

  /** IndexError: `node_groups['reservoir'][0]` or a `random.choice` on an empty group. */
  datatype GenError = IndexError

  datatype Result<T> = Success(value: T) | Failure(error: GenError)

  /** Household j picks a group that happens to be empty. */
  predicate EmployerGroupEmpty(l: Layout, rng: RandomSource, j: nat) {
    if rng.worksAtIndustry(j) then l.industries == 0 else l.hospitals + l.hubs == 0
  }

  /** The runs that raise IndexError. */
  predicate Fails(l: Layout, rng: RandomSource) {
    || l.reservoirs == 0
    || (l.clusters > 0 && l.hubs == 0)
    || (l.households > 0 && l.clusters == 0)
    || (l.industries > 0 && (l.hubs == 0 || l.clusters == 0))
    || (exists j :: 0 <= j < l.households && EmployerGroupEmpty(l, rng, j))
  }

  function Generate(c: Counts, rng: RandomSource): Result<City> {
    var l := LayoutOf(c);
    if Fails(l, rng) then Failure(IndexError)
    else Success(City(NodesUpTo(l, rng, l.Total()), EdgesOf(l, rng)))
  }

  /** The groups every choice needs are non-empty. */
  predicate Supplied(c: Counts) {
    var l := LayoutOf(c);
    && l.reservoirs >= 1
    && (l.clusters > 0 || l.industries > 0 ==> l.hubs >= 1)
    && (l.households > 0 || l.industries > 0 ==> l.clusters >= 1)
    && (l.households > 0 ==> l.industries >= 1 && l.hospitals + l.hubs >= 1)
  }

  /** With every group a choice needs non-empty, generation succeeds
      whatever the random draws; without a reservoir it always fails. */
  lemma GenerateSucceeds(c: Counts, rng: RandomSource)
    ensures Supplied(c) ==> Generate(c, rng).Success?
    ensures Runs(c.reservoirs) == 0 ==> Generate(c, rng).Failure?
    ensures Runs(c.households) > 0 && Runs(c.clusters) == 0 ==> Generate(c, rng).Failure?
  {
    var l := LayoutOf(c);
    if Supplied(c) {
      forall j | 0 <= j < l.households ensures !EmployerGroupEmpty(l, rng, j) { }
    }
  }

  lemma DefaultsSupplied()
    ensures Supplied(DefaultCounts)
  {
  }

  // ---------------------------------------------------------------------
  // The generator as the source runs it

  /** add_node: the node gets the counter's value as its id, is filed in its
      type's group, and the counter moves on by one. */
  method AddNode(nodes: seq<NodeSpec>, groups: Groups, currentId: nat, t: NodeType, features: map<string, real>)
    returns (nodes': seq<NodeSpec>, groups': Groups, nextId: nat, id: nat)
    ensures id == currentId && nextId == id + 1
    ensures nodes' == nodes + [NodeSpec(id, t.Name(), features)]
    ensures groups'.Get(t) == groups.Get(t) + [id]
    ensures forall u :: u != t ==> groups'.Get(u) == groups.Get(u)
  {
    nodes' := nodes + [NodeSpec(currentId, t.Name(), features)];
    groups' := groups.Append(t, currentId);
    nextId := currentId + 1;
    id := nextId - 1;
  }

  lemma NodesSnoc(l: Layout, rng: RandomSource, k: nat)
    ensures NodesUpTo(l, rng, k) + [NodeAt(l, rng, k)] == NodesUpTo(l, rng, k + 1)
  {
    assert |NodesUpTo(l, rng, k) + [NodeAt(l, rng, k)]| == k + 1;
  }

  /** One iteration of a node loop: node k, of type t with features f,
      joins the table and its type's group. */
  lemma NodeLoopStep(l: Layout, rng: RandomSource, k: nat, t: NodeType, f: map<string, real>,
                     nodes': seq<NodeSpec>, g': Groups)
    requires k < l.Total() && TypeAt(l, k) == t && FeaturesAt(l, rng, k) == f
    requires nodes' == NodesUpTo(l, rng, k) + [NodeSpec(k, t.Name(), f)]
    requires g'.Get(t) == GroupsUpTo(l, k).Get(t) + [k]
    requires forall u :: u != t ==> g'.Get(u) == GroupsUpTo(l, k).Get(u)
    ensures nodes' == NodesUpTo(l, rng, k + 1)
    ensures g' == GroupsUpTo(l, k + 1)
  {
    NodesSnoc(l, rng, k);
    GroupsStep(l, k);
    var g := GroupsUpTo(l, k).Append(t, k);
    assert g'.Get(Household) == g.Get(Household) && g'.Get(Industry) == g.Get(Industry);
    assert g'.Get(Reservoir) == g.Get(Reservoir) && g'.Get(TransportHub) == g.Get(TransportHub);
    assert g'.Get(Cluster) == g.Get(Cluster) && g'.Get(Hospital) == g.Get(Hospital);
  }

  /** One node loop: `for _ in range(count): add_node(t, ...)`, for the
      type t whose group starts where the table currently ends. */
  method AddGroup(l: Layout, rng: RandomSource, t: NodeType, nodes: seq<NodeSpec>, groups: Groups, currentId: nat)
    returns (nodes': seq<NodeSpec>, groups': Groups, nextId: nat)
    requires currentId == GroupBounds(l, t).0 <= GroupBounds(l, t).1 <= l.Total()
    requires nodes == NodesUpTo(l, rng, currentId) && groups == GroupsUpTo(l, currentId)
    ensures nextId == GroupBounds(l, t).1
    ensures nodes' == NodesUpTo(l, rng, nextId) && groups' == GroupsUpTo(l, nextId)
  {
    var (lo, hi) := GroupBounds(l, t);
    nodes', groups', nextId := nodes, groups, currentId;
    for j := 0 to hi - lo
      invariant nextId == lo + j
      invariant nodes' == NodesUpTo(l, rng, nextId) && groups' == GroupsUpTo(l, nextId)
    {
      nodes', groups', nextId := AddMember(l, rng, t, j, nodes', groups', nextId);
    }
  }

  /** One iteration of a node loop: `add_node(t, **features)` for the j-th
      node of type t, whose id is the counter's value. */
  method AddMember(l: Layout, rng: RandomSource, t: NodeType, j: nat, nodes: seq<NodeSpec>, groups: Groups, currentId: nat)
    returns (nodes': seq<NodeSpec>, groups': Groups, nextId: nat)
    requires currentId == GroupBounds(l, t).0 + j < GroupBounds(l, t).1 <= l.Total()
    requires nodes == NodesUpTo(l, rng, currentId) && groups == GroupsUpTo(l, currentId)
    ensures nextId == currentId + 1
    ensures nodes' == NodesUpTo(l, rng, nextId) && groups' == GroupsUpTo(l, nextId)
  {
    var f := NodeFeatures(t, rng, j);
    GroupMember(l, rng, t, j);
    var id;
    nodes', groups', nextId, id := AddNode(nodes, groups, currentId, t, f);
    NodeLoopStep(l, rng, id, t, f, nodes', groups');
  }

  /** The j-th id of type t's range has type t and the features of the
      j-th draw for that type. */
  lemma GroupMember(l: Layout, rng: RandomSource, t: NodeType, j: nat)
    requires GroupBounds(l, t).0 + j < GroupBounds(l, t).1
    ensures TypeAt(l, GroupBounds(l, t).0 + j) == t
    ensures FeaturesAt(l, rng, GroupBounds(l, t).0 + j) == NodeFeatures(t, rng, j)
  {
  }

  /** The node half of generate_synthetic_city_data: one loop per type, in
      the fixed type order. */
  method GenerateNodes(l: Layout, rng: RandomSource) returns (nodes: seq<NodeSpec>, groups: Groups)
    ensures nodes == NodesUpTo(l, rng, l.Total())
    ensures CompleteGroups(l, groups)
  {
    var currentId: nat := 0;
    nodes, groups := [], NoGroups;
    assert groups == GroupsUpTo(l, 0);
    nodes, groups, currentId := AddGroup(l, rng, Reservoir, nodes, groups, currentId);
    nodes, groups, currentId := AddGroup(l, rng, Hospital, nodes, groups, currentId);
    nodes, groups, currentId := AddGroup(l, rng, TransportHub, nodes, groups, currentId);
    nodes, groups, currentId := AddGroup(l, rng, Cluster, nodes, groups, currentId);
    nodes, groups, currentId := AddGroup(l, rng, Industry, nodes, groups, currentId);
    nodes, groups, currentId := AddGroup(l, rng, Household, nodes, groups, currentId);
    forall t ensures groups.Get(t) == Range(GroupBounds(l, t).0, GroupBounds(l, t).1) {
      GroupsComplete(l, t);
    }
  }

  /** The node groups once every node exists. */
  ghost predicate CompleteGroups(l: Layout, groups: Groups) {
    forall t :: groups.Get(t) == Range(GroupBounds(l, t).0, GroupBounds(l, t).1)
  }

  /** Water pipelines: from the first reservoir to every other node. */
  method WirePipelines(l: Layout, rng: RandomSource, nodes: seq<NodeSpec>, rId: nat) returns (edges: seq<EdgeSpec>)
    requires nodes == NodesUpTo(l, rng, l.Total()) && rId == 0
    ensures edges == Wired(Pipes, l, rng)
  {
    edges := [];
    for i := 0 to |nodes|
      invariant edges == Concat(Pipes, l, rng, i)
    {
      var n := nodes[i];
      if n.id != rId {
        edges := edges + [EdgeSpec(rId, n.id, PipeAttrs())];
      }
    }
  }

  /** `random.choice(group)` over a complete group picks the id ChooseIn names. */
  lemma ChooseFromRange(lo: nat, count: nat, k: nat)
    requires count > 0
    ensures |Range(lo, lo + count)| == count
    ensures Range(lo, lo + count)[k % count] == ChooseIn(lo, count, k)
  {
  }

  /** Roads between each cluster and a random hub; false on IndexError. */
  method WireClusterRoads(l: Layout, rng: RandomSource, clusters: seq<nat>, hubs: seq<nat>, done: seq<EdgeSpec>)
    returns (ok: bool, edges: seq<EdgeSpec>)
    requires clusters == Range(l.ClusterStart(), l.IndustryStart())
    requires hubs == Range(l.HubStart(), l.ClusterStart())
    ensures ok <==> !(l.clusters > 0 && l.hubs == 0)
    ensures ok ==> edges == done + Wired(ClusterRoads, l, rng)
  {
    edges := done;
    for j := 0 to |clusters|
      invariant edges == done + Concat(ClusterRoads, l, rng, j)
      invariant j > 0 ==> l.hubs > 0
    {
      var clusterId := clusters[j];
      if |hubs| == 0 {
        return false, edges;
      }
      var k := rng.pick(ClusterHub, j);
      ChooseFromRange(l.HubStart(), l.hubs, k);
      var hubId := hubs[k % |hubs|];
      edges := edges + [EdgeSpec(clusterId, hubId, RoadAttrs(500.0)), EdgeSpec(hubId, clusterId, RoadAttrs(500.0))];
      assert edges == done + Concat(ClusterRoads, l, rng, j) + EdgesFor(ClusterRoads, l, rng, j);
    }
    return true, edges;
  }

  /** Roads between each household and a random cluster; false on IndexError. */
  method WireHouseholdRoads(l: Layout, rng: RandomSource, households: seq<nat>, clusters: seq<nat>, done: seq<EdgeSpec>)
    returns (ok: bool, edges: seq<EdgeSpec>)
    requires households == Range(l.HouseholdStart(), l.Total())
    requires clusters == Range(l.ClusterStart(), l.IndustryStart())
    ensures ok <==> !(l.households > 0 && l.clusters == 0)
    ensures ok ==> edges == done + Wired(HouseholdRoads, l, rng)
  {
    edges := done;
    for j := 0 to |households|
      invariant edges == done + Concat(HouseholdRoads, l, rng, j)
      invariant j > 0 ==> l.clusters > 0
    {
      var hhId := households[j];
      if |clusters| == 0 {
        return false, edges;
      }
      var k := rng.pick(HouseholdCluster, j);
      ChooseFromRange(l.ClusterStart(), l.clusters, k);
      var clusterId := clusters[k % |clusters|];
      edges := edges + [EdgeSpec(hhId, clusterId, RoadAttrs(10.0)), EdgeSpec(clusterId, hhId, RoadAttrs(10.0))];
      assert edges == done + Concat(HouseholdRoads, l, rng, j) + EdgesFor(HouseholdRoads, l, rng, j);
    }
    return true, edges;
  }

  /** Each industry: a grid link to a random hub, then a trade link to a
      random cluster; false on IndexError. */
  method WireIndustries(l: Layout, rng: RandomSource, industries: seq<nat>, hubs: seq<nat>, clusters: seq<nat>,
                        done: seq<EdgeSpec>)
    returns (ok: bool, edges: seq<EdgeSpec>)
    requires industries == Range(l.IndustryStart(), l.HouseholdStart())
    requires hubs == Range(l.HubStart(), l.ClusterStart())
    requires clusters == Range(l.ClusterStart(), l.IndustryStart())
    ensures ok <==> !(l.industries > 0 && (l.hubs == 0 || l.clusters == 0))
    ensures ok ==> edges == done + Wired(IndustryLinks, l, rng)
  {
    edges := done;
    for j := 0 to |industries|
      invariant edges == done + Concat(IndustryLinks, l, rng, j)
      invariant j > 0 ==> l.hubs > 0 && l.clusters > 0
    {
      var indId := industries[j];
      if |hubs| == 0 {
        return false, edges;
      }
      var kh := rng.pick(IndustryHub, j);
      ChooseFromRange(l.HubStart(), l.hubs, kh);
      var targetHub := hubs[kh % |hubs|];
      var grid := EdgeSpec(indId, targetHub, GridAttrs());
      if |clusters| == 0 {
        return false, edges + [grid];
      }
      var kc := rng.pick(IndustryCluster, j);
      ChooseFromRange(l.ClusterStart(), l.clusters, kc);
      var targetCluster := clusters[kc % |clusters|];
      edges := edges + [grid] + [EdgeSpec(indId, targetCluster, TradeAttrs(rng.sample(TransactionVolume, j)))];
      assert edges == done + Concat(IndustryLinks, l, rng, j) + EdgesFor(IndustryLinks, l, rng, j);
    }
    return true, edges;
  }

  /** The record of household j in the finished node table. */
  lemma HouseholdRecord(l: Layout, rng: RandomSource, nodes: seq<NodeSpec>, j: nat)
    requires nodes == NodesUpTo(l, rng, l.Total()) && j < l.households
    ensures l.HouseholdStart() + j < |nodes|
    ensures nodes[l.HouseholdStart() + j].features == FeaturesAt(l, rng, l.HouseholdStart() + j)
    ensures FeaturesAt(l, rng, l.HouseholdStart() + j) == NodeFeatures(Household, rng, j)
    ensures "income_level" in NodeFeatures(Household, rng, j)
    ensures NodeFeatures(Household, rng, j)["income_level"] == HouseholdIncomeOf(rng, j)
  {
  }

  /** Household j's employer: `random.choice(industries)` with probability
      0.7, else `random.choice(hospitals + hubs)`; false on IndexError. */
  method ChooseEmployer(l: Layout, rng: RandomSource, industries: seq<nat>, hospitals: seq<nat>, hubs: seq<nat>, j: nat)
    returns (found: bool, employerId: nat)
    requires industries == Range(l.IndustryStart(), l.HouseholdStart())
    requires hospitals == Range(l.HospitalStart(), l.HubStart())
    requires hubs == Range(l.HubStart(), l.ClusterStart())
    ensures found <==> !EmployerGroupEmpty(l, rng, j)
    ensures found ==> employerId == EmployerOf(l, rng, j)
  {
    var k := rng.pick(Employer, j);
    if rng.worksAtIndustry(j) {
      if |industries| == 0 {
        return false, 0;
      }
      ChooseFromRange(l.IndustryStart(), l.industries, k);
      return true, industries[k % |industries|];
    } else {
      var employers := hospitals + hubs;
      assert employers == Range(l.HospitalStart(), l.ClusterStart());
      if |employers| == 0 {
        return false, 0;
      }
      ChooseFromRange(l.HospitalStart(), l.hospitals + l.hubs, k);
      return true, employers[k % |employers|];
    }
  }

  /** One iteration of the employment loop: household j's trade link to
      its employer; false on IndexError. */
  method AddJob(l: Layout, rng: RandomSource, nodes: seq<NodeSpec>, industries: seq<nat>,
                hospitals: seq<nat>, hubs: seq<nat>, j: nat, edges: seq<EdgeSpec>)
    returns (found: bool, edges': seq<EdgeSpec>)
    requires nodes == NodesUpTo(l, rng, l.Total()) && j < l.households
    requires industries == Range(l.IndustryStart(), l.HouseholdStart())
    requires hospitals == Range(l.HospitalStart(), l.HubStart())
    requires hubs == Range(l.HubStart(), l.ClusterStart())
    ensures found <==> !EmployerGroupEmpty(l, rng, j)
    ensures found ==> edges' == edges + EdgesFor(Jobs, l, rng, j)
  {
    var hhId := l.HouseholdStart() + j;
    var employerId;
    found, employerId := ChooseEmployer(l, rng, industries, hospitals, hubs, j);
    if !found {
      return false, edges;
    }
    HouseholdRecord(l, rng, nodes, j);
    edges' := edges + [EdgeSpec(hhId, employerId, TradeAttrs(nodes[hhId].features["income_level"]))];
  }

  /** Each household: a trade link to its employer worth the household's
      income; false on IndexError. */
  method WireJobs(l: Layout, rng: RandomSource, nodes: seq<NodeSpec>, households: seq<nat>, industries: seq<nat>,
                  hospitals: seq<nat>, hubs: seq<nat>, done: seq<EdgeSpec>)
    returns (ok: bool, edges: seq<EdgeSpec>)
    requires nodes == NodesUpTo(l, rng, l.Total())
    requires households == Range(l.HouseholdStart(), l.Total())
    requires industries == Range(l.IndustryStart(), l.HouseholdStart())
    requires hospitals == Range(l.HospitalStart(), l.HubStart())
    requires hubs == Range(l.HubStart(), l.ClusterStart())
    ensures ok <==> !(exists j :: 0 <= j < l.households && EmployerGroupEmpty(l, rng, j))
    ensures ok ==> edges == done + Wired(Jobs, l, rng)
  {
    edges := done;
    for j := 0 to |households|
      invariant edges == done + Concat(Jobs, l, rng, j)
      invariant !(exists k :: 0 <= k < j && EmployerGroupEmpty(l, rng, k))
    {
      var found;
      found, edges := AddJob(l, rng, nodes, industries, hospitals, hubs, j, edges);
      if !found {
        return false, edges;
      }
      ConcatSnoc(Jobs, l, rng, j, done);
    }
    return true, edges;
  }

  /** generate_synthetic_city_data: the nodes in type order with contiguous
      ids, then the five wiring loops; IndexError when a group the run
      draws from is empty. */
  method GenerateSyntheticCityData(c: Counts, rng: RandomSource) returns (r: Result<City>)
    ensures r == Generate(c, rng)
  {
    var l := LayoutOf(c);
    var nodes, groups := GenerateNodes(l, rng);
    if |groups.reservoirs| == 0 {
      assert groups.reservoirs == groups.Get(Reservoir);
      return Failure(IndexError);
    }
    var rId := groups.reservoirs[0];
    assert rId == 0 by { assert groups.reservoirs == groups.Get(Reservoir); }
    var edges := WirePipelines(l, rng, nodes, rId);
    var ok;
    assert groups.households == groups.Get(Household) && groups.industries == groups.Get(Industry);
    assert groups.hubs == groups.Get(TransportHub) && groups.clusters == groups.Get(Cluster);
    assert groups.hospitals == groups.Get(Hospital);
    ok, edges := WireClusterRoads(l, rng, groups.clusters, groups.hubs, edges);
    if !ok {
      return Failure(IndexError);
    }
    ok, edges := WireHouseholdRoads(l, rng, groups.households, groups.clusters, edges);
    if !ok {
      return Failure(IndexError);
    }
    ok, edges := WireIndustries(l, rng, groups.industries, groups.hubs, groups.clusters, edges);
    if !ok {
      return Failure(IndexError);
    }
    ok, edges := WireJobs(l, rng, nodes, groups.households, groups.industries, groups.hospitals, groups.hubs, edges);
    if !ok {
      return Failure(IndexError);
    }
    return Success(City(nodes, edges));
  }

  // ---------------------------------------------------------------------
  // The edge pattern

  /** Edges one iteration of loop w appends (the pipeline loop appends none
      for the reservoir itself). */
  function Width(w: Wiring): nat {
    match w
    case Pipes => 1
    case Jobs => 1
    case _ => 2
  }

  /** Where loop w's edges start in the edge list. */
  function Offset(w: Wiring, l: Layout): int {
    var roads := l.Total() - 1;
    match w
    case Pipes => 0
    case ClusterRoads => roads
    case HouseholdRoads => roads + 2 * l.clusters
    case IndustryLinks => roads + 2 * l.clusters + 2 * l.households
    case Jobs => roads + 2 * l.clusters + 2 * l.households + 2 * l.industries
  }

  /** The iteration of loop w that appended its k-th edge, and the edge's
      place within that iteration. */
  function IterOf(w: Wiring, k: nat): nat {
    if w == Pipes then k + 1 else k / Width(w)
  }
  function SlotOf(w: Wiring, k: nat): nat {
    if w == Pipes then 0 else k % Width(w)
  }

  /** The position of the edge (s, t) in the edge list, read off the types
      of its two endpoints alone. */
  function Position(l: Layout, s: nat, t: nat): int {
    var ts, tt := TypeAt(l, s), TypeAt(l, t);
    if ts == Reservoir then t - 1
    else if ts == Cluster && tt == TransportHub then Offset(ClusterRoads, l) + 2 * (s - l.ClusterStart())
    else if ts == TransportHub && tt == Cluster then Offset(ClusterRoads, l) + 2 * (t - l.ClusterStart()) + 1
    else if ts == Household && tt == Cluster then Offset(HouseholdRoads, l) + 2 * (s - l.HouseholdStart())
    else if ts == Cluster && tt == Household then Offset(HouseholdRoads, l) + 2 * (t - l.HouseholdStart()) + 1
    else if ts == Industry && tt == TransportHub then Offset(IndustryLinks, l) + 2 * (s - l.IndustryStart())
    else if ts == Industry && tt == Cluster then Offset(IndustryLinks, l) + 2 * (s - l.IndustryStart()) + 1
    else if ts == Household then Offset(Jobs, l) + (s - l.HouseholdStart())
    else -1
  }

  /** An edge the graph builder can use: both endpoints are node ids, they
      differ, the type is one of EDGE_TYPE_MAP's and a weight attribute
      (capacity, or else volume) is a number. */
  predicate EdgeOk(l: Layout, e: EdgeSpec) {
    && 0 <= e.source < l.Total() && 0 <= e.target < l.Total()
    && e.source != e.target
    && "type" in e.attrs && e.attrs["type"].Text? && e.attrs["type"].text in EdgeTypeMap
    && (if "capacity" in e.attrs then e.attrs["capacity"].Num? else "volume" in e.attrs && e.attrs["volume"].Num?)
  }

  predicate IsWaterPipeline(e: EdgeSpec) {
    "type" in e.attrs && e.attrs["type"] == Text("water_pipeline")
  }

  /** What the edges of one iteration must satisfy: well formed, a water
      pipeline exactly when the loop is the pipeline loop, and placed where
      Position says. */
  ghost predicate IterationOk(w: Wiring, l: Layout, rng: RandomSource, j: nat) {
    forall s :: 0 <= s < |EdgesFor(w, l, rng, j)| ==>
      var e := EdgesFor(w, l, rng, j)[s];
      && EdgeOk(l, e)
      && (IsWaterPipeline(e) <==> w == Pipes)
      && Position(l, e.source, e.target) == (if w == Pipes then j - 1 else Offset(w, l) + Width(w) * j + s)
  }

  lemma PipeIteration(l: Layout, rng: RandomSource, j: nat)
    requires !Fails(l, rng) && 0 < j < l.Total()
    ensures IterationOk(Pipes, l, rng, j)
  {
    assert TypeAt(l, 0) == Reservoir;
  }

  lemma ClusterRoadIteration(l: Layout, rng: RandomSource, j: nat)
    requires !Fails(l, rng) && j < l.clusters
    ensures IterationOk(ClusterRoads, l, rng, j)
  {
    var c := l.ClusterStart() + j;
    var h := ChooseIn(l.HubStart(), l.hubs, rng.pick(ClusterHub, j));
    assert TypeAt(l, c) == Cluster && TypeAt(l, h) == TransportHub;
    assert EdgesFor(ClusterRoads, l, rng, j) == [EdgeSpec(c, h, RoadAttrs(500.0)), EdgeSpec(h, c, RoadAttrs(500.0))];
  }

  lemma HouseholdRoadIteration(l: Layout, rng: RandomSource, j: nat)
    requires !Fails(l, rng) && j < l.households
    ensures IterationOk(HouseholdRoads, l, rng, j)
  {
    var hh := l.HouseholdStart() + j;
    var c := ChooseIn(l.ClusterStart(), l.clusters, rng.pick(HouseholdCluster, j));
    assert TypeAt(l, hh) == Household && TypeAt(l, c) == Cluster;
    assert EdgesFor(HouseholdRoads, l, rng, j) == [EdgeSpec(hh, c, RoadAttrs(10.0)), EdgeSpec(c, hh, RoadAttrs(10.0))];
  }

  lemma IndustryIteration(l: Layout, rng: RandomSource, j: nat)
    requires !Fails(l, rng) && j < l.industries
    ensures IterationOk(IndustryLinks, l, rng, j)
  {
    var ind := l.IndustryStart() + j;
    var h := ChooseIn(l.HubStart(), l.hubs, rng.pick(IndustryHub, j));
    var c := ChooseIn(l.ClusterStart(), l.clusters, rng.pick(IndustryCluster, j));
    assert TypeAt(l, ind) == Industry && TypeAt(l, h) == TransportHub && TypeAt(l, c) == Cluster;
    assert EdgesFor(IndustryLinks, l, rng, j) ==
      [EdgeSpec(ind, h, GridAttrs()), EdgeSpec(ind, c, TradeAttrs(rng.sample(TransactionVolume, j)))];
  }

  lemma JobIteration(l: Layout, rng: RandomSource, j: nat)
    requires !Fails(l, rng) && j < l.households
    ensures IterationOk(Jobs, l, rng, j)
  {
    var hh := l.HouseholdStart() + j;
    assert !EmployerGroupEmpty(l, rng, j);
    var emp := EmployerOf(l, rng, j);
    assert TypeAt(l, hh) == Household;
    assert TypeAt(l, emp) != Cluster && TypeAt(l, emp) != Household && TypeAt(l, emp) != Reservoir;
    assert EdgesFor(Jobs, l, rng, j) == [EdgeSpec(hh, emp, TradeAttrs(HouseholdIncomeOf(rng, j)))];
  }

  /** Each edge one iteration appends is well formed, and its endpoints
      alone tell where it sits in the edge list. */
  lemma IterationEdges(w: Wiring, l: Layout, rng: RandomSource, j: nat)
    requires !Fails(l, rng) && j < Iterations(w, l)
    ensures w != Pipes || j > 0 ==> |EdgesFor(w, l, rng, j)| == Width(w)
    ensures IterationOk(w, l, rng, j)
  {
    match w
    case Pipes => if j > 0 { PipeIteration(l, rng, j); }
    case ClusterRoads => ClusterRoadIteration(l, rng, j);
    case HouseholdRoads => HouseholdRoadIteration(l, rng, j);
    case IndustryLinks => IndustryIteration(l, rng, j);
    case Jobs => JobIteration(l, rng, j);
  }

  /** The edge in slot s of iteration j of a two-ended loop is its
      (Width * j + s)-th. */
  lemma IterSlot(w: Wiring, j: nat, s: nat)
    requires w != Pipes && s < Width(w)
    ensures IterOf(w, Width(w) * j + s) == j && SlotOf(w, Width(w) * j + s) == s
  {
    if Width(w) == 2 {
      assert (2 * j + s) / 2 == j && (2 * j + s) % 2 == s;
    }
  }

  /** The k-th edge loop w appended came from iteration IterOf(w, k). */
  lemma {:induction false} ConcatAt(w: Wiring, l: Layout, rng: RandomSource, n: nat)
    ensures |Concat(w, l, rng, n)| == if w == Pipes then (if n == 0 then 0 else n - 1) else Width(w) * n
    ensures forall k :: 0 <= k < |Concat(w, l, rng, n)| ==>
      IterOf(w, k) < n && SlotOf(w, k) < |EdgesFor(w, l, rng, IterOf(w, k))| &&
      Concat(w, l, rng, n)[k] == EdgesFor(w, l, rng, IterOf(w, k))[SlotOf(w, k)]
  {
    if n > 0 {
      ConcatAt(w, l, rng, n - 1);
      var prev, last := Concat(w, l, rng, n - 1), EdgesFor(w, l, rng, n - 1);
      assert |last| == if w == Pipes && n == 1 then 0 else Width(w);
      var all := Concat(w, l, rng, n);
      assert all == prev + last;
      assert w != Pipes ==> Width(w) * n == Width(w) * (n - 1) + Width(w);
      forall k | |prev| <= k < |all|
        ensures IterOf(w, k) == n - 1 && SlotOf(w, k) == k - |prev| && all[k] == last[k - |prev|]
      {
        if w != Pipes {
          IterSlot(w, n - 1, k - |prev|);
        }
      }
      forall k | 0 <= k < |prev| ensures all[k] == prev[k] {
      }
    }
  }

  /** Every edge loop w appended is well formed, and its endpoints alone
      tell its position in the whole edge list. */
  lemma WiredEdges(w: Wiring, l: Layout, rng: RandomSource)
    requires !Fails(l, rng)
    ensures |Wired(w, l, rng)| == if w == Pipes then l.Total() - 1 else Width(w) * Iterations(w, l)
    ensures forall k :: 0 <= k < |Wired(w, l, rng)| ==>
      var e := Wired(w, l, rng)[k];
      EdgeOk(l, e) && (IsWaterPipeline(e) <==> w == Pipes) && Position(l, e.source, e.target) == Offset(w, l) + k
  {
    ConcatAt(w, l, rng, Iterations(w, l));
    forall k | 0 <= k < |Wired(w, l, rng)|
      ensures var e := Wired(w, l, rng)[k];
        EdgeOk(l, e) && (IsWaterPipeline(e) <==> w == Pipes) && Position(l, e.source, e.target) == Offset(w, l) + k
    {
      var j, s := IterOf(w, k), SlotOf(w, k);
      IterationEdges(w, l, rng, j);
      assert Wired(w, l, rng)[k] == EdgesFor(w, l, rng, j)[s];
      if w != Pipes {
        if Width(w) == 1 {
        } else {
          assert Width(w) == 2 && k == 2 * j + s;
        }
      }
    }
  }

  /** How many edges loop w appends in its first n iterations. */
  lemma {:induction false} ConcatLength(w: Wiring, l: Layout, rng: RandomSource, n: nat)
    ensures |Concat(w, l, rng, n)| == if w == Pipes then (if n == 0 then 0 else n - 1) else Width(w) * n
  {
    if n > 0 {
      ConcatLength(w, l, rng, n - 1);
    }
  }

  /** How many edges loop w appends in all. */
  function Count(w: Wiring, l: Layout): int {
    match w
    case Pipes => l.Total() - 1
    case ClusterRoads => 2 * l.clusters
    case HouseholdRoads => 2 * l.households
    case IndustryLinks => 2 * l.industries
    case Jobs => l.households
  }

  lemma WiredLength(w: Wiring, l: Layout, rng: RandomSource)
    requires l.Total() > 0
    ensures |Wired(w, l, rng)| == Count(w, l)
  {
    ConcatLength(w, l, rng, Iterations(w, l));
  }

  /** A property of each element of five concatenated sequences, stated
      with the element's position in the whole, holds of the whole. */
  lemma PiecewiseAll<T>(whole: seq<T>, a: seq<T>, b: seq<T>, c: seq<T>, d: seq<T>, e: seq<T>, P: (T, int) -> bool)
    requires whole == a + b + c + d + e
    requires forall k :: 0 <= k < |a| ==> P(a[k], k)
    requires forall k :: 0 <= k < |b| ==> P(b[k], |a| + k)
    requires forall k :: 0 <= k < |c| ==> P(c[k], |a| + |b| + k)
    requires forall k :: 0 <= k < |d| ==> P(d[k], |a| + |b| + |c| + k)
    requires forall k :: 0 <= k < |e| ==> P(e[k], |a| + |b| + |c| + |d| + k)
    ensures forall i :: 0 <= i < |whole| ==> P(whole[i], i)
  {
    forall i | 0 <= i < |whole| ensures P(whole[i], i) {
      if i < |a| {
        assert whole[i] == a[i];
      } else if i < |a| + |b| {
        assert whole[i] == b[i - |a|];
      } else if i < |a| + |b| + |c| {
        assert whole[i] == c[i - |a| - |b|];
      } else if i < |a| + |b| + |c| + |d| {
        assert whole[i] == d[i - |a| - |b| - |c|];
      } else {
        assert whole[i] == e[i - |a| - |b| - |c| - |d|];
      }
    }
  }

  /** The last of two concatenated sequences, read at its place in the whole. */
  lemma LastPiece<T>(whole: seq<T>, front: seq<T>, last: seq<T>, k: nat)
    requires whole == front + last && k < |last|
    ensures |front| + k < |whole| && whole[|front| + k] == last[k]
  {
  }

  /** The edge count: (N - 1) + 2C + 2H + 2I + H. */
  lemma EdgeCount(l: Layout, rng: RandomSource)
    requires l.Total() > 0
    ensures |Wired(Pipes, l, rng)| == Count(Pipes, l) && |Wired(ClusterRoads, l, rng)| == Count(ClusterRoads, l)
    ensures |Wired(HouseholdRoads, l, rng)| == Count(HouseholdRoads, l)
    ensures |Wired(IndustryLinks, l, rng)| == Count(IndustryLinks, l) && |Wired(Jobs, l, rng)| == Count(Jobs, l)
    ensures |EdgesOf(l, rng)| == Offset(Jobs, l) + l.households
  {
    WiredLength(Pipes, l, rng);
    WiredLength(ClusterRoads, l, rng);
    WiredLength(HouseholdRoads, l, rng);
    WiredLength(IndustryLinks, l, rng);
    WiredLength(Jobs, l, rng);
  }

  /** The pipeline loop's k-th edge runs from the reservoir to node k + 1. */
  lemma PipeEdges(l: Layout, rng: RandomSource)
    ensures forall k :: 0 <= k < |Wired(Pipes, l, rng)| ==> Wired(Pipes, l, rng)[k] == EdgeSpec(0, k + 1, PipeAttrs())
  {
    ConcatAt(Pipes, l, rng, Iterations(Pipes, l));
  }

  /** Every edge is well formed, exactly the first N - 1 are water
      pipelines and run from the reservoir to nodes 1..N-1, and each edge's
      endpoints determine its position. */
  lemma AllEdges(l: Layout, rng: RandomSource)
    requires !Fails(l, rng)
    ensures forall p :: 0 <= p < |EdgesOf(l, rng)| ==>
      var e := EdgesOf(l, rng)[p];
      && EdgeOk(l, e) && (IsWaterPipeline(e) <==> p < l.Total() - 1) && Position(l, e.source, e.target) == p
      && (p < l.Total() - 1 ==> e.source == 0 && e.target == p + 1)
  {
    EdgeCount(l, rng);
    PipeEdges(l, rng);
    WiredEdges(Pipes, l, rng);
    WiredEdges(ClusterRoads, l, rng);
    WiredEdges(HouseholdRoads, l, rng);
    WiredEdges(IndustryLinks, l, rng);
    WiredEdges(Jobs, l, rng);
    var P := (e: EdgeSpec, p: int) =>
      && EdgeOk(l, e) && (IsWaterPipeline(e) <==> p < l.Total() - 1) && Position(l, e.source, e.target) == p
      && (p < l.Total() - 1 ==> e.source == 0 && e.target == p + 1);
    PiecewiseAll(EdgesOf(l, rng), Wired(Pipes, l, rng), Wired(ClusterRoads, l, rng), Wired(HouseholdRoads, l, rng),
      Wired(IndustryLinks, l, rng), Wired(Jobs, l, rng), P);
  }

  /** The edge list of a successful run: (N - 1) + 2C + 2H + 2I + H edges
      (a pipeline to every node but the reservoir, a road pair per cluster
      and per household, a grid and a trade link per industry, an
      employment link per household). Every endpoint is a node id, no edge
      is a self-loop, every type is in EDGE_TYPE_MAP, the first N - 1 edges
      run from node 0 to nodes 1..N-1 and are the only water pipelines, and
      no (source, target) pair occurs twice. */
  lemma EdgePattern(c: Counts, rng: RandomSource)
    requires Generate(c, rng).Success?
    ensures var l, es := LayoutOf(c), Generate(c, rng).value.edges;
      && |es| == (l.Total() - 1) + 2 * l.clusters + 3 * l.households + 2 * l.industries
      && (forall p :: 0 <= p < |es| ==> EdgeOk(l, es[p]))
      && (forall p :: 0 <= p < |es| ==> (IsWaterPipeline(es[p]) <==> p < l.Total() - 1))
      && (forall p :: 0 <= p < l.Total() - 1 ==> es[p].source == 0 && es[p].target == p + 1)
      && (forall p, q :: 0 <= p < q < |es| ==> (es[p].source, es[p].target) != (es[q].source, es[q].target))
  {
    var l := LayoutOf(c);
    AllEdges(l, rng);
    EdgeCount(l, rng);
  }

  /** Household j's employer is an industry, a hospital or a hub. */
  lemma EmployerType(l: Layout, rng: RandomSource, j: nat)
    requires !EmployerGroupEmpty(l, rng, j)
    ensures EmployerOf(l, rng, j) < l.Total()
    ensures TypeAt(l, EmployerOf(l, rng, j)) in {Industry, Hospital, TransportHub}
  {
  }

  /** The employment loop's j-th edge. */
  lemma JobEdge(l: Layout, rng: RandomSource, j: nat)
    requires !Fails(l, rng) && j < l.households
    ensures j < |Wired(Jobs, l, rng)|
    ensures Wired(Jobs, l, rng)[j] ==
      EdgeSpec(l.HouseholdStart() + j, EmployerOf(l, rng, j), TradeAttrs(HouseholdIncomeOf(rng, j)))
  {
    ConcatAt(Jobs, l, rng, l.households);
    assert IterOf(Jobs, j) == j && SlotOf(Jobs, j) == 0;
  }

  /** Household j's employment edge carries the household's own income,
      which is at least 10000, and ends at an industry, hospital or hub. */
  lemma JobEdges(l: Layout, rng: RandomSource, j: nat)
    requires !Fails(l, rng) && j < l.households
    ensures var nodes, edges := NodesUpTo(l, rng, l.Total()), EdgesOf(l, rng);
      var hh := l.HouseholdStart() + j;
      && Offset(Jobs, l) + j < |edges| && hh < |nodes|
      && var e := edges[Offset(Jobs, l) + j];
      && e.source == hh
      && nodes[hh].nodeType == "household"
      && "income_level" in nodes[hh].features && "volume" in e.attrs
      && e.attrs["volume"] == Num(nodes[hh].features["income_level"])
      && nodes[hh].features["income_level"] >= 10000.0
      && 0 <= e.target < l.Total()
      && TypeAt(l, e.target) in {Industry, Hospital, TransportHub}
  {
    EdgeCount(l, rng);
    LastPiece(EdgesOf(l, rng), Wired(Pipes, l, rng) + Wired(ClusterRoads, l, rng) + Wired(HouseholdRoads, l, rng)
      + Wired(IndustryLinks, l, rng), Wired(Jobs, l, rng), j);
    JobEdge(l, rng, j);
    var hh := l.HouseholdStart() + j;
    NodeTable(l, rng, hh);
    HouseholdRecord(l, rng, NodesUpTo(l, rng, l.Total()), j);
    EmployerType(l, rng, j);
    var e := EdgesOf(l, rng)[Offset(Jobs, l) + j];
    assert e == Wired(Jobs, l, rng)[j];
  }
}
