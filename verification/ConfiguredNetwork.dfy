/**
  From the configuration to the packets: the documents made for the nodes of a
  configured tree, set up uplinks first, give a network in which every packet
  arrives.
 */
module ConfiguredNetwork {
  import opened Uplinks
  import opened JsonTree
  import opened ConfigModel
  import opened ConfigInvariant
  import opened Commits
  import opened Expansion
  import opened Kernel
  import opened Setup
  import opened Undo
  import CP = ConnectPlan
  import opened Fabric
  import opened FabricSetup
  import opened FabricConfig
  import opened Forwarding

  /** Each node's document is the expansion of its component. */
  ghost predicate DocumentsOf(tree: Tree, order: seq<Name>, docs: seq<Json>)
  {
    |docs| == |order| && forall i | 0 <= i < |order| :: IsExpansion(tree, Net(tree, order[i]), docs[i])
  }

  ghost predicate Planned(doc: Json)
  {
    doc.Obj? && CP.PlanOf(doc.fields).Some?
  }

  /** What the daemons of these nodes, given these documents, set up. */
  ghost function ReadPlans(order: seq<Name>, docs: seq<Json>): seq<(Name, Plan)>
    requires |docs| == |order| && forall i | 0 <= i < |docs| :: Planned(docs[i])
  {
    seq(|order|, i requires 0 <= i < |order| && Planned(docs[i]) => (order[i], CP.PlanOf(docs[i].fields).value))
  }

  lemma {:induction false} ReadPlansAre(tree: Tree, f: Fabric, rank: Rank, order: seq<Name>, docs: seq<Json>)
    requires Good(tree) && Configured(tree, f) && Sound(f, rank) && DocumentsOf(tree, order, docs)
    requires forall i | 0 <= i < |order| :: order[i] in f.nodes
    ensures forall i | 0 <= i < |docs| :: Planned(docs[i])
    ensures ReadPlans(order, docs) == Plans(f, rank, order)
  {
    hide Good, Configured, Sound, CP.PlanOf, PlanFor, IsExpansion;
    forall i | 0 <= i < |docs| ensures Planned(docs[i]) && CP.PlanOf(docs[i].fields).value == PlanFor(f, rank, order[i]) {
      DocumentPlan(tree, f, rank, order[i], docs[i]);
    }
  }

  /**
    In a good configuration whose uplink chains end, take a tree of configured switches with distinct
    subnets, and clients, under one top that is not a switch.  If the daemons set up the documents of
    any nodes, uplinks first, no command fails, and from every namespace a packet for the subnet of
    every switch takes exactly one way, which arrives and visits no namespace twice.
   */
  lemma {:induction false} ConfiguredAnyToAny(
      tree: Tree, f: Fabric, order: seq<Name>, docs: seq<Json>, x: Name, ns: Name)
    requires Good(tree) && AllChainsEnd(TopologyOf(tree)) && Configured(tree, f) && DistinctPrefixes(f)
    requires UplinkFirst(f, {}, order) && DocumentsOf(tree, order, docs)
    requires x in order && IsSwitch(f, x) && (ns in order || ns == f.top)
    ensures |docs| == |order| && forall i | 0 <= i < |docs| :: Planned(docs[i])
    ensures var s := ExecAll(Setups(ReadPlans(order, docs)), TopOnly(f.top));
            s.Some? && exists way :: OnlyWay(f, s.value, x, ns, way)
  {
    GoodClosed(tree);
    RankedIffAllChainsEnd(TopologyOf(tree));
    var rank := RankOf(TopologyOf(tree));
    hide Good, TopologyOf, Configured, Sound, Ranked, UplinkFirst, OnlyWay, Setups, ExecAll, Plans, ReadPlans;
    ConfiguredSound(tree, f, rank);
    AnyToAny(f, rank, order, x, ns);
    ReadPlansAre(tree, f, rank, order, docs);
  }

  lemma {:induction false} DocumentExists(tree: Tree, f: Fabric, n: Name) returns (doc: Json)
    requires Good(tree) && AllChainsEnd(TopologyOf(tree)) && Configured(tree, f) && n in f.nodes
    ensures IsExpansion(tree, Net(tree, n), doc)
  {
    assert Describes(tree, f, n);
    assert n in TopologyOf(tree);
    hide Good, TopologyOf, IsExpansion, Configured, Describes;
    assert ChainEnds(TopologyOf(tree), n);
    ExpandsIffChainEnds(tree, n);
    doc :| IsExpansion(tree, Net(tree, n), doc);
  }

  /** Such documents exist: every node of a configured tree has an expansion. */
  lemma {:induction false} DocumentsExist(tree: Tree, f: Fabric, order: seq<Name>) returns (docs: seq<Json>)
    requires Good(tree) && AllChainsEnd(TopologyOf(tree)) && Configured(tree, f)
    requires forall i | 0 <= i < |order| :: order[i] in f.nodes
    ensures DocumentsOf(tree, order, docs)
    decreases |order|
  {
    hide Good, TopologyOf, IsExpansion, Configured, AllChainsEnd, Net;
    if order == [] {
      docs := [];
    } else {
      var last := |order| - 1;
      var init := DocumentsExist(tree, f, order[..last]);
      var doc := DocumentExists(tree, f, order[last]);
      docs := init + [doc];
    }
  }
}
