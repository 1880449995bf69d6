/**
  The fabric a configuration describes, and the documents sent for its nodes.
 */
module FabricConfig {
  import opened Uplinks
  import opened JsonTree
  import opened ConfigModel
  import opened ConfigInvariant
  import opened Commits
  import opened Expansion
  import opened Kernel
  import opened Setup
  import opened Addresses
  import CP = ConnectPlan
  import opened Fabric

  /** The configuration has the node with its role, uplink and subnet. */
  ghost predicate Describes(tree: Tree, f: Fabric, x: Name)
  {
    && x in f.nodes && HasNet(tree, x)
    && var net := Net(tree, x);
    && Get(net, "uplink") == Str(f.nodes[x].uplink)
    && match f.nodes[x]
       case SwitchNode(_, p) =>
         Get(net, "role") == Str("switch") && Get(net, "address").Str? && Prefix(Get(net, "address").s) == Some(p)
       case ClientNode(_) => Get(net, "role") == Str("client")
  }

  /** Every node is configured, uplinks are switches or the top, and the top is not a switch. */
  ghost predicate Configured(tree: Tree, f: Fabric)
  {
    && f.top !in f.nodes && HasNet(tree, f.top) && Get(Net(tree, f.top), "role") != Str("switch")
    && (forall x | x in f.nodes :: Describes(tree, f, x))
    && (forall x | x in f.nodes :: var u := f.nodes[x].uplink; IsSwitch(f, u) || (u == f.top && IsSwitch(f, x)))
  }

  /** In a good configuration whose chains end, such a fabric with distinct subnets is sound. */
  lemma {:induction false} ConfiguredSound(tree: Tree, f: Fabric, rank: Rank)
    requires Good(tree) && Configured(tree, f) && DistinctPrefixes(f) && Ranked(TopologyOf(tree), rank)
    ensures Sound(f, rank)
  {
    forall x ensures NodeOk(f, rank, x) {
      if x in f.nodes {
        assert Describes(tree, f, x);
        GoodLinked(tree, x);
        assert TopologyOf(tree)[x].uplink == Some(f.nodes[x].uplink);
      }
    }
  }

  /** The hops of the walk along the chain of `u`. */
  ghost predicate AlongChain(f: Fabric, c: seq<Name>, hops: seq<Hop>)
  {
    && |hops| == |c| - 1
    && forall i | 0 <= i < |hops| ::
         IsSwitch(f, c[i]) && hops[i] == Hop(c[i + 1], Addr(f.nodes[c[i]].prefix, 2), Nd(c[i]))
  }

  lemma {:induction false} OneMoreHop(f: Fabric, u: Name, c: seq<Name>, hops: seq<Hop>)
    requires c != [] && AlongChain(f, c, hops) && IsSwitch(f, u)
    ensures AlongChain(f, [u] + c, [Hop(c[0], Addr(f.nodes[u].prefix, 2), Nd(u))] + hops)
  {
    var c', hops' := [u] + c, [Hop(c[0], Addr(f.nodes[u].prefix, 2), Nd(u))] + hops;
    forall i | 0 <= i < |hops'|
      ensures IsSwitch(f, c'[i]) && hops'[i] == Hop(c'[i + 1], Addr(f.nodes[c'[i]].prefix, 2), Nd(c'[i]))
    {
      if i > 0 { assert hops'[i] == hops[i - 1] && c'[i] == c[i - 1] && c'[i + 1] == c[i]; }
    }
  }

  /** One level of the walk up the document. */
  lemma {:induction false} HopStep(tree: Tree, f: Fabric, u: Name, doc: Json)
    requires Good(tree) && Configured(tree, f) && (IsSwitch(f, u) || u == f.top) && IsExpansion(tree, Net(tree, u), doc)
    ensures u == f.top ==> CP.Hops(u, doc) == Some([])
    ensures u != f.top ==>
      && var v := f.nodes[u].uplink;
      && (IsSwitch(f, v) || v == f.top) && doc.Obj? && "uplink" in doc.fields
      && IsExpansion(tree, Net(tree, v), doc.fields["uplink"])
      && var above := CP.Hops(v, doc.fields["uplink"]);
         CP.Hops(u, doc) ==
           if above.None? then None else Some([Hop(v, Addr(f.nodes[u].prefix, 2), Nd(u))] + above.value)
  {
    assert u != f.top ==> Describes(tree, f, u);
    CP.ExpansionLevel(tree, u, doc);
    hide Good;
  }

  /** The routes read from the nested document of `u` are those along its chain. */
  lemma {:induction false} HopsAlongChain(tree: Tree, f: Fabric, rank: Rank, u: Name, doc: Json)
    requires Good(tree) && Configured(tree, f) && Sound(f, rank) && (IsSwitch(f, u) || u == f.top)
    requires IsExpansion(tree, Net(tree, u), doc)
    ensures CP.Hops(u, doc).Some? && AlongChain(f, Chain(f, rank, u), CP.Hops(u, doc).value)
    decreases doc
  {
    HopStep(tree, f, u, doc);
    assert NodeOk(f, rank, u);
    if u != f.top {
      var v, sub := f.nodes[u].uplink, doc.fields["uplink"];
      assert Chain(f, rank, u) == [u] + Chain(f, rank, v);
      hide Good, Configured, Sound, IsExpansion, CP.Hops, AlongChain, Chain, Net;
      HopsAlongChain(tree, f, rank, v, sub);
      OneMoreHop(f, u, Chain(f, rank, v), CP.Hops(v, sub).value);
    }
  }

  lemma {:induction false} SameHops(f: Fabric, x: Name, c: seq<Name>, hops: seq<Hop>, hops': seq<Hop>)
    requires AlongChain(f, c, hops) && |hops'| == |[x] + c| - 2
    requires forall i | 0 <= i < |hops'| :: IsSwitch(f, ([x] + c)[i + 1]) && hops'[i] == HopAt(f, [x] + c, i)
    ensures hops == hops'
  {
    forall i | 0 <= i < |hops| ensures hops[i] == hops'[i] {
      assert ([x] + c)[i + 1] == c[i] && ([x] + c)[i + 2] == c[i + 1];
    }
  }

  lemma {:induction false} HopsMatch(tree: Tree, f: Fabric, rank: Rank, x: Name, sub: Json)
    requires Good(tree) && Configured(tree, f) && Sound(f, rank) && IsSwitch(f, x)
    requires IsExpansion(tree, Net(tree, f.nodes[x].uplink), sub)
    ensures CP.Hops(f.nodes[x].uplink, sub) == Some(HopsTo(f, rank, x))
  {
    var u := f.nodes[x].uplink;
    assert NodeOk(f, rank, x);
    var c, c' := Chain(f, rank, x), Chain(f, rank, u);
    assert c == [x] + c';
    hide Good, Configured, IsExpansion, CP.Hops, AlongChain, Chain, HopAt;
    HopsAlongChain(tree, f, rank, u, sub);
    hide Sound;
    SameHops(f, x, c', CP.Hops(u, sub).value, HopsTo(f, rank, x));
  }

  /** What the document of a node says. */
  lemma {:induction false} DocumentLevel(tree: Tree, f: Fabric, x: Name, doc: Json)
    requires Good(tree) && Describes(tree, f, x) && IsExpansion(tree, Net(tree, x), doc)
    ensures doc.Obj? && "uplink" in doc.fields && CP.Text(doc.fields, UPLINK_NAME) == Some(f.nodes[x].uplink)
    ensures CP.Text(doc.fields, "role") == Some(if IsSwitch(f, x) then "switch" else "client")
    ensures IsSwitch(f, x) ==> CP.SubnetOf(doc.fields) == Some(f.nodes[x].prefix)
    ensures IsExpansion(tree, Net(tree, f.nodes[x].uplink), doc.fields["uplink"])
  {
    CP.ExpansionLevel(tree, x, doc);
  }

  lemma {:induction false} SwitchDocument(component: Component, u: Name, p: string, hops: seq<Hop>)
    requires CP.Text(component, "role") == Some("switch") && CP.Text(component, UPLINK_NAME) == Some(u)
    requires CP.SubnetOf(component) == Some(p) && CP.Hops(u, Get(component, "uplink")) == Some(hops)
    ensures CP.PlanOf(component) == Some(SwitchPlan(u, p, hops))
  {
    hide CP.SubnetOf, CP.Hops;
  }

  lemma {:induction false} ClientDocument(component: Component, u: Name, p: string)
    requires CP.Text(component, "role") == Some("client") && CP.Text(component, UPLINK_NAME) == Some(u)
    requires Get(component, "uplink").Obj? && CP.SubnetOf(Get(component, "uplink").fields) == Some(p)
    ensures CP.PlanOf(component) == Some(ClientPlan(u, p))
  {
    hide CP.SubnetOf, CP.Hops;
  }

  /** The document that `deep_uplink_info` makes for a node yields the plan of the fabric. */
  lemma {:induction false} DocumentPlan(tree: Tree, f: Fabric, rank: Rank, x: Name, doc: Json)
    requires Good(tree) && Configured(tree, f) && Sound(f, rank) && x in f.nodes
    requires IsExpansion(tree, Net(tree, x), doc)
    ensures doc.Obj? && CP.PlanOf(doc.fields) == Some(PlanFor(f, rank, x))
  {
    assert Describes(tree, f, x) && NodeOk(f, rank, x);
    var u := f.nodes[x].uplink;
    assert u in f.nodes ==> Describes(tree, f, u);
    hide Good, Configured, Sound, Describes, IsExpansion, Net, HopsTo, CP.Text, CP.SubnetOf, CP.PlanOf, CP.Hops;
    DocumentLevel(tree, f, x, doc);
    var sub := doc.fields["uplink"];
    if IsSwitch(f, x) {
      HopsMatch(tree, f, rank, x, sub);
      SwitchDocument(doc.fields, u, f.nodes[x].prefix, HopsTo(f, rank, x));
    } else {
      DocumentLevel(tree, f, u, sub);
      ClientDocument(doc.fields, u, f.nodes[u].prefix);
    }
  }
}
