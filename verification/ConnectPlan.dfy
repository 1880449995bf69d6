/**
  What an entity daemon reads from the expanded document: whom it connects to,
  its subnet, and the routes to install in its ancestors.
 */
module ConnectPlan {
  import opened Uplinks
  import opened JsonTree
  import opened ConfigModel
  import opened ConfigInvariant
  import opened Commits
  import opened Expansion
  import opened Kernel
  import opened Setup
  import opened Addresses

  /** `get(component, key)`: a string, or an exception. */
  function Text(component: Component, key: string): Option<string>
  {
    if Get(component, key).Str? then Some(Get(component, key).s) else None
  }

  /** The prefix of the subnet of a component; None where the program throws or asserts. */
  function SubnetOf(component: Component): Option<string>
  {
    match Text(component, "address")
    case None => None
    case Some(net) => Prefix(net)
  }

  predicate IsSwitch(component: Component)
  {
    Get(component, "role") == Str("switch")
  }

  /**
    The routes installed while walking up from the document of `owner`: each switch on the way
    makes its own uplink's namespace route the subnet through it.
   */
  function Hops(owner: Name, doc: Json): Option<seq<Hop>>
    decreases doc
  {
    if doc.Null? then Some([])
    else if !doc.Obj? then None
    else if !IsSwitch(doc.fields) then Some([])
    else
      match (Text(doc.fields, UPLINK_NAME), SubnetOf(doc.fields))
      case (Some(u), Some(p)) =>
        var hop := Hop(u, Addr(p, 2), Nd(owner));
        var rest := if "uplink" in doc.fields then Hops(u, doc.fields["uplink"]) else Some([]);
        if rest.None? then None else Some([hop] + rest.value)
      case _ => None
  }

  /** What `add_network` sets up for a document; None where the program throws or asserts. */
  function PlanOf(component: Component): Option<Plan>
  {
    match Text(component, "role")
    case None => None
    case Some(role) =>
      if role == "root" then Some(RootPlan)
      else if role == "switch" then
        match (Text(component, UPLINK_NAME), SubnetOf(component))
        case (Some(u), Some(p)) =>
          var hops := Hops(u, Get(component, "uplink"));
          if hops.None? then None else Some(SwitchPlan(u, p, hops.value))
        case _ => None
      else if role == "client" then
        var uplink := Get(component, "uplink");
        if Text(component, UPLINK_NAME).None? || !uplink.Obj? || SubnetOf(uplink.fields).None? then None
        else Some(ClientPlan(Text(component, UPLINK_NAME).value, SubnetOf(uplink.fields).value))
      else None
  }

  // ----- By name -----------------------------------------------------------

  /** The component has a /24 as its address. */
  ghost predicate HasSubnet(component: Component)
  {
    "address" in component && component["address"].Str? && Prefix(component["address"].s).Some?
  }

  /** A switch that can be connected: it says where its uplink is and which subnet it has. */
  ghost predicate Connectable(component: Component)
  {
    ("uplink" in component || (":uplink-name" in component && component[":uplink-name"].Str?)) && HasSubnet(component)
  }

  /** Every switch met walking up from `u`, until the first entity that is not one, can be connected. */
  ghost predicate ConnectableUp(tree: Tree, u: Name)
  {
    forall k: nat | SwitchesBelow(tree, u, k) && Walk(TopologyOf(tree), u, k).Some? ::
      var net := Net(tree, Walk(TopologyOf(tree), u, k).value); IsSwitch(net) ==> Connectable(net)
  }

  /** The first `k` entities met walking up from `u` are switches. */
  ghost predicate SwitchesBelow(tree: Tree, u: Name, k: nat)
  {
    forall j: nat | j < k :: SwitchAt(tree, u, j)
  }

  ghost predicate SwitchAt(tree: Tree, u: Name, j: nat)
  {
    var x := Walk(TopologyOf(tree), u, j);
    x.Some? && IsSwitch(Net(tree, x.value))
  }

  /** One level of an expansion, read back. */
  lemma {:induction false} ExpansionLevel(tree: Tree, n: Name, doc: Json)
    requires Good(tree) && HasNet(tree, n) && IsExpansion(tree, Net(tree, n), doc)
    ensures doc.Obj?
    ensures IsSwitch(doc.fields) <==> IsSwitch(Net(tree, n))
    ensures SubnetOf(doc.fields) == SubnetOf(Net(tree, n))
    ensures "uplink" in doc.fields <==> "uplink" in Net(tree, n)
    ensures "uplink" in Net(tree, n) ==> Linked(tree, Net(tree, n)) && Text(doc.fields, UPLINK_NAME) == Some(Net(tree, n)["uplink"].s)
    ensures "uplink" !in Net(tree, n) ==> Text(doc.fields, UPLINK_NAME) == Text(Net(tree, n), UPLINK_NAME)
    ensures "uplink" in Net(tree, n) ==> UplinkOf(tree[n]) == Some(Net(tree, n)["uplink"].s)
    ensures "uplink" !in Net(tree, n) ==> UplinkOf(tree[n]) == None
  {
    GoodLinked(tree, n);
  }

  /** A hop as the walk by name gives it: route in the uplink of the `i`-th entity, through that entity. */
  ghost predicate HopByName(tree: Tree, u: Name, i: nat, hop: Hop, last: bool)
  {
    var t := TopologyOf(tree);
    && SwitchAt(tree, u, i)
    && var x := Walk(t, u, i).value;
       && hop.dev == Nd(x) && hop.gateway.host == 2 && SubnetOf(Net(tree, x)) == Some(hop.gateway.prefix)
       && ("uplink" in Net(tree, x) ==> Walk(t, u, i + 1) == Some(hop.ns))
       && ("uplink" !in Net(tree, x) ==> last && Text(Net(tree, x), UPLINK_NAME) == Some(hop.ns))
  }

  lemma {:induction false} HopShift(tree: Tree, n: Name, u: Name, i: nat, hop: Hop, last: bool)
    requires n in tree && UplinkOf(tree[n]) == Some(u) && HopByName(tree, u, i, hop, last)
    ensures HopByName(tree, n, i + 1, hop, last)
  {
    WalkStep(TopologyOf(tree), n, i);
    WalkStep(TopologyOf(tree), n, i + 1);
  }

  lemma {:induction false} SwitchShift(tree: Tree, n: Name, u: Name, i: nat)
    requires n in tree && UplinkOf(tree[n]) == Some(u)
    ensures SwitchAt(tree, n, i + 1) <==> SwitchAt(tree, u, i)
  {
    WalkStep(TopologyOf(tree), n, i);
  }

  /** The first hop, and the document that gives the others. */
  lemma {:induction false} FirstHop(tree: Tree, n: Name, doc: Json)
    requires Good(tree) && HasNet(tree, n) && IsExpansion(tree, Net(tree, n), doc) && Hops(n, doc).Some?
    ensures var net, hops := Net(tree, n), Hops(n, doc).value;
            && n in tree && doc.Obj?
            && (!IsSwitch(net) ==> hops == [] && !SwitchAt(tree, n, 0))
            && (IsSwitch(net) ==> hops != [] && HopByName(tree, n, 0, hops[0], |hops| == 1))
            && (IsSwitch(net) && "uplink" !in net ==> |hops| == 1 && !SwitchAt(tree, n, 1))
            && (IsSwitch(net) && "uplink" in net ==>
                  && net["uplink"].Str? && UplinkOf(tree[n]) == Some(net["uplink"].s) && HasNet(tree, net["uplink"].s)
                  && "uplink" in doc.fields && IsExpansion(tree, Net(tree, net["uplink"].s), doc.fields["uplink"])
                  && Hops(net["uplink"].s, doc.fields["uplink"]) == Some(hops[1..]))
  {
    ExpansionLevel(tree, n, doc);
    hide Good, UplinkOf;
    var t := TopologyOf(tree);
    assert Walk(t, n, 0) == Some(n);
    if "uplink" in Net(tree, n) {
      WalkStep(t, n, 0);
    } else {
      assert Walk(t, n, 1) == None;
    }
  }

  /** The routes read from the nested document are the ones of the walk by name. */
  lemma {:induction false} HopsAreWalk(tree: Tree, n: Name, doc: Json)
    requires Good(tree) && HasNet(tree, n) && IsExpansion(tree, Net(tree, n), doc) && Hops(n, doc).Some?
    ensures var hops := Hops(n, doc).value;
            && (forall i | 0 <= i < |hops| :: HopByName(tree, n, i, hops[i], i == |hops| - 1))
            && !SwitchAt(tree, n, |hops|)
    decreases doc
  {
    hide Good, UplinkOf, Hops, HopByName, SwitchAt, IsExpansion, HasNet, Net, IsSwitch;
    var net, hops := Net(tree, n), Hops(n, doc).value;
    FirstHop(tree, n, doc);
    if IsSwitch(net) && "uplink" in net {
      var u, sub := net["uplink"].s, doc.fields["uplink"];
      HopsAreWalk(tree, u, sub);
      SwitchShift(tree, n, u, |hops| - 1);
      forall i | 0 <= i < |hops| ensures HopByName(tree, n, i, hops[i], i == |hops| - 1) {
        if i > 0 { HopShift(tree, n, u, i - 1, hops[i], i == |hops| - 1); }
      }
    }
  }

  lemma {:induction false} ConnectableStep(tree: Tree, n: Name, u: Name)
    requires n in tree && UplinkOf(tree[n]) == Some(u) && IsSwitch(Net(tree, n)) && Connectable(Net(tree, n))
    ensures ConnectableUp(tree, n) <==> ConnectableUp(tree, u)
  {
    var t := TopologyOf(tree);
    assert forall k: nat :: Walk(t, n, k + 1) == Walk(t, u, k);
    assert Walk(t, n, 0) == Some(n);
    assert forall k: nat :: SwitchAt(tree, n, k + 1) <==> SwitchAt(tree, u, k);
    forall k: nat ensures SwitchesBelow(tree, n, k + 1) <==> SwitchesBelow(tree, u, k) {
      if SwitchesBelow(tree, n, k + 1) {
        forall j: nat | j < k ensures SwitchAt(tree, u, j) { assert SwitchAt(tree, n, j + 1); }
      }
      if SwitchesBelow(tree, u, k) {
        forall j: nat | j < k + 1 ensures SwitchAt(tree, n, j) {
          if j > 0 { assert SwitchAt(tree, u, j - 1); } else { assert SwitchAt(tree, n, 0); }
        }
      }
    }
    if ConnectableUp(tree, n) {
      forall k: nat | SwitchesBelow(tree, u, k) && Walk(t, u, k).Some?
        ensures var net := Net(tree, Walk(t, u, k).value); IsSwitch(net) ==> Connectable(net)
      {
        assert SwitchesBelow(tree, n, k + 1);
      }
    }
    if ConnectableUp(tree, u) {
      forall k: nat | SwitchesBelow(tree, n, k) && Walk(t, n, k).Some?
        ensures var net := Net(tree, Walk(t, n, k).value); IsSwitch(net) ==> Connectable(net)
      {
        if k > 0 { assert SwitchesBelow(tree, n, (k - 1) + 1); }
      }
    }
  }

  /** Walking up the document succeeds exactly when every switch on the way can be connected. */
  lemma {:induction false} HopsIffConnectable(tree: Tree, n: Name, doc: Json)
    requires Good(tree) && HasNet(tree, n) && IsExpansion(tree, Net(tree, n), doc)
    ensures Hops(n, doc).Some? <==> ConnectableUp(tree, n)
    decreases doc
  {
    var net := Net(tree, n);
    ExpansionLevel(tree, n, doc);
    var t := TopologyOf(tree);
    assert Walk(t, n, 0) == Some(n);
    assert SwitchesBelow(tree, n, 0);
    if !IsSwitch(net) {
      assert forall k: nat | k > 0 :: !SwitchesBelow(tree, n, k) by { assert !SwitchAt(tree, n, 0); }
    } else if Connectable(net) && "uplink" in net {
      hide Good, UplinkOf;
      HopsIffConnectable(tree, net["uplink"].s, doc.fields["uplink"]);
      ConnectableStep(tree, n, net["uplink"].s);
    } else if "uplink" !in net {
      assert forall k: nat | k > 0 :: Walk(t, n, k).None?;
    }
  }

  /**
    Which entities can be set up.  A root always; a switch if it and every switch above it, up to the
    first entity that is not one, can be connected; a client if its uplink has a subnet; nothing else.
   */
  ghost predicate Plannable(tree: Tree, n: Name)
  {
    var net := Net(tree, n);
    match Text(net, "role")
    case None => false
    case Some(role) =>
      || role == "root"
      || (role == "switch" && Connectable(net) && forall u | Get(net, "uplink") == Str(u) :: ConnectableUp(tree, u))
      || (role == "client" && exists u :: Get(net, "uplink") == Str(u) && HasSubnet(Net(tree, u)))
  }

  lemma {:induction false} SamePlainKeys(tree: Tree, n: Name, doc: Json, key: string)
    requires HasNet(tree, n) && IsExpansion(tree, Net(tree, n), doc) && key != "uplink" && key != UPLINK_NAME
    ensures doc.Obj? && Get(doc.fields, key) == Get(Net(tree, n), key)
  {
  }

  /** A switch, from what its document says. */
  lemma {:induction false} SwitchPlanOf(component: Component)
    requires IsSwitch(component)
    ensures PlanOf(component) ==
            match (Text(component, UPLINK_NAME), SubnetOf(component))
            case (Some(u), Some(p)) =>
              var hops := Hops(u, Get(component, "uplink"));
              if hops.None? then None else Some(SwitchPlan(u, p, hops.value))
            case _ => None
  {
    hide Hops, SubnetOf;
  }

  lemma {:induction false} SwitchPlanIff(tree: Tree, n: Name, doc: Json)
    requires Good(tree) && HasNet(tree, n) && IsExpansion(tree, Net(tree, n), doc) && IsSwitch(Net(tree, n))
    ensures doc.Obj? && (PlanOf(doc.fields).Some? <==> Plannable(tree, n))
  {
    var net := Net(tree, n);
    ExpansionLevel(tree, n, doc);
    SwitchPlanOf(doc.fields);
    if "uplink" in net {
      var u := net["uplink"].s;
      assert HasNet(tree, u) && IsExpansion(tree, Net(tree, u), doc.fields["uplink"]);
      hide Good, ConnectableUp, Hops, PlanOf, IsExpansion, HasNet, Net, UplinkOf, SubnetOf;
      HopsIffConnectable(tree, u, doc.fields["uplink"]);
    } else {
      hide Good, ConnectableUp, PlanOf, IsExpansion, HasNet, Net, UplinkOf, SubnetOf;
      assert forall u: Name :: Hops(u, Null).Some?;
    }
  }

  /** A client, from what its document says. */
  lemma {:induction false} ClientPlanOf(component: Component)
    requires Get(component, "role") == Str("client")
    ensures PlanOf(component).Some? <==>
            && Text(component, UPLINK_NAME).Some? && Get(component, "uplink").Obj?
            && SubnetOf(Get(component, "uplink").fields).Some?
  {
    hide Hops, SubnetOf;
  }

  lemma {:induction false} ClientPlanIff(tree: Tree, n: Name, doc: Json)
    requires Good(tree) && HasNet(tree, n) && IsExpansion(tree, Net(tree, n), doc)
    requires Get(Net(tree, n), "role") == Str("client")
    ensures doc.Obj? && (PlanOf(doc.fields).Some? <==> Plannable(tree, n))
  {
    var net := Net(tree, n);
    ExpansionLevel(tree, n, doc);
    SamePlainKeys(tree, n, doc, "role");
    ClientPlanOf(doc.fields);
    if "uplink" in net {
      var u := net["uplink"].s;
      var sub := doc.fields["uplink"];
      ExpansionLevel(tree, u, sub);
      assert Get(net, "uplink") == Str(u);
      assert SubnetOf(sub.fields).Some? <==> HasSubnet(Net(tree, u));
    }
    hide Good, SubnetOf, PlanOf, IsExpansion, HasSubnet, HasNet, UplinkOf;
  }

  /** The document of an entity of a good configuration has a plan exactly if the entity can be set up. */
  lemma {:induction false} PlanIff(tree: Tree, n: Name, doc: Json)
    requires Good(tree) && HasNet(tree, n) && IsExpansion(tree, Net(tree, n), doc)
    ensures doc.Obj? && (PlanOf(doc.fields).Some? <==> Plannable(tree, n))
  {
    var net := Net(tree, n);
    if IsSwitch(net) {
      SwitchPlanIff(tree, n, doc);
    } else if Get(net, "role") == Str("client") {
      ClientPlanIff(tree, n, doc);
    } else {
      SamePlainKeys(tree, n, doc, "role");
    }
  }
}
