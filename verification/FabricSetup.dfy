/**
  Starting the nodes of a fabric, uplinks first, always succeeds and produces
  exactly the tables of the fabric.
 */
module FabricSetup {
  import opened Uplinks
  import opened Kernel
  import opened Setup
  import opened Undo
  import opened Fabric
  import opened SetupEffect

  /** With a node, its uplink is on, unless that is the top. */
  ghost predicate UpClosed(f: Fabric, on: set<Name>)
  {
    forall x | x in on :: x in f.nodes && (f.nodes[x].uplink == f.top || f.nodes[x].uplink in on)
  }

  lemma {:induction false} ChainOn(f: Fabric, rank: Rank, on: set<Name>, x: Name, i: nat)
    requires Sound(f, rank) && UpClosed(f, on) && x in f.nodes && i < |Chain(f, rank, x)| - 1
    requires x in on || f.nodes[x].uplink == f.top || f.nodes[x].uplink in on
    ensures i > 0 ==> Chain(f, rank, x)[i] in on
    decreases i
  {
    ChainLinks(f, rank, x);
    var c := Chain(f, rank, x);
    if i > 0 {
      assert UplinkAt(f, c, i - 1) && UplinkAt(f, c, i);
      assert c[i] != f.top;
      if i > 1 { ChainOn(f, rank, on, x, i - 1); }
    }
  }

  ghost predicate Startable(f: Fabric, rank: Rank, on: set<Name>, x: Name, s: State)
  {
    && Sound(f, rank) && UpClosed(f, on) && Tables(f, rank, on, s)
    && x in f.nodes && x !in on && (f.nodes[x].uplink == f.top || f.nodes[x].uplink in on)
  }

  lemma {:induction false} RoutedDevOn(f: Fabric, rank: Rank, on: set<Name>, y: Name, ns: Name, r: Route)
    requires Sound(f, rank) && UpClosed(f, on) && y in on && RoutedBy(f, rank, y, ns, r)
    ensures r.dev.owner in on
  {
    hide Sound, UpClosed;
    var i :| 0 <= i < |HopsTo(f, rank, y)| && HopIs(HopsTo(f, rank, y)[i], ns, r);
    assert HopsTo(f, rank, y)[i] == HopAt(f, Chain(f, rank, y), i);
    hide HopsTo;
    ChainOn(f, rank, on, y, i + 1);
  }

  lemma {:induction false} RouteDevOn(f: Fabric, rank: Rank, on: set<Name>, k: (Name, Dst), r: Route)
    requires Sound(f, rank) && UpClosed(f, on) && HasRoute(f, rank, on, k, r)
    ensures r.dev.owner in on
  {
    if k.1.None? {
      assert NodeOk(f, rank, k.0);
    } else {
      hide Sound, UpClosed, RoutedBy;
      var y :| y in on && RoutedBy(f, rank, y, k.0, r) && f.nodes[y].prefix == k.1.value;
      RoutedDevOn(f, rank, on, y, k.0, r);
    }
  }

  lemma {:induction false} StartableAbsent(f: Fabric, rank: Rank, on: set<Name>, x: Name, s: State)
    requires Startable(f, rank, on, x, s)
    ensures Absent(x, s)
  {
    forall k | k in s.routes ensures s.routes[k].dev.owner != x {
      RouteDevOn(f, rank, on, k, s.routes[k]);
    }
  }

  lemma {:induction false} StartableInstallable(f: Fabric, rank: Rank, on: set<Name>, x: Name, s: State)
    requires Startable(f, rank, on, x, s) && IsSwitch(f, x)
    ensures Installable(s, f.nodes[x].prefix, HopsTo(f, rank, x))
    ensures forall i | 0 <= i < |HopsTo(f, rank, x)| :: HopsTo(f, rank, x)[i].dev.owner != x
  {
    var hops, c, p := HopsTo(f, rank, x), Chain(f, rank, x), f.nodes[x].prefix;
    ChainLinks(f, rank, x);
    forall i, j | 0 <= i < j < |hops| ensures hops[i].ns != hops[j].ns { ChainRanks(f, rank, x, i + 2, j + 2); }
    forall i | 0 <= i < |hops|
      ensures (hops[i].ns, Some(p)) !in s.routes && hops[i].dev.owner != x
      ensures OnLink(s, hops[i].ns, Route(hops[i].gateway, hops[i].dev))
    {
      NotRouted(f, rank, on, x, s, hops[i].ns);
      ChainRanks(f, rank, x, 0, i + 1);
      ChainOn(f, rank, on, x, i + 1);
      var a := c[i + 1];
      assert hops[i] == HopAt(f, c, i);
      assert UplinkAt(f, c, i + 1);
      assert HasDev(f, on, Nd(a));
      assert HasAddr(f, on, (Nd(a), Addr(f.nodes[a].prefix, 1)));
      assert s.links[Nd(a)] == LinkOf(f, Nd(a));
    }
  }

  lemma {:induction false} NotRouted(f: Fabric, rank: Rank, on: set<Name>, x: Name, s: State, ns: Name)
    requires Sound(f, rank) && Tables(f, rank, on, s) && x !in on && IsSwitch(f, x)
    ensures (ns, Some(f.nodes[x].prefix)) !in s.routes
  {
  }

  // ----- The tables after a node has been set up ---------------------------

  lemma {:induction false} SwitchTables(f: Fabric, rank: Rank, on: set<Name>, x: Name, s: State)
    requires Startable(f, rank, on, x, s) && IsSwitch(f, x)
    ensures var n := f.nodes[x]; Tables(f, rank, on + {x}, SwitchState(x, n.uplink, n.prefix, HopsTo(f, rank, x), s))
  {
    var n, hops := f.nodes[x], HopsTo(f, rank, x);
    var s' := SwitchState(x, n.uplink, n.prefix, hops, s);
    assert s'.mounts == on + {x} + {f.top};
    SwitchLinks(f, rank, on, x, s, s');
    SwitchAddrs(f, rank, on, x, s, s');
    SwitchRoutes(f, rank, on, x, s, s');
  }

  lemma {:induction false} SwitchLinks(f: Fabric, rank: Rank, on: set<Name>, x: Name, s: State, s': State)
    requires Startable(f, rank, on, x, s) && IsSwitch(f, x)
    requires s' == SwitchState(x, f.nodes[x].uplink, f.nodes[x].prefix, HopsTo(f, rank, x), s)
    ensures forall d :: d in s'.links <==> HasDev(f, on + {x}, d)
    ensures forall d | d in s'.links :: s'.links[d] == LinkOf(f, d)
  {
  }

  lemma {:induction false} SwitchAddrs(f: Fabric, rank: Rank, on: set<Name>, x: Name, s: State, s': State)
    requires Startable(f, rank, on, x, s) && IsSwitch(f, x)
    requires s' == SwitchState(x, f.nodes[x].uplink, f.nodes[x].prefix, HopsTo(f, rank, x), s)
    ensures forall q :: q in s'.addrs <==> HasAddr(f, on + {x}, q)
  {
  }

  /** Turning on `x` adds the routes to its subnet and its default route. */
  lemma {:induction false} RoutesGrow(f: Fabric, rank: Rank, on: set<Name>, x: Name, k: (Name, Dst), r: Route)
    requires Sound(f, rank) && x in f.nodes && NodeOk(f, rank, x)
    ensures HasRoute(f, rank, on + {x}, k, r) <==>
      || HasRoute(f, rank, on, k, r)
      || (k == (x, None) && r == DefaultOf(f, x))
      || (IsSwitch(f, x) && k.1 == Some(f.nodes[x].prefix) && RoutedBy(f, rank, x, k.0, r))
  {
    if k.1.Some? {
      if HasRoute(f, rank, on, k, r) {
        var y :| y in on && RoutedBy(f, rank, y, k.0, r) && f.nodes[y].prefix == k.1.value;
        assert y in on + {x};
      }
      if IsSwitch(f, x) && k.1 == Some(f.nodes[x].prefix) && RoutedBy(f, rank, x, k.0, r) {
        assert x in on + {x};
      }
    }
  }

  lemma {:induction false} SwitchRouteHas(
      f: Fabric, rank: Rank, on: set<Name>, x: Name, s: State, s': State, k: (Name, Dst))
    requires Startable(f, rank, on, x, s) && IsSwitch(f, x) && k in s'.routes && DistinctSpaces(HopsTo(f, rank, x))
    requires s' == SwitchState(x, f.nodes[x].uplink, f.nodes[x].prefix, HopsTo(f, rank, x), s)
    ensures HasRoute(f, rank, on + {x}, k, s'.routes[k])
  {
    var hops, p := HopsTo(f, rank, x), f.nodes[x].prefix;
    assert NodeOk(f, rank, x);
    assert k in s.routes ==> HasRoute(f, rank, on, k, s.routes[k]);
    hide Tables, Sound, UpClosed, HopsTo, HasRoute;
    AddRoutesTable(s.routes, p, hops, k);
    RoutesGrow(f, rank, on, x, k, s'.routes[k]);
    if k != (x, None) && k.1 == Some(p) && exists i :: 0 <= i < |hops| && hops[i].ns == k.0 {
      var i :| 0 <= i < |hops| && hops[i].ns == k.0;
      assert HopIs(hops[i], k.0, s'.routes[k]);
    }
  }

  lemma {:induction false} SwitchHasRoute(
      f: Fabric, rank: Rank, on: set<Name>, x: Name, s: State, s': State, k: (Name, Dst), r: Route)
    requires Startable(f, rank, on, x, s) && IsSwitch(f, x) && DistinctSpaces(HopsTo(f, rank, x))
    requires s' == SwitchState(x, f.nodes[x].uplink, f.nodes[x].prefix, HopsTo(f, rank, x), s)
    requires HasRoute(f, rank, on + {x}, k, r)
    ensures k in s'.routes && s'.routes[k] == r
  {
    var hops, p := HopsTo(f, rank, x), f.nodes[x].prefix;
    assert NodeOk(f, rank, x);
    NotRouted(f, rank, on, x, s, k.0);
    assert HasRoute(f, rank, on, k, r) ==> k in s.routes && s.routes[k] == r;
    StartableAbsent(f, rank, on, x, s);
    RoutesGrow(f, rank, on, x, k, r);
    hide Tables, Sound, UpClosed, HopsTo, HasRoute;
    AddRoutesTable(s.routes, p, hops, k);
    if !HasRoute(f, rank, on, k, r) && k != (x, None) {
      var i :| 0 <= i < |hops| && HopIs(hops[i], k.0, r);
      assert k == (hops[i].ns, Some(p));
    }
  }

  lemma {:induction false} SwitchRoutes(f: Fabric, rank: Rank, on: set<Name>, x: Name, s: State, s': State)
    requires Startable(f, rank, on, x, s) && IsSwitch(f, x)
    requires s' == SwitchState(x, f.nodes[x].uplink, f.nodes[x].prefix, HopsTo(f, rank, x), s)
    ensures forall k | k in s'.routes :: HasRoute(f, rank, on + {x}, k, s'.routes[k])
    ensures forall k, r | HasRoute(f, rank, on + {x}, k, r) :: k in s'.routes && s'.routes[k] == r
  {
    StartableInstallable(f, rank, on, x, s);
    forall k | k in s'.routes ensures HasRoute(f, rank, on + {x}, k, s'.routes[k]) {
      SwitchRouteHas(f, rank, on, x, s, s', k);
    }
    forall k, r | HasRoute(f, rank, on + {x}, k, r) ensures k in s'.routes && s'.routes[k] == r {
      SwitchHasRoute(f, rank, on, x, s, s', k, r);
    }
  }

  lemma {:induction false} ClientTables(f: Fabric, rank: Rank, on: set<Name>, x: Name, s: State)
    requires Startable(f, rank, on, x, s) && !IsSwitch(f, x)
    ensures var u := f.nodes[x].uplink;
            IsSwitch(f, u) && Tables(f, rank, on + {x}, ClientState(x, u, f.nodes[u].prefix, s))
  {
    assert NodeOk(f, rank, x);
    var u := f.nodes[x].uplink;
    var s' := ClientState(x, u, f.nodes[u].prefix, s);
    assert s'.mounts == on + {x} + {f.top};
    StartableAbsent(f, rank, on, x, s);
    ClientLinks(f, rank, on, x, s, s');
    ClientRoutes(f, rank, on, x, s, s');
  }

  lemma {:induction false} ClientLinks(f: Fabric, rank: Rank, on: set<Name>, x: Name, s: State, s': State)
    requires Startable(f, rank, on, x, s) && !IsSwitch(f, x) && IsSwitch(f, f.nodes[x].uplink)
    requires s' == ClientState(x, f.nodes[x].uplink, f.nodes[f.nodes[x].uplink].prefix, s)
    ensures forall d :: d in s'.links <==> HasDev(f, on + {x}, d)
    ensures forall d | d in s'.links :: s'.links[d] == LinkOf(f, d)
    ensures forall q :: q in s'.addrs <==> HasAddr(f, on + {x}, q)
  {
  }

  lemma {:induction false} ClientRoutes(f: Fabric, rank: Rank, on: set<Name>, x: Name, s: State, s': State)
    requires Startable(f, rank, on, x, s) && !IsSwitch(f, x) && NodeOk(f, rank, x) && Absent(x, s)
    requires s' == ClientState(x, f.nodes[x].uplink, f.nodes[f.nodes[x].uplink].prefix, s)
    ensures forall k | k in s'.routes :: HasRoute(f, rank, on + {x}, k, s'.routes[k])
    ensures forall k, r | HasRoute(f, rank, on + {x}, k, r) :: k in s'.routes && s'.routes[k] == r
  {
    forall k | k in s'.routes ensures HasRoute(f, rank, on + {x}, k, s'.routes[k]) {
      RoutesGrow(f, rank, on, x, k, s'.routes[k]);
    }
    forall k, r | HasRoute(f, rank, on + {x}, k, r) ensures k in s'.routes && s'.routes[k] == r {
      RoutesGrow(f, rank, on, x, k, r);
    }
  }

  /** A node whose uplink is on sets up without failure, and the tables grow by exactly its part. */
  lemma {:induction false} NodeSetUp(f: Fabric, rank: Rank, on: set<Name>, x: Name, s: State)
    requires Startable(f, rank, on, x, s)
    ensures var r := ExecAll(Does(NetworkActions(x, PlanFor(f, rank, x))), s);
            r.Some? && Tables(f, rank, on + {x}, r.value)
    ensures UpClosed(f, on + {x})
  {
    StartableAbsent(f, rank, on, x, s);
    assert NodeOk(f, rank, x);
    match f.nodes[x] {
      case SwitchNode(u, p) =>
        StartableInstallable(f, rank, on, x, s);
        SwitchRun(x, u, p, HopsTo(f, rank, x), s);
        SwitchTables(f, rank, on, x, s);
      case ClientNode(u) =>
        assert HasDev(f, on, Nb(u));
        ClientRun(x, u, f.nodes[u].prefix, s);
        ClientTables(f, rank, on, x, s);
    }
  }

  // ----- Starting a whole fabric -------------------------------------------

  /** Each node comes once, after its uplink. */
  ghost predicate UplinkFirst(f: Fabric, on: set<Name>, order: seq<Name>)
    decreases |order|
  {
    order == [] ||
    var x := order[0];
    && x in f.nodes && x !in on && (f.nodes[x].uplink == f.top || f.nodes[x].uplink in on)
    && UplinkFirst(f, on + {x}, order[1..])
  }

  ghost function Plans(f: Fabric, rank: Rank, order: seq<Name>): seq<(Name, Plan)>
    requires Sound(f, rank) && forall i | 0 <= i < |order| :: order[i] in f.nodes
  {
    seq(|order|, i requires 0 <= i < |order| => (order[i], PlanFor(f, rank, order[i])))
  }

  ghost function Named(order: seq<Name>): set<Name>
  {
    set x | x in order
  }

  lemma {:induction false} OrderNodes(f: Fabric, on: set<Name>, order: seq<Name>)
    requires UplinkFirst(f, on, order)
    ensures forall i | 0 <= i < |order| :: order[i] in f.nodes
    decreases |order|
  {
    if order != [] { OrderNodes(f, on + {order[0]}, order[1..]); }
  }

  lemma {:induction false} SetupsStep(f: Fabric, rank: Rank, order: seq<Name>)
    requires Sound(f, rank) && order != [] && forall i | 0 <= i < |order| :: order[i] in f.nodes
    ensures Setups(Plans(f, rank, order)) ==
            Does(NetworkActions(order[0], PlanFor(f, rank, order[0]))) + Setups(Plans(f, rank, order[1..]))
  {
    hide Sound, PlanFor, NetworkActions, Does;
    assert Plans(f, rank, order)[1..] == Plans(f, rank, order[1..]);
  }

  lemma {:induction false} NamedStep(on: set<Name>, order: seq<Name>)
    ensures order == [] ==> on + Named(order) == on
    ensures order != [] ==> on + {order[0]} + Named(order[1..]) == on + Named(order)
  {
    if order != [] { assert order == [order[0]] + order[1..]; }
  }

  lemma {:induction false} SetUpFrom(f: Fabric, rank: Rank, on: set<Name>, order: seq<Name>, s: State)
    requires Sound(f, rank) && UpClosed(f, on) && Tables(f, rank, on, s) && UplinkFirst(f, on, order)
    requires forall i | 0 <= i < |order| :: order[i] in f.nodes
    ensures var r := ExecAll(Setups(Plans(f, rank, order)), s);
            r.Some? && Tables(f, rank, on + Named(order), r.value)
    ensures UpClosed(f, on + Named(order))
    decreases |order|
  {
    hide Tables, Exec, NetworkActions, Does, PlanFor, Sound, UpClosed, Named;
    NamedStep(on, order);
    if order != [] {
      var x := order[0];
      NodeSetUp(f, rank, on, x, s);
      var cs := Does(NetworkActions(x, PlanFor(f, rank, x)));
      SetupsStep(f, rank, order);
      ExecConcat(cs, Setups(Plans(f, rank, order[1..])), s);
      hide Setups, Plans, ExecAll;
      SetUpFrom(f, rank, on + {x}, order[1..], ExecAll(cs, s).value);
    }
  }

  /** The state with nothing but the namespace of the top. */
  const TopOnly: Name -> State := top => State({top}, map[], {}, map[])

  /**
    Starting nodes uplinks first never fails, and the state depends only on which nodes are on:
    it has exactly their devices, addresses and routes.
   */
  lemma {:induction false} FabricSetUp(f: Fabric, rank: Rank, order: seq<Name>)
    requires Sound(f, rank) && UplinkFirst(f, {}, order)
    ensures forall i | 0 <= i < |order| :: order[i] in f.nodes
    ensures var r := ExecAll(Setups(Plans(f, rank, order)), TopOnly(f.top));
            r.Some? && Tables(f, rank, Named(order), r.value) && UpClosed(f, Named(order))
  {
    OrderNodes(f, {}, order);
    assert Tables(f, rank, {}, TopOnly(f.top));
    SetUpFrom(f, rank, {}, order, TopOnly(f.top));
    assert {} + Named(order) == Named(order);
  }
}
