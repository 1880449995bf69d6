/**
  Forwarding over the installed tables: longest-prefix match as in section
  5.2.4.3 of RFC 1812, where a subnet (connected or static) beats the default.
 */
module Forwarding {
  import opened Uplinks
  import opened Kernel
  import opened Undo
  import opened Fabric
  import opened FabricSetup

  // ----- Semantics ---------------------------------------------------------

  /** A namespace is connected to a subnet through a device that is up and has an address in it. */
  ghost predicate Connected(s: State, ns: Name, p: string)
  {
    exists q :: q in s.addrs && q.0 in s.links && s.links[q.0].ns == ns && s.links[q.0].up && q.1.prefix == p
  }

  function Best(s: State, ns: Name, p: string): Option<Route>
  {
    if (ns, Some(p)) in s.routes then Some(s.routes[(ns, Some(p))])
    else if (ns, None) in s.routes then Some(s.routes[(ns, None)])
    else None
  }

  function MasterOf(s: State, d: Dev): Option<Dev>
  {
    if d in s.links then s.links[d].master else None
  }

  /** The bridge a device is on: a veth pair is on the bridge either end is enslaved to. */
  function Segment(s: State, d: Dev): Dev
  {
    if d.Nb? then d
    else if MasterOf(s, Nu(d.owner)).Some? then MasterOf(s, Nu(d.owner)).value
    else if MasterOf(s, Nd(d.owner)).Some? then MasterOf(s, Nd(d.owner)).value
    else Nu(d.owner)
  }

  predicate Up(s: State, d: Dev)
  {
    d in s.links && s.links[d].up
  }

  /** Frames pass through the device: it, its peer and its bridge are up. */
  predicate Live(s: State, d: Dev)
  {
    Up(s, d) && (!d.Nb? ==> Up(s, Nu(d.owner)) && Up(s, Nd(d.owner)) && Up(s, Segment(s, d)))
  }

  /** A device that has the gateway's address on the segment the route leaves through. */
  ghost predicate Answers(s: State, r: Route, d: Dev)
  {
    (d, r.gateway) in s.addrs && Live(s, d) && Live(s, r.dev) && Segment(s, d) == Segment(s, r.dev)
  }

  /** A packet to subnet `p` in `ns` goes on to `ns'`. */
  ghost predicate Step(s: State, p: string, ns: Name, ns': Name)
  {
    && !Connected(s, ns, p) && Best(s, ns, p).Some?
    && exists d :: d in s.links && Answers(s, Best(s, ns, p).value, d) && s.links[d].ns == ns'
  }

  /** A packet's way so far. */
  ghost predicate Trace(s: State, p: string, ns: Name, path: seq<Name>)
  {
    path != [] && path[0] == ns && forall i | 0 < i < |path| :: Step(s, p, path[i - 1], path[i])
  }

  // ----- The tables of a fabric --------------------------------------------

  /** The nodes `on` are set up, and `x` is one of the switches. */
  ghost predicate Running(f: Fabric, rank: Rank, on: set<Name>, s: State, x: Name)
  {
    Sound(f, rank) && UpClosed(f, on) && Tables(f, rank, on, s) && x in on && IsSwitch(f, x)
  }

  ghost predicate Space(f: Fabric, on: set<Name>, ns: Name)
  {
    ns in on || ns == f.top
  }

  /** The namespaces attached to the subnet of `x`: its own, its uplink's, and its clients'. */
  ghost predicate Attached(f: Fabric, x: Name, ns: Name)
  {
    IsSwitch(f, x) && (ns == x || ns == f.nodes[x].uplink || (ns in f.nodes && f.nodes[ns] == ClientNode(x)))
  }

  lemma {:induction false} ConnectedIff(f: Fabric, rank: Rank, on: set<Name>, s: State, x: Name, ns: Name)
    requires Running(f, rank, on, s, x) && Space(f, on, ns)
    ensures Connected(s, ns, f.nodes[x].prefix) <==> Attached(f, x, ns)
  {
    var p := f.nodes[x].prefix;
    if Connected(s, ns, p) {
      var q :| q in s.addrs && q.0 in s.links && s.links[q.0].ns == ns && s.links[q.0].up && q.1.prefix == p;
      assert HasAddr(f, on, q);
      assert s.links[q.0] == LinkOf(f, q.0);
    }
    if ns == x {
      assert HasAddr(f, on, (Nb(x), Addr(p, 2))) && HasDev(f, on, Nb(x));
      assert s.links[Nb(x)] == LinkOf(f, Nb(x));
    } else if ns == f.nodes[x].uplink {
      assert HasAddr(f, on, (Nd(x), Addr(p, 1))) && HasDev(f, on, Nd(x));
      assert s.links[Nd(x)] == LinkOf(f, Nd(x));
    } else if ns in f.nodes && f.nodes[ns] == ClientNode(x) {
      assert HasAddr(f, on, (Nu(ns), Addr(p, 3))) && HasDev(f, on, Nu(ns));
      assert s.links[Nu(ns)] == LinkOf(f, Nu(ns));
    }
  }

  /** The address `.1` of a switch is on its downlink device, the address `.2` on its bridge; both are on its segment. */
  lemma {:induction false} GatewayOf(f: Fabric, rank: Rank, on: set<Name>, s: State, a: Name, host: nat, d: Dev)
    requires Running(f, rank, on, s, a) && (host == 1 || host == 2)
    ensures (d, Addr(f.nodes[a].prefix, host)) in s.addrs <==> d == if host == 1 then Nd(a) else Nb(a)
  {
    assert (d, Addr(f.nodes[a].prefix, host)) in s.addrs <==> HasAddr(f, on, (d, Addr(f.nodes[a].prefix, host)));
  }

  lemma {:induction false} SwitchSegment(f: Fabric, rank: Rank, on: set<Name>, s: State, a: Name)
    requires Running(f, rank, on, s, a)
    ensures forall d | d in [Nu(a), Nd(a), Nb(a)] :: Live(s, d) && Segment(s, d) == Nb(a) && s.links[d] == LinkOf(f, d)
  {
    assert HasDev(f, on, Nu(a)) && HasDev(f, on, Nd(a)) && HasDev(f, on, Nb(a));
  }

  lemma {:induction false} ClientSegment(f: Fabric, rank: Rank, on: set<Name>, s: State, a: Name, c: Name)
    requires Running(f, rank, on, s, a) && c in on && f.nodes[c] == ClientNode(a)
    ensures Live(s, Nu(c)) && Segment(s, Nu(c)) == Nb(a)
  {
    SwitchSegment(f, rank, on, s, a);
    assert HasDev(f, on, Nu(c)) && HasDev(f, on, Nd(c)) && !HasDev(f, on, Nb(c));
    assert s.links[Nu(c)] == LinkOf(f, Nu(c)) && s.links[Nd(c)] == LinkOf(f, Nd(c));
  }

  // ----- The next namespace ------------------------------------------------

  /** Where a packet for `x` goes from `ns`: down the chain of `x`, or up. */
  ghost function NextSpace(f: Fabric, rank: Rank, x: Name, ns: Name): Name
    requires Sound(f, rank) && (ns in f.nodes || ns in Chain(f, rank, x))
  {
    var c := Chain(f, rank, x);
    if ns in c then
      var j :| 0 <= j < |c| && c[j] == ns;
      if j > 0 then c[j - 1] else ns
    else
      var u := f.nodes[ns].uplink;
      if IsSwitch(f, ns) || u !in f.nodes then u else f.nodes[u].uplink
  }

  lemma {:induction false} ChainPlace(f: Fabric, rank: Rank, x: Name, i: nat, j: nat)
    requires Sound(f, rank) && (x in f.nodes || x == f.top)
    requires i < |Chain(f, rank, x)| && j < |Chain(f, rank, x)| && Chain(f, rank, x)[i] == Chain(f, rank, x)[j]
    ensures i == j
  {
    if i < j { ChainRanks(f, rank, x, i, j); }
    if j < i { ChainRanks(f, rank, x, j, i); }
  }

  lemma {:induction false} TopInChain(f: Fabric, rank: Rank, x: Name)
    requires Sound(f, rank) && (x in f.nodes || x == f.top)
    ensures f.top in Chain(f, rank, x)
  {
    ChainLinks(f, rank, x);
  }

  /** Above its uplink, the chain of `x` has a static route down to it. */
  lemma {:induction false} BestDown(f: Fabric, rank: Rank, on: set<Name>, s: State, x: Name, j: nat)
    requires Running(f, rank, on, s, x) && 2 <= j < |Chain(f, rank, x)|
    ensures var c := Chain(f, rank, x); var a := c[j - 1];
            && a in on && IsSwitch(f, a)
            && Best(s, c[j], f.nodes[x].prefix) == Some(Route(Addr(f.nodes[a].prefix, 2), Nd(a)))
  {
    var c, hops, p := Chain(f, rank, x), HopsTo(f, rank, x), f.nodes[x].prefix;
    ChainOn(f, rank, on, x, j - 1);
    var h := hops[j - 2];
    assert h == HopAt(f, c, j - 2);
    var r := Route(h.gateway, h.dev);
    assert HopIs(h, c[j], r);
    assert RoutedBy(f, rank, x, c[j], r);
    assert HasRoute(f, rank, on, (c[j], Some(p)), r);
  }

  /** Off the chain of `x` there is only the default route. */
  lemma {:induction false} BestUp(f: Fabric, rank: Rank, on: set<Name>, s: State, x: Name, ns: Name)
    requires Running(f, rank, on, s, x) && ns in on && ns !in Chain(f, rank, x)
    ensures NodeOk(f, rank, ns) && ns in f.nodes
    ensures Best(s, ns, f.nodes[x].prefix) == Some(DefaultOf(f, ns))
  {
    assert NodeOk(f, rank, ns);
    assert HasRoute(f, rank, on, (ns, None), DefaultOf(f, ns));
  }

  /** A static route to the subnet of `x` is only in namespaces above the uplink of `x`. */
  lemma {:induction false} StaticAbove(f: Fabric, rank: Rank, on: set<Name>, s: State, x: Name, ns: Name)
    requires Running(f, rank, on, s, x) && (ns, Some(f.nodes[x].prefix)) in s.routes
    ensures exists j :: 2 <= j < |Chain(f, rank, x)| && Chain(f, rank, x)[j] == ns
  {
    var k: (Name, Dst) := (ns, Some(f.nodes[x].prefix));
    var c, r := Chain(f, rank, x), s.routes[k];
    assert HasRoute(f, rank, on, k, r);
    var y :| y in on && RoutedBy(f, rank, y, ns, r) && f.nodes[y].prefix == f.nodes[x].prefix;
    var i :| 0 <= i < |HopsTo(f, rank, x)| && HopIs(HopsTo(f, rank, x)[i], ns, r);
    assert HopsTo(f, rank, x)[i] == HopAt(f, c, i);
    assert c[i + 2] == ns;
  }

  /** Of its chain, only `x` and its uplink are attached to the subnet of `x`. */
  lemma {:induction false} AttachedPlace(f: Fabric, rank: Rank, x: Name, j: nat)
    requires Sound(f, rank) && IsSwitch(f, x) && j < |Chain(f, rank, x)|
    ensures Attached(f, x, Chain(f, rank, x)[j]) <==> j <= 1
  {
    var c := Chain(f, rank, x);
    ChainLinks(f, rank, x);
    assert UplinkAt(f, c, 0);
    if j > 1 {
      ChainRanks(f, rank, x, 0, j);
      ChainRanks(f, rank, x, 1, j);
      if j < |c| - 1 { assert UplinkAt(f, c, j); }
    }
  }

  /** Connected and static routes to one subnet never meet in a namespace. */
  lemma {:induction false} Unambiguous(f: Fabric, rank: Rank, on: set<Name>, s: State, x: Name, ns: Name)
    requires Running(f, rank, on, s, x) && Space(f, on, ns) && Connected(s, ns, f.nodes[x].prefix)
    ensures (ns, Some(f.nodes[x].prefix)) !in s.routes
  {
    ConnectedIff(f, rank, on, s, x, ns);
    hide Tables, UpClosed, Connected, Sound, Attached, Chain;
    if (ns, Some(f.nodes[x].prefix)) in s.routes {
      StaticAbove(f, rank, on, s, x, ns);
      var j :| 2 <= j < |Chain(f, rank, x)| && Chain(f, rank, x)[j] == ns;
      AttachedPlace(f, rank, x, j);
    }
  }

  // ----- One step ----------------------------------------------------------

  /** Only one device answers for a gateway of the switch `a` on its segment. */
  lemma {:induction false} AnswersIs(f: Fabric, rank: Rank, on: set<Name>, s: State, a: Name, r: Route, d: Dev)
    requires Running(f, rank, on, s, a) && r.gateway.prefix == f.nodes[a].prefix && r.gateway.host in {1, 2}
    requires Live(s, r.dev) && Segment(s, r.dev) == Nb(a)
    ensures Answers(s, r, d) <==> d == if r.gateway.host == 1 then Nd(a) else Nb(a)
    ensures Nd(a) in s.links && s.links[Nd(a)].ns == f.nodes[a].uplink
    ensures Nb(a) in s.links && s.links[Nb(a)].ns == a
  {
    SwitchSegment(f, rank, on, s, a);
    assert Nd(a) in [Nu(a), Nd(a), Nb(a)] && Nb(a) in [Nu(a), Nd(a), Nb(a)];
    hide Tables, Sound, UpClosed, Live, Segment;
    GatewayOf(f, rank, on, s, a, r.gateway.host, d);
    assert r.gateway == Addr(f.nodes[a].prefix, r.gateway.host);
  }

  lemma {:induction false} StepDown(f: Fabric, rank: Rank, on: set<Name>, s: State, x: Name, j: nat, ns': Name)
    requires Running(f, rank, on, s, x) && 2 <= j < |Chain(f, rank, x)|
    requires !Connected(s, Chain(f, rank, x)[j], f.nodes[x].prefix)
    ensures Step(s, f.nodes[x].prefix, Chain(f, rank, x)[j], ns') <==> ns' == Chain(f, rank, x)[j - 1]
  {
    var c := Chain(f, rank, x);
    var a := c[j - 1];
    BestDown(f, rank, on, s, x, j);
    SwitchSegment(f, rank, on, s, a);
    var r := Route(Addr(f.nodes[a].prefix, 2), Nd(a));
    assert Nd(a) in [Nu(a), Nd(a), Nb(a)];
    hide Answers, Tables, Sound, UpClosed, Connected, Best, Live, Segment;
    forall d ensures Answers(s, r, d) <==> d == Nb(a) { AnswersIs(f, rank, on, s, a, r, d); }
    AnswersIs(f, rank, on, s, a, r, Nb(a));
  }

  lemma {:induction false} StepUp(f: Fabric, rank: Rank, on: set<Name>, s: State, x: Name, ns: Name, ns': Name)
    requires Running(f, rank, on, s, x) && ns in on && ns !in Chain(f, rank, x)
    requires !Connected(s, ns, f.nodes[x].prefix)
    ensures Step(s, f.nodes[x].prefix, ns, ns') <==> ns' == NextSpace(f, rank, x, ns)
  {
    BestUp(f, rank, on, s, x, ns);
    var u := f.nodes[ns].uplink;
    var a := if IsSwitch(f, ns) then ns else u;
    TopInChain(f, rank, x);
    assert a in on;
    SwitchSegment(f, rank, on, s, a);
    if a != ns { ClientSegment(f, rank, on, s, a, ns); }
    var r := DefaultOf(f, ns);
    assert r.gateway == Addr(f.nodes[a].prefix, 1) && Live(s, r.dev) && Segment(s, r.dev) == Nb(a);
    hide Answers, Tables, Sound, UpClosed, Connected, Best, Live, Segment;
    forall d ensures Answers(s, r, d) <==> d == Nd(a) { AnswersIs(f, rank, on, s, a, r, d); }
    AnswersIs(f, rank, on, s, a, r, Nd(a));
  }

  /** How far a packet for `x` still has to go from `ns`. */
  ghost function Distance(f: Fabric, rank: Rank, x: Name, ns: Name): nat
    requires Sound(f, rank)
  {
    var c := Chain(f, rank, x);
    if ns in c then var j :| 0 <= j < |c| && c[j] == ns; j
    else |c| + if ns in rank then rank[ns] else 0
  }

  /**
    A namespace that is not connected to the subnet passes the packet on to exactly one other,
    which is closer.
   */
  lemma {:induction false} StepIs(f: Fabric, rank: Rank, on: set<Name>, s: State, x: Name, ns: Name)
    requires Running(f, rank, on, s, x) && Space(f, on, ns) && !Connected(s, ns, f.nodes[x].prefix)
    ensures ns in f.nodes || ns in Chain(f, rank, x)
    ensures var next := NextSpace(f, rank, x, ns);
            && (forall ns' :: Step(s, f.nodes[x].prefix, ns, ns') <==> ns' == next)
            && Space(f, on, next) && Distance(f, rank, x, next) < Distance(f, rank, x, ns)
  {
    var c := Chain(f, rank, x);
    TopInChain(f, rank, x);
    ConnectedIff(f, rank, on, s, x, ns);
    ChainLinks(f, rank, x);
    if ns in c {
      DownCloser(f, rank, on, s, x, ns);
    } else {
      forall ns' ensures Step(s, f.nodes[x].prefix, ns, ns') <==> ns' == NextSpace(f, rank, x, ns) {
        StepUp(f, rank, on, s, x, ns, ns');
      }
      UpCloser(f, rank, on, x, ns);
    }
  }

  lemma {:induction false} PlaceIs(f: Fabric, rank: Rank, x: Name, j: nat)
    requires Sound(f, rank) && x in f.nodes && j < |Chain(f, rank, x)|
    ensures Distance(f, rank, x, Chain(f, rank, x)[j]) == j
    ensures j > 0 ==> NextSpace(f, rank, x, Chain(f, rank, x)[j]) == Chain(f, rank, x)[j - 1]
  {
    forall i | 0 <= i < |Chain(f, rank, x)| && Chain(f, rank, x)[i] == Chain(f, rank, x)[j] ensures i == j {
      ChainPlace(f, rank, x, i, j);
    }
  }

  lemma {:induction false} DownCloser(f: Fabric, rank: Rank, on: set<Name>, s: State, x: Name, ns: Name)
    requires Running(f, rank, on, s, x) && !Connected(s, ns, f.nodes[x].prefix)
    requires ns in Chain(f, rank, x) && Space(f, on, ns)
    ensures var next := NextSpace(f, rank, x, ns);
            && (forall ns' :: Step(s, f.nodes[x].prefix, ns, ns') <==> ns' == next)
            && Space(f, on, next) && Distance(f, rank, x, next) < Distance(f, rank, x, ns)
  {
    var c := Chain(f, rank, x);
    var j :| 0 <= j < |c| && c[j] == ns;
    ConnectedIff(f, rank, on, s, x, ns);
    ChainLinks(f, rank, x);
    assert UplinkAt(f, c, 0);
    assert j >= 2;
    PlaceIs(f, rank, x, j);
    PlaceIs(f, rank, x, j - 1);
    ChainOn(f, rank, on, x, j - 1);
    forall ns' ensures Step(s, f.nodes[x].prefix, ns, ns') <==> ns' == c[j - 1] { StepDown(f, rank, on, s, x, j, ns'); }
  }

  lemma {:induction false} UpCloser(f: Fabric, rank: Rank, on: set<Name>, x: Name, ns: Name)
    requires Sound(f, rank) && UpClosed(f, on) && x in f.nodes && ns in on && ns !in Chain(f, rank, x)
    ensures var next := NextSpace(f, rank, x, ns);
            Space(f, on, next) && Distance(f, rank, x, next) < Distance(f, rank, x, ns)
  {
    var u := f.nodes[ns].uplink;
    assert NodeOk(f, rank, ns) && NodeOk(f, rank, u);
    TopInChain(f, rank, x);
  }

  // ----- Whole ways --------------------------------------------------------

  /** The way a packet for `x` takes from `ns`. */
  ghost function Way(f: Fabric, rank: Rank, on: set<Name>, s: State, x: Name, ns: Name): (path: seq<Name>)
    requires Running(f, rank, on, s, x) && Space(f, on, ns)
    ensures path != [] && path[0] == ns
    decreases Distance(f, rank, x, ns)
  {
    if Connected(s, ns, f.nodes[x].prefix) then [ns]
    else
      StepIs(f, rank, on, s, x, ns);
      [ns] + Way(f, rank, on, s, x, NextSpace(f, rank, x, ns))
  }

  lemma {:induction false} LongerTrace(s: State, p: string, ns: Name, next: Name, rest: seq<Name>)
    requires Step(s, p, ns, next) && Trace(s, p, next, rest)
    ensures Trace(s, p, ns, [ns] + rest)
  {
    hide Step;
    var path := [ns] + rest;
    forall i | 0 < i < |path| ensures Step(s, p, path[i - 1], path[i]) {
      if i > 1 { assert Step(s, p, rest[i - 2], rest[i - 1]); }
    }
  }

  /** One step of the way. */
  lemma {:induction false} WayStep(f: Fabric, rank: Rank, on: set<Name>, s: State, x: Name, ns: Name)
    requires Running(f, rank, on, s, x) && Space(f, on, ns)
    ensures Connected(s, ns, f.nodes[x].prefix) ==> Way(f, rank, on, s, x, ns) == [ns] && Attached(f, x, ns)
    ensures !Connected(s, ns, f.nodes[x].prefix) ==>
      && (ns in f.nodes || ns in Chain(f, rank, x))
      && var next := NextSpace(f, rank, x, ns);
      && Space(f, on, next) && Way(f, rank, on, s, x, ns) == [ns] + Way(f, rank, on, s, x, next)
      && Distance(f, rank, x, next) < Distance(f, rank, x, ns)
      && (forall ns' :: Step(s, f.nodes[x].prefix, ns, ns') <==> ns' == next)
  {
    if Connected(s, ns, f.nodes[x].prefix) {
      ConnectedIff(f, rank, on, s, x, ns);
    } else {
      StepIs(f, rank, on, s, x, ns);
    }
  }

  lemma {:induction false} WayDelivers(f: Fabric, rank: Rank, on: set<Name>, s: State, x: Name, ns: Name)
    requires Running(f, rank, on, s, x) && Space(f, on, ns)
    ensures var way := Way(f, rank, on, s, x, ns);
            Trace(s, f.nodes[x].prefix, ns, way) && Attached(f, x, way[|way| - 1])
    decreases Distance(f, rank, x, ns)
  {
    hide Tables, UpClosed, Connected, Step, Sound, Attached, Chain, NextSpace, Distance, Space, Way;
    WayStep(f, rank, on, s, x, ns);
    if !Connected(s, ns, f.nodes[x].prefix) {
      hide Trace;
      var next := NextSpace(f, rank, x, ns);
      WayDelivers(f, rank, on, s, x, next);
      LongerTrace(s, f.nodes[x].prefix, ns, next, Way(f, rank, on, s, x, next));
    }
  }

  /** Along the way, every namespace is closer than all before it. */
  lemma {:induction false} WayCloser(f: Fabric, rank: Rank, on: set<Name>, s: State, x: Name, ns: Name, i: nat, j: nat)
    requires Running(f, rank, on, s, x) && Space(f, on, ns) && i < j < |Way(f, rank, on, s, x, ns)|
    ensures var way := Way(f, rank, on, s, x, ns); Distance(f, rank, x, way[j]) < Distance(f, rank, x, way[i])
    decreases Distance(f, rank, x, ns)
  {
    hide Tables, UpClosed, Connected, Step, Sound, Chain, NextSpace, Distance, Space, Way, Attached;
    WayStep(f, rank, on, s, x, ns);
    var next := NextSpace(f, rank, x, ns);
    if i > 0 {
      WayCloser(f, rank, on, s, x, next, i - 1, j - 1);
    } else if j > 1 {
      WayCloser(f, rank, on, s, x, next, 0, j - 1);
    }
  }

  lemma {:induction false} StepLeaves(s: State, p: string, ns: Name, ns': Name)
    requires Step(s, p, ns, ns')
    ensures !Connected(s, ns, p)
  {
  }

  lemma {:induction false} ShorterTrace(s: State, p: string, ns: Name, path: seq<Name>)
    requires Trace(s, p, ns, path) && |path| > 1
    ensures Trace(s, p, path[1], path[1..])
  {
    hide Step;
    var rest := path[1..];
    forall i | 0 < i < |rest| ensures Step(s, p, rest[i - 1], rest[i]) {
      assert Step(s, p, path[(i + 1) - 1], path[i + 1]);
    }
  }

  lemma {:induction false} TraceFollows(f: Fabric, rank: Rank, on: set<Name>, s: State, x: Name, ns: Name, path: seq<Name>)
    requires Running(f, rank, on, s, x) && Space(f, on, ns) && Trace(s, f.nodes[x].prefix, ns, path)
    ensures path <= Way(f, rank, on, s, x, ns)
    decreases Distance(f, rank, x, ns)
  {
    var p := f.nodes[x].prefix;
    hide Tables, UpClosed, Sound, Chain, NextSpace, Distance, Way, Space, Attached, Connected, Step;
    WayStep(f, rank, on, s, x, ns);
    if |path| > 1 {
      assert Step(s, p, path[1 - 1], path[1]);
      StepLeaves(s, p, ns, path[1]);
      ShorterTrace(s, p, ns, path);
      hide Trace;
      TraceFollows(f, rank, on, s, x, path[1], path[1..]);
      assert path == [ns] + path[1..];
    }
  }

  /** The one way of a packet: it ends attached to the subnet, visits no namespace twice, and every trace is a part of it. */
  ghost predicate OnlyWay(f: Fabric, s: State, x: Name, ns: Name, way: seq<Name>)
    requires IsSwitch(f, x)
  {
    && Trace(s, f.nodes[x].prefix, ns, way) && Attached(f, x, way[|way| - 1])
    && (forall i, j | 0 <= i < j < |way| :: way[i] != way[j])
    && (forall path | Trace(s, f.nodes[x].prefix, ns, path) :: path <= way)
  }

  lemma {:induction false} WayIsOnly(f: Fabric, rank: Rank, on: set<Name>, s: State, x: Name, ns: Name)
    requires Running(f, rank, on, s, x) && Space(f, on, ns)
    ensures OnlyWay(f, s, x, ns, Way(f, rank, on, s, x, ns))
  {
    WayDelivers(f, rank, on, s, x, ns);
    var way, p := Way(f, rank, on, s, x, ns), f.nodes[x].prefix;
    hide Running, Space, Trace, Attached, Way, Distance;
    forall i, j | 0 <= i < j < |way| ensures way[i] != way[j] { WayCloser(f, rank, on, s, x, ns, i, j); }
    forall path | Trace(s, p, ns, path) ensures path <= way { TraceFollows(f, rank, on, s, x, ns, path); }
  }

  /**
    Any-to-any forwarding: start the nodes of a fabric in any uplink-first order.  From every
    namespace, a packet for the subnet of every switch takes exactly one way; it ends in a namespace
    attached to that subnet and visits none twice.
   */
  lemma {:induction false} AnyToAny(f: Fabric, rank: Rank, order: seq<Name>, x: Name, ns: Name)
    requires Sound(f, rank) && UplinkFirst(f, {}, order) && x in order && IsSwitch(f, x) && (ns in order || ns == f.top)
    ensures forall i | 0 <= i < |order| :: order[i] in f.nodes
    ensures var s := ExecAll(Setups(Plans(f, rank, order)), TopOnly(f.top));
            s.Some? && exists way :: OnlyWay(f, s.value, x, ns, way)
  {
    FabricSetUp(f, rank, order);
    var s, on := ExecAll(Setups(Plans(f, rank, order)), TopOnly(f.top)).value, Named(order);
    hide Tables, UplinkFirst, UpClosed, Setups, Plans, ExecAll, OnlyWay, TopOnly;
    assert Running(f, rank, on, s, x) && Space(f, on, ns);
    WayIsOnly(f, rank, on, s, x, ns);
  }
}
