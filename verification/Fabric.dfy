/**
  A tree of switches under one top that is not a switch, with clients on the
  switches, and the kernel tables it is meant to have.
 */
module Fabric {
  import opened Uplinks
  import opened Kernel
  import opened Setup

  datatype Node = SwitchNode(uplink: Name, prefix: string) | ClientNode(uplink: Name)

  datatype Fabric = Fabric(top: Name, nodes: map<Name, Node>)

  predicate IsSwitch(f: Fabric, x: Name)
  {
    x in f.nodes && f.nodes[x].SwitchNode?
  }

  ghost predicate NodeOk(f: Fabric, rank: Rank, x: Name)
  {
    x in f.nodes ==>
      && var u := f.nodes[x].uplink;
      && x in rank && u in rank && rank[u] < rank[x]
      && (IsSwitch(f, u) || (u == f.top && IsSwitch(f, x)))
  }

  ghost predicate DistinctPrefixes(f: Fabric)
  {
    forall x, y | IsSwitch(f, x) && IsSwitch(f, y) && x != y :: f.nodes[x].prefix != f.nodes[y].prefix
  }

  /** Uplinks lead through switches to the top, and the subnets are pairwise distinct. */
  ghost predicate Sound(f: Fabric, rank: Rank)
  {
    f.top !in f.nodes && (forall x :: NodeOk(f, rank, x)) && DistinctPrefixes(f)
  }

  // ----- Chains ------------------------------------------------------------

  /** The names from `x` up to the top. */
  ghost function Chain(f: Fabric, rank: Rank, x: Name): (c: seq<Name>)
    requires Sound(f, rank)
    ensures c != [] && c[0] == x
    decreases if x in rank then rank[x] else 0
  {
    assert NodeOk(f, rank, x);
    if x in f.nodes then [x] + Chain(f, rank, f.nodes[x].uplink) else [x]
  }

  ghost predicate UplinkAt(f: Fabric, c: seq<Name>, i: nat)
    requires i + 1 < |c|
  {
    c[i] in f.nodes && f.nodes[c[i]].uplink == c[i + 1] && (i > 0 ==> IsSwitch(f, c[i]))
  }

  lemma {:induction false} ChainLinks(f: Fabric, rank: Rank, x: Name)
    requires Sound(f, rank) && (x in f.nodes || x == f.top)
    ensures var c := Chain(f, rank, x);
            && c[|c| - 1] == f.top
            && (x in f.nodes ==> |c| >= 2)
            && (forall i | 0 <= i < |c| - 1 :: UplinkAt(f, c, i))
    decreases if x in rank then rank[x] else 0
  {
    assert NodeOk(f, rank, x);
    if x in f.nodes {
      var u := f.nodes[x].uplink;
      ChainLinks(f, rank, u);
      var c, c' := Chain(f, rank, x), Chain(f, rank, u);
      assert c == [x] + c';
      forall i | 0 <= i < |c| - 1 ensures UplinkAt(f, c, i) {
        if i > 0 { assert UplinkAt(f, c', i - 1); }
      }
    }
  }

  lemma {:induction false} ChainRanks(f: Fabric, rank: Rank, x: Name, i: nat, j: nat)
    requires Sound(f, rank) && (x in f.nodes || x == f.top) && i < j < |Chain(f, rank, x)|
    ensures var c := Chain(f, rank, x); c[i] in rank && c[j] in rank && rank[c[j]] < rank[c[i]]
    decreases j
  {
    ChainLinks(f, rank, x);
    var c := Chain(f, rank, x);
    assert UplinkAt(f, c, j - 1);
    assert NodeOk(f, rank, c[j - 1]);
    if i < j - 1 { ChainRanks(f, rank, x, i, j - 1); }
  }

  // ----- Plans -------------------------------------------------------------

  ghost function HopAt(f: Fabric, c: seq<Name>, i: nat): Hop
    requires i + 2 < |c| && IsSwitch(f, c[i + 1])
  {
    Hop(c[i + 2], Addr(f.nodes[c[i + 1]].prefix, 2), Nd(c[i + 1]))
  }

  /** The routes to the subnet of `x`: in the uplink of each switch above `x`, through that switch. */
  ghost function HopsTo(f: Fabric, rank: Rank, x: Name): (hops: seq<Hop>)
    requires Sound(f, rank) && IsSwitch(f, x)
    ensures var c := Chain(f, rank, x);
            |c| >= 2 && |hops| == |c| - 2 && forall i | 0 <= i < |hops| :: IsSwitch(f, c[i + 1]) && hops[i] == HopAt(f, c, i)
  {
    ChainLinks(f, rank, x);
    var c := Chain(f, rank, x);
    assert forall i | 0 < i < |c| - 1 :: UplinkAt(f, c, i) && IsSwitch(f, c[i]);
    seq(|c| - 2, i requires 0 <= i < |c| - 2 => HopAt(f, c, i))
  }

  ghost function PlanFor(f: Fabric, rank: Rank, x: Name): Plan
    requires Sound(f, rank) && x in f.nodes
  {
    assert NodeOk(f, rank, x);
    match f.nodes[x]
    case SwitchNode(u, p) => SwitchPlan(u, p, HopsTo(f, rank, x))
    case ClientNode(u) => ClientPlan(u, f.nodes[u].prefix)
  }

  // ----- Tables ------------------------------------------------------------

  ghost function LinkOf(f: Fabric, d: Dev): Link
    requires d.owner in f.nodes
  {
    var x := d.owner;
    var u := f.nodes[x].uplink;
    match d
    case Nu(_) => Link(x, true, if IsSwitch(f, x) then Some(Nb(x)) else None)
    case Nd(_) => Link(u, true, if IsSwitch(f, x) then None else Some(Nb(u)))
    case Nb(_) => Link(x, true, None)
  }

  ghost predicate HasDev(f: Fabric, on: set<Name>, d: Dev)
  {
    d.owner in on && (d.Nb? ==> IsSwitch(f, d.owner))
  }

  ghost predicate HasAddr(f: Fabric, on: set<Name>, q: (Dev, Addr))
  {
    var x := q.0.owner;
    && x in on && x in f.nodes
    && match f.nodes[x]
       case SwitchNode(_, p) => q == (Nd(x), Addr(p, 1)) || q == (Nb(x), Addr(p, 2))
       case ClientNode(u) => IsSwitch(f, u) && q == (Nu(x), Addr(f.nodes[u].prefix, 3))
  }

  ghost function DefaultOf(f: Fabric, x: Name): Route
    requires x in f.nodes && (IsSwitch(f, x) || IsSwitch(f, f.nodes[x].uplink))
  {
    match f.nodes[x]
    case SwitchNode(_, p) => Route(Addr(p, 1), Nb(x))
    case ClientNode(u) => Route(Addr(f.nodes[u].prefix, 1), Nu(x))
  }

  /** Switch `y` has a route to its subnet in `ns`. */
  ghost predicate RoutedBy(f: Fabric, rank: Rank, y: Name, ns: Name, r: Route)
    requires Sound(f, rank)
  {
    IsSwitch(f, y) && exists i :: 0 <= i < |HopsTo(f, rank, y)| && HopIs(HopsTo(f, rank, y)[i], ns, r)
  }

  ghost predicate HopIs(h: Hop, ns: Name, r: Route)
  {
    h.ns == ns && r == Route(h.gateway, h.dev)
  }

  ghost predicate HasRoute(f: Fabric, rank: Rank, on: set<Name>, k: (Name, Dst), r: Route)
    requires Sound(f, rank)
  {
    match k.1
    case None => k.0 in on && k.0 in f.nodes && (assert NodeOk(f, rank, k.0); r == DefaultOf(f, k.0))
    case Some(p) => exists y :: y in on && RoutedBy(f, rank, y, k.0, r) && f.nodes[y].prefix == p
  }

  /** The kernel state is exactly that of the nodes in `on`, set up. */
  ghost predicate Tables(f: Fabric, rank: Rank, on: set<Name>, s: State)
    requires Sound(f, rank)
  {
    && on <= f.nodes.Keys
    && s.mounts == on + {f.top}
    && (forall d :: d in s.links <==> HasDev(f, on, d))
    && (forall d | d in s.links :: s.links[d] == LinkOf(f, d))
    && (forall q :: q in s.addrs <==> HasAddr(f, on, q))
    && (forall k | k in s.routes :: HasRoute(f, rank, on, k, s.routes[k]))
    && (forall k, r | HasRoute(f, rank, on, k, r) :: k in s.routes && s.routes[k] == r)
  }

  /** The tables determine the state: the order in which nodes were started does not matter. */
  lemma {:induction false} TablesUnique(f: Fabric, rank: Rank, on: set<Name>, s: State, s': State)
    requires Sound(f, rank) && Tables(f, rank, on, s) && Tables(f, rank, on, s')
    ensures s == s'
  {
    assert s.links == s'.links;
    assert s.addrs == s'.addrs;
    forall k ensures k in s.routes <==> k in s'.routes
             ensures k in s.routes ==> s.routes[k] == s'.routes[k]
    {
      if k in s.routes { assert HasRoute(f, rank, on, k, s.routes[k]); }
      if k in s'.routes { assert HasRoute(f, rank, on, k, s'.routes[k]); }
    }
    assert s.routes == s'.routes;
  }
}
