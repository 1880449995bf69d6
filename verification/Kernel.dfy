/**
  The kernel state that entity daemons edit with `ip`: namespaces, links,
  addresses and routes.  A command fails, and changes nothing, when what it
  names is missing or already there.  Mounting the name of a namespace replaces a stale mount.
 */
module Kernel {
  import opened Uplinks

  /** The devices of an entity: its end of the veth pair, the peer, and its bridge. */
  datatype Dev = Nu(owner: Name) | Nd(owner: Name) | Nb(owner: Name)

  /** A host address in a /24 subnet. */
  datatype Addr = Addr(prefix: string, host: nat)

  datatype Link = Link(ns: Name, up: bool, master: Option<Dev>)

  datatype Route = Route(gateway: Addr, dev: Dev)

  /** A destination: a /24 subnet, or None for the default route. */
  type Dst = Option<string>

  datatype State = State(
    mounts: set<Name>,
    links: map<Dev, Link>,
    addrs: set<(Dev, Addr)>,
    routes: map<(Name, Dst), Route>)

  datatype Command =
    | Mount(ns: Name)
    | Umount(ns: Name)
    | AddVeth(owner: Name)
    | AddBridge(owner: Name)
    | Del(dev: Dev)
    | SetUp(dev: Dev)
    | SetDown(dev: Dev)
    | SetMaster(dev: Dev, bridge: Dev)
    | Move(dev: Dev, ns: Name)
    | AddrAdd(dev: Dev, addr: Addr)
    | AddrDel(dev: Dev, addr: Addr)
    | RouteAdd(ns: Name, dst: Dst, route: Route)
    | RouteDel(ns: Name, dst: Dst)

  /** Deleting one end of a veth pair deletes the other. */
  function Removed(dev: Dev): set<Dev>
  {
    match dev
    case Nu(n) => {Nu(n), Nd(n)}
    case Nd(n) => {Nu(n), Nd(n)}
    case Nb(n) => {Nb(n)}
  }

  function DropRoutes(routes: map<(Name, Dst), Route>, devs: set<Dev>): map<(Name, Dst), Route>
  {
    map k | k in routes && routes[k].dev !in devs :: routes[k]
  }

  function DropAddrs(addrs: set<(Dev, Addr)>, devs: set<Dev>): set<(Dev, Addr)>
  {
    set p | p in addrs && p.0 !in devs
  }

  function Release(l: Link, devs: set<Dev>): Link
  {
    if l.master.Some? && l.master.value in devs then l.(master := None) else l
  }

  function DropLinks(links: map<Dev, Link>, devs: set<Dev>): map<Dev, Link>
  {
    map d | d in links && d !in devs :: Release(links[d], devs)
  }

  /** A route is accepted if its gateway is on a subnet of a device that is up in the namespace. */
  predicate OnLink(s: State, ns: Name, r: Route)
  {
    && r.dev in s.links && s.links[r.dev].ns == ns && s.links[r.dev].up
    && exists p | p in s.addrs :: p.0 == r.dev && p.1.prefix == r.gateway.prefix
  }

  function Exec(c: Command, s: State): Option<State>
  {
    match c
    case Mount(n) => Some(s.(mounts := s.mounts + {n}))
    case Umount(n) => if n in s.mounts then Some(s.(mounts := s.mounts - {n})) else None
    case AddVeth(n) =>
      if Nu(n) in s.links || Nd(n) in s.links then None
      else Some(s.(links := s.links[Nu(n) := Link(n, false, None)][Nd(n) := Link(n, false, None)]))
    case AddBridge(n) =>
      if Nb(n) in s.links then None else Some(s.(links := s.links[Nb(n) := Link(n, false, None)]))
    case Del(d) =>
      if d !in s.links then None
      else Some(s.(links := DropLinks(s.links, Removed(d)), addrs := DropAddrs(s.addrs, Removed(d)),
                   routes := DropRoutes(s.routes, Removed(d))))
    case SetUp(d) =>
      if d !in s.links then None else Some(s.(links := s.links[d := s.links[d].(up := true)]))
    case SetDown(d) =>
      if d !in s.links then None
      else Some(s.(links := s.links[d := s.links[d].(up := false)], routes := DropRoutes(s.routes, {d})))
    case SetMaster(d, b) =>
      if d !in s.links || b !in s.links || s.links[d].ns != s.links[b].ns then None
      else Some(s.(links := s.links[d := s.links[d].(master := Some(b))]))
    case Move(d, n) =>
      if d !in s.links || n !in s.mounts then None
      else Some(s.(links := s.links[d := Link(n, false, None)], addrs := DropAddrs(s.addrs, {d}),
                   routes := DropRoutes(s.routes, {d})))
    case AddrAdd(d, a) =>
      if d !in s.links || (d, a) in s.addrs then None else Some(s.(addrs := s.addrs + {(d, a)}))
    case AddrDel(d, a) =>
      if (d, a) in s.addrs then Some(s.(addrs := s.addrs - {(d, a)})) else None
    case RouteAdd(n, dst, r) =>
      if (n, dst) in s.routes || !OnLink(s, n, r) then None else Some(s.(routes := s.routes[(n, dst) := r]))
    case RouteDel(n, dst) =>
      if (n, dst) in s.routes then Some(s.(routes := s.routes - {(n, dst)})) else None
  }

  /** Commands in order, stopping at the first failure. */
  function ExecAll(cs: seq<Command>, s: State): Option<State>
    decreases |cs|
  {
    if cs == [] then Some(s)
    else
      match Exec(cs[0], s)
      case None => None
      case Some(s') => ExecAll(cs[1..], s')
  }

  lemma {:induction false} ExecConcat(a: seq<Command>, b: seq<Command>, s: State)
    ensures ExecAll(a + b, s) ==
      match ExecAll(a, s)
      case None => None
      case Some(s') => ExecAll(b, s')
    decreases |a|
  {
    if a == [] {
      assert a + b == b;
    } else {
      assert (a + b)[0] == a[0] && (a + b)[1..] == a[1..] + b;
      match Exec(a[0], s) {
        case None =>
        case Some(s1) => ExecConcat(a[1..], b, s1);
      }
    }
  }

  /** Addresses, routes and masters refer to devices that exist. */
  ghost predicate WellFormed(s: State)
  {
    && (forall p | p in s.addrs :: p.0 in s.links)
    && (forall k | k in s.routes :: s.routes[k].dev in s.links)
    && (forall d | d in s.links && s.links[d].master.Some? :: s.links[d].master.value in s.links)
    && (forall n: Name :: Nu(n) in s.links <==> Nd(n) in s.links)
  }

  lemma {:induction false} ExecWellFormed(c: Command, s: State)
    requires WellFormed(s) && Exec(c, s).Some?
    ensures WellFormed(Exec(c, s).value)
  {
  }
}
