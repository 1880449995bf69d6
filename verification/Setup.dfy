/**
  What an entity daemon does to the kernel when its network component is added,
  as actions that each register their own undo.
 */
module Setup {
  import opened Uplinks
  import opened Kernel

  /** Commands, and the cleanup that is registered for them. */
  datatype Action = Action(does: seq<Command>, undo: Command)

  /** A route to install in an ancestor: there, via that gateway, out of that device. */
  datatype Hop = Hop(ns: Name, gateway: Addr, dev: Dev)

  datatype Plan =
    | RootPlan
    | SwitchPlan(uplink: Name, prefix: string, hops: seq<Hop>)
    | ClientPlan(uplink: Name, prefix: string)

  function MountAction(n: Name): Action
  {
    Action([Mount(n)], Umount(n))
  }

  /** `setup_interfaces` */
  function VethAction(n: Name): Action
  {
    Action([AddVeth(n), SetUp(Nu(n))], Del(Nu(n)))
  }

  /** `setup_bridge` */
  function BridgeAction(n: Name): Action
  {
    Action([AddBridge(n), SetUp(Nb(n)), SetMaster(Nu(n), Nb(n))], Del(Nb(n)))
  }

  function RouteAction(prefix: string, h: Hop): Action
  {
    Action([RouteAdd(h.ns, Some(prefix), Route(h.gateway, h.dev))], RouteDel(h.ns, Some(prefix)))
  }

  function RouteActions(prefix: string, hops: seq<Hop>): (r: seq<Action>)
    ensures |r| == |hops| && forall i | 0 <= i < |r| :: r[i] == RouteAction(prefix, hops[i])
    decreases |hops|
  {
    if hops == [] then [] else [RouteAction(prefix, hops[0])] + RouteActions(prefix, hops[1..])
  }

  function AddrAction(d: Dev, a: Addr): Action
  {
    Action([AddrAdd(d, a)], AddrDel(d, a))
  }

  function UpAction(d: Dev): Action
  {
    Action([SetUp(d)], SetDown(d))
  }

  function DefaultAction(n: Name, r: Route): Action
  {
    Action([RouteAdd(n, None, r)], RouteDel(n, None))
  }

  /** `connect` */
  function ConnectActions(n: Name, plan: Plan): seq<Action>
  {
    match plan
    case RootPlan => []
    case SwitchPlan(u, p, hops) =>
      [Action([Move(Nd(n), u)], Move(Nd(n), n)), AddrAction(Nd(n), Addr(p, 1))]
      + RouteActions(p, hops)
      + [UpAction(Nd(n)), AddrAction(Nb(n), Addr(p, 2)), DefaultAction(n, Route(Addr(p, 1), Nb(n)))]
    case ClientPlan(u, p) =>
      [Action([Move(Nd(n), u), SetMaster(Nd(n), Nb(u))], Move(Nd(n), n)), UpAction(Nd(n)),
       AddrAction(Nu(n), Addr(p, 3)), DefaultAction(n, Route(Addr(p, 1), Nu(n)))]
  }

  /** What `add_network` registers in `cleanups`. */
  function LocalActions(n: Name, plan: Plan): seq<Action>
  {
    match plan
    case RootPlan => [MountAction(n)]
    case SwitchPlan(_, _, _) => [MountAction(n), VethAction(n), BridgeAction(n)]
    case ClientPlan(_, _) => [MountAction(n), VethAction(n)]
  }

  /** `add_network` */
  function NetworkActions(n: Name, plan: Plan): seq<Action>
  {
    LocalActions(n, plan) + ConnectActions(n, plan)
  }

  function Does(actions: seq<Action>): seq<Command>
    decreases |actions|
  {
    if actions == [] then [] else actions[0].does + Does(actions[1..])
  }

  function Undos(actions: seq<Action>): (r: seq<Command>)
    ensures |r| == |actions| && forall i | 0 <= i < |r| :: r[i] == actions[i].undo
    decreases |actions|
  {
    if actions == [] then [] else [actions[0].undo] + Undos(actions[1..])
  }

  lemma {:induction false} DoesConcat(a: seq<Action>, b: seq<Action>)
    ensures Does(a + b) == Does(a) + Does(b)
    decreases |a|
  {
    if a == [] {
      assert a + b == b;
    } else {
      assert (a + b)[0] == a[0] && (a + b)[1..] == a[1..] + b;
      DoesConcat(a[1..], b);
    }
  }

  lemma {:induction false} UndosConcat(a: seq<Action>, b: seq<Action>)
    ensures Undos(a + b) == Undos(a) + Undos(b)
  {
    assert forall i | 0 <= i < |a + b| :: (a + b)[i] == if i < |a| then a[i] else b[i - |a|];
  }
}
