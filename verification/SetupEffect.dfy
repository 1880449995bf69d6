/**
  With its uplinks up, setting up a node of a fabric always succeeds and adds
  exactly its part of the tables.
 */
module SetupEffect {
  import opened Uplinks
  import opened Kernel
  import opened Setup
  import opened Undo

  // ----- What the scripts compute ------------------------------------------

  /** No device, address or route of `n` is there. */
  ghost predicate Absent(n: Name, s: State)
  {
    && (forall d: Dev | d.owner == n :: d !in s.links)
    && (forall q | q in s.addrs :: q.0.owner != n)
    && (forall k | k in s.routes :: s.routes[k].dev.owner != n)
    && (n, None) !in s.routes
  }

  lemma {:induction false} Thrice(c: Command, d: Command, e: Command, s: State, s1: State, s2: State)
    requires Exec(c, s) == Some(s1) && Exec(d, s1) == Some(s2)
    ensures ExecAll([c, d, e], s) == Exec(e, s2)
  {
    assert [c, d, e] == [c] + [d, e];
    ExecConcat([c], [d, e], s);
    Once(c, s);
    Twice(d, e, s1);
  }

  ghost function WithVeth(n: Name, s: State): State
  {
    s.(mounts := s.mounts + {n}, links := s.links[Nu(n) := Link(n, true, None)][Nd(n) := Link(n, false, None)])
  }

  ghost function WithBridge(n: Name, s: State): State
  {
    s.(links := s.links[Nb(n) := Link(n, true, None)][Nu(n) := Link(n, true, Some(Nb(n)))])
  }

  lemma {:induction false} VethRun(n: Name, s: State)
    requires Absent(n, s)
    ensures ExecAll([Mount(n), AddVeth(n), SetUp(Nu(n))], s) == Some(WithVeth(n, s))
  {
    var s1 := Exec(Mount(n), s).value;
    var s2 := Exec(AddVeth(n), s1).value;
    Thrice(Mount(n), AddVeth(n), SetUp(Nu(n)), s, s1, s2);
    assert Exec(SetUp(Nu(n)), s2).value.links == WithVeth(n, s).links;
  }

  lemma {:induction false} BridgeRun(n: Name, s: State)
    requires Nb(n) !in s.links && Nu(n) in s.links && s.links[Nu(n)] == Link(n, true, None)
    ensures ExecAll(BridgeAction(n).does, s) == Some(WithBridge(n, s))
  {
    var s1 := Exec(AddBridge(n), s).value;
    var s2 := Exec(SetUp(Nb(n)), s1).value;
    Thrice(AddBridge(n), SetUp(Nb(n)), SetMaster(Nu(n), Nb(n)), s, s1, s2);
    assert Exec(SetMaster(Nu(n), Nb(n)), s2).value.links == WithBridge(n, s).links;
  }

  /** The downlink device moved to `u`, with that master. */
  ghost function Moved(n: Name, u: Name, up: bool, master: Option<Dev>, s: State): State
  {
    s.(links := s.links[Nd(n) := Link(u, up, master)])
  }

  lemma {:induction false} MoveRun(n: Name, u: Name, s: State)
    requires Idle(n, n, s) && u in s.mounts
    ensures Exec(Move(Nd(n), u), s) == Some(Moved(n, u, false, None, s))
  {
    DropNothing(s, {Nd(n)});
  }

  ghost function AddRoutes(routes: map<(Name, Dst), Route>, p: string, hops: seq<Hop>): map<(Name, Dst), Route>
    decreases |hops|
  {
    if hops == [] then routes
    else AddRoutes(routes[(hops[0].ns, Some(p)) := Route(hops[0].gateway, hops[0].dev)], p, hops[1..])
  }

  ghost predicate DistinctSpaces(hops: seq<Hop>)
  {
    forall i, j | 0 <= i < j < |hops| :: hops[i].ns != hops[j].ns
  }

  /** Every route can be installed. */
  ghost predicate Installable(s: State, p: string, hops: seq<Hop>)
  {
    && DistinctSpaces(hops)
    && forall i | 0 <= i < |hops| ::
         (hops[i].ns, Some(p)) !in s.routes && OnLink(s, hops[i].ns, Route(hops[i].gateway, hops[i].dev))
  }

  lemma {:induction false} RoutesRun(p: string, hops: seq<Hop>, s: State)
    requires Installable(s, p, hops)
    ensures ExecAll(Does(RouteActions(p, hops)), s) == Some(s.(routes := AddRoutes(s.routes, p, hops)))
    decreases |hops|
  {
    if hops != [] {
      var h := hops[0];
      var c := RouteAdd(h.ns, Some(p), Route(h.gateway, h.dev));
      var actions := RouteActions(p, hops);
      assert actions[1..] == RouteActions(p, hops[1..]);
      ExecConcat([c], Does(actions[1..]), s);
      Once(c, s);
      var s1 := Exec(c, s).value;
      forall i | 0 <= i < |hops[1..]|
        ensures (hops[1..][i].ns, Some(p)) !in s1.routes
        ensures OnLink(s1, hops[1..][i].ns, Route(hops[1..][i].gateway, hops[1..][i].dev))
      {
        assert hops[1..][i] == hops[i + 1];
        assert OnLink(s, hops[i + 1].ns, Route(hops[i + 1].gateway, hops[i + 1].dev));
      }
      RoutesRun(p, hops[1..], s1);
    }
  }

  /** What is in the table after installing routes. */
  lemma {:induction false} AddRoutesTable(routes: map<(Name, Dst), Route>, p: string, hops: seq<Hop>, k: (Name, Dst))
    requires DistinctSpaces(hops)
    ensures k in AddRoutes(routes, p, hops) <==>
            k in routes || (k.1 == Some(p) && exists i :: 0 <= i < |hops| && hops[i].ns == k.0)
    ensures k in AddRoutes(routes, p, hops) && !(k.1 == Some(p) && exists i :: 0 <= i < |hops| && hops[i].ns == k.0)
            ==> AddRoutes(routes, p, hops)[k] == routes[k]
    ensures forall i | 0 <= i < |hops| && k == (hops[i].ns, Some(p)) ::
              k in AddRoutes(routes, p, hops) && AddRoutes(routes, p, hops)[k] == Route(hops[i].gateway, hops[i].dev)
    decreases |hops|
  {
    if hops != [] {
      var routes1 := routes[(hops[0].ns, Some(p)) := Route(hops[0].gateway, hops[0].dev)];
      var rest := hops[1..];
      assert forall i | 0 < i < |hops| :: hops[i] == rest[i - 1];
      AddRoutesTable(routes1, p, rest, k);
    }
  }

  lemma {:induction false} Then(xs: seq<Action>, ys: seq<Action>, s: State, s1: State)
    requires ExecAll(Does(xs), s) == Some(s1)
    ensures ExecAll(Does(xs + ys), s) == ExecAll(Does(ys), s1)
  {
    DoesConcat(xs, ys);
    ExecConcat(Does(xs), Does(ys), s);
  }

  lemma {:induction false} ThenOne(c: Command, undo: Command, ys: seq<Action>, s: State, s1: State)
    requires Exec(c, s) == Some(s1)
    ensures ExecAll(Does([Action([c], undo)] + ys), s) == ExecAll(Does(ys), s1)
  {
    var x := Action([c], undo);
    assert [x][1..] == [] && Does([x]) == [c];
    Once(c, s);
    Then([x], ys, s, s1);
  }

  /** The end of connecting: downlink device up, own address, default route. */
  lemma {:induction false} TailRun(d: Dev, own: Dev, a: Addr, n: Name, r: Route, s: State)
    requires d in s.links && own in s.links && d != own && (own, a) !in s.addrs && (n, None) !in s.routes
    requires r.dev == own && r.gateway.prefix == a.prefix && s.links[own].ns == n && s.links[own].up
    ensures ExecAll(Does([UpAction(d), AddrAction(own, a), DefaultAction(n, r)]), s) ==
            Some(State(s.mounts, s.links[d := s.links[d].(up := true)], s.addrs + {(own, a)}, s.routes[(n, None) := r]))
  {
    var x, y, z := UpAction(d), AddrAction(own, a), DefaultAction(n, r);
    var s1 := Exec(SetUp(d), s).value;
    var s2 := Exec(AddrAdd(own, a), s1).value;
    assert (own, a) in s2.addrs;
    assert OnLink(s2, n, r);
    var s3 := Exec(RouteAdd(n, None, r), s2).value;
    assert [x, y, z] == [x] + ([y] + ([z] + []));
    ThenOne(SetUp(d), SetDown(d), [y] + ([z] + []), s, s1);
    ThenOne(AddrAdd(own, a), AddrDel(own, a), [z] + [], s1, s2);
    ThenOne(RouteAdd(n, None, r), RouteDel(n, None), [], s2, s3);
  }

  /** The state after a switch has been set up. */
  ghost function SwitchState(n: Name, u: Name, p: string, hops: seq<Hop>, s: State): State
  {
    State(s.mounts + {n},
          s.links[Nu(n) := Link(n, true, Some(Nb(n)))][Nd(n) := Link(u, true, None)][Nb(n) := Link(n, true, None)],
          s.addrs + {(Nd(n), Addr(p, 1)), (Nb(n), Addr(p, 2))},
          AddRoutes(s.routes, p, hops)[(n, None) := Route(Addr(p, 1), Nb(n))])
  }

  ghost function ClientState(n: Name, u: Name, p: string, s: State): State
  {
    State(s.mounts + {n},
          s.links[Nu(n) := Link(n, true, None)][Nd(n) := Link(u, true, Some(Nb(u)))],
          s.addrs + {(Nu(n), Addr(p, 3))},
          s.routes[(n, None) := Route(Addr(p, 1), Nu(n))])
  }

  lemma {:induction false} SwitchLocalRun(n: Name, u: Name, p: string, hops: seq<Hop>, s: State)
    requires Absent(n, s)
    ensures ExecAll(Does(LocalActions(n, SwitchPlan(u, p, hops))), s) == Some(WithBridge(n, WithVeth(n, s)))
  {
    var m, v, b := MountAction(n), VethAction(n), BridgeAction(n);
    LocalShape(n, SwitchPlan(u, p, hops), s);
    assert m.does + (v.does + b.does) == [Mount(n), AddVeth(n), SetUp(Nu(n))] + b.does;
    VethRun(n, s);
    ExecConcat([Mount(n), AddVeth(n), SetUp(Nu(n))], b.does, s);
    BridgeRun(n, WithVeth(n, s));
  }

  lemma {:induction false} ClientLocalRun(n: Name, u: Name, p: string, s: State)
    requires Absent(n, s)
    ensures ExecAll(Does(LocalActions(n, ClientPlan(u, p))), s) == Some(WithVeth(n, s))
  {
    LocalShape(n, ClientPlan(u, p), s);
    assert MountAction(n).does + VethAction(n).does == [Mount(n), AddVeth(n), SetUp(Nu(n))];
    VethRun(n, s);
  }

  /** Routes through other devices can be installed after the devices of `n` have been made and moved. */
  lemma {:induction false} StillInstallable(n: Name, p: string, hops: seq<Hop>, s: State, s': State)
    requires Installable(s, p, hops) && forall i | 0 <= i < |hops| :: hops[i].dev.owner != n
    requires s'.routes == s.routes && s.addrs <= s'.addrs
    requires forall d: Dev | d.owner != n && d in s.links :: d in s'.links && s'.links[d] == s.links[d]
    ensures Installable(s', p, hops)
  {
    forall i | 0 <= i < |hops|
      ensures OnLink(s', hops[i].ns, Route(hops[i].gateway, hops[i].dev))
    {
      assert OnLink(s, hops[i].ns, Route(hops[i].gateway, hops[i].dev));
    }
  }

  /** The devices of `n` are there, down in its own namespace, and not yet used. */
  ghost predicate Ready(n: Name, s: State)
  {
    && Idle(n, n, s) && Nb(n) in s.links && s.links[Nb(n)] == Link(n, true, None)
    && (forall q | q in s.addrs :: q.0.owner != n) && (n, None) !in s.routes
  }

  lemma {:induction false} LocalReady(n: Name, s: State)
    requires Absent(n, s)
    ensures Ready(n, WithBridge(n, WithVeth(n, s)))
  {
  }

  /** After the move and the address of the downlink device. */
  ghost function Attached(n: Name, u: Name, p: string, s: State): State
  {
    var s2 := Moved(n, u, false, None, s);
    s2.(addrs := s2.addrs + {(Nd(n), Addr(p, 1))})
  }

  lemma {:induction false} AttachRun(n: Name, u: Name, p: string, s: State, rest: seq<Action>)
    requires Ready(n, s) && u in s.mounts
    ensures ExecAll(Does([Action([Move(Nd(n), u)], Move(Nd(n), n))] + ([AddrAction(Nd(n), Addr(p, 1))] + rest)), s) ==
            ExecAll(Does(rest), Attached(n, u, p, s))
  {
    MoveRun(n, u, s);
    var s2 := Moved(n, u, false, None, s);
    assert Exec(AddrAdd(Nd(n), Addr(p, 1)), s2) == Some(Attached(n, u, p, s));
    hide Exec;
    ThenOne(Move(Nd(n), u), Move(Nd(n), n), [AddrAction(Nd(n), Addr(p, 1))] + rest, s, s2);
    ThenOne(AddrAdd(Nd(n), Addr(p, 1)), AddrDel(Nd(n), Addr(p, 1)), rest, s2, Attached(n, u, p, s));
  }

  lemma {:induction false} SwitchConnectRun(n: Name, u: Name, p: string, hops: seq<Hop>, s: State)
    requires Ready(n, s) && u in s.mounts && Installable(Attached(n, u, p, s), p, hops)
    ensures var s3 := Attached(n, u, p, s);
            ExecAll(Does(ConnectActions(n, SwitchPlan(u, p, hops))), s) ==
            Some(State(s3.mounts, s3.links[Nd(n) := s3.links[Nd(n)].(up := true)], s3.addrs + {(Nb(n), Addr(p, 2))},
                       AddRoutes(s3.routes, p, hops)[(n, None) := Route(Addr(p, 1), Nb(n))]))
  {
    var move, addr := Action([Move(Nd(n), u)], Move(Nd(n), n)), AddrAction(Nd(n), Addr(p, 1));
    var routes := RouteActions(p, hops);
    var tail := [UpAction(Nd(n)), AddrAction(Nb(n), Addr(p, 2)), DefaultAction(n, Route(Addr(p, 1), Nb(n)))];
    assert ConnectActions(n, SwitchPlan(u, p, hops)) == [move] + ([addr] + (routes + tail));
    hide Exec, ExecAll, Does;
    AttachRun(n, u, p, s, routes + tail);
    var s3 := Attached(n, u, p, s);
    RoutesRun(p, hops, s3);
    var s4 := s3.(routes := AddRoutes(s3.routes, p, hops));
    assert (n, None) !in s4.routes by { AddRoutesTable(s3.routes, p, hops, (n, None)); }
    TailRun(Nd(n), Nb(n), Addr(p, 2), n, Route(Addr(p, 1), Nb(n)), s4);
    Then(routes, tail, s3, s4);
  }

  /** Setting up a switch succeeds, and does this. */
  lemma {:induction false} SwitchRun(n: Name, u: Name, p: string, hops: seq<Hop>, s: State)
    requires Absent(n, s) && u in s.mounts && Installable(s, p, hops)
    requires forall i | 0 <= i < |hops| :: hops[i].dev.owner != n
    ensures ExecAll(Does(NetworkActions(n, SwitchPlan(u, p, hops))), s) == Some(SwitchState(n, u, p, hops, s))
  {
    var plan := SwitchPlan(u, p, hops);
    var s1 := WithBridge(n, WithVeth(n, s));
    LocalReady(n, s);
    SwitchLocalRun(n, u, p, hops, s);
    StillInstallable(n, p, hops, s, Attached(n, u, p, s1));
    SwitchStateIs(n, u, p, hops, s);
    hide Exec, ExecAll, Does, LocalActions, ConnectActions, Ready, Installable, Absent;
    Then(LocalActions(n, plan), ConnectActions(n, plan), s, s1);
    SwitchConnectRun(n, u, p, hops, s1);
  }

  lemma {:induction false} SwitchStateIs(n: Name, u: Name, p: string, hops: seq<Hop>, s: State)
    ensures var s2 := Moved(n, u, false, None, WithBridge(n, WithVeth(n, s)));
            && s2.links[Nd(n) := s2.links[Nd(n)].(up := true)] == SwitchState(n, u, p, hops, s).links
            && s2.addrs + {(Nd(n), Addr(p, 1))} + {(Nb(n), Addr(p, 2))} == SwitchState(n, u, p, hops, s).addrs
  {
  }

  lemma {:induction false} EnslaveRun(n: Name, u: Name, s: State)
    requires Idle(n, n, s) && u in s.mounts && Nb(u) in s.links && s.links[Nb(u)].ns == u
    ensures ExecAll([Move(Nd(n), u), SetMaster(Nd(n), Nb(u))], s) == Some(Moved(n, u, false, Some(Nb(u)), s))
  {
    MoveRun(n, u, s);
    var s2, s3 := Moved(n, u, false, None, s), Moved(n, u, false, Some(Nb(u)), s);
    assert Exec(SetMaster(Nd(n), Nb(u)), s2).value.links == s3.links;
    Twice(Move(Nd(n), u), SetMaster(Nd(n), Nb(u)), s);
  }

  lemma {:induction false} ClientConnectRun(n: Name, u: Name, p: string, s: State)
    requires Idle(n, n, s) && u in s.mounts && Nb(u) in s.links && s.links[Nb(u)].ns == u
    requires Nu(n) in s.links && s.links[Nu(n)] == Link(n, true, None)
    requires (Nu(n), Addr(p, 3)) !in s.addrs && (n, None) !in s.routes
    ensures var s3 := Moved(n, u, false, Some(Nb(u)), s);
            ExecAll(Does(ConnectActions(n, ClientPlan(u, p))), s) ==
            Some(State(s3.mounts, s3.links[Nd(n) := s3.links[Nd(n)].(up := true)], s3.addrs + {(Nu(n), Addr(p, 3))},
                       s3.routes[(n, None) := Route(Addr(p, 1), Nu(n))]))
  {
    var move := Action([Move(Nd(n), u), SetMaster(Nd(n), Nb(u))], Move(Nd(n), n));
    var tail := [UpAction(Nd(n)), AddrAction(Nu(n), Addr(p, 3)), DefaultAction(n, Route(Addr(p, 1), Nu(n)))];
    assert ConnectActions(n, ClientPlan(u, p)) == [move] + tail;
    assert [move][1..] == [] && Does([move]) == move.does;
    hide Exec, ExecAll, Does;
    EnslaveRun(n, u, s);
    var s3 := Moved(n, u, false, Some(Nb(u)), s);
    TailRun(Nd(n), Nu(n), Addr(p, 3), n, Route(Addr(p, 1), Nu(n)), s3);
    Then([move], tail, s, s3);
  }

  lemma {:induction false} ClientRun(n: Name, u: Name, p: string, s: State)
    requires Absent(n, s) && u in s.mounts && u != n && Nb(u) in s.links && s.links[Nb(u)].ns == u
    ensures ExecAll(Does(NetworkActions(n, ClientPlan(u, p))), s) == Some(ClientState(n, u, p, s))
  {
    var plan := ClientPlan(u, p);
    var s1 := WithVeth(n, s);
    ClientLocalRun(n, u, p, s);
    ClientConnectRun(n, u, p, s1);
    hide Exec, ExecAll, Does, LocalActions, ConnectActions;
    Then(LocalActions(n, plan), ConnectActions(n, plan), s, s1);
    var s3 := Moved(n, u, false, Some(Nb(u)), s1);
    assert s3.links[Nd(n) := s3.links[Nd(n)].(up := true)] == ClientState(n, u, p, s).links;
  }
}
