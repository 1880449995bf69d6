/**
  The entity daemon: it sets up one network component and takes it down again.
  Each method is proved against the actions of the plan in its document.
 */
module Entityd {
  import opened Uplinks
  import opened JsonTree
  import opened Expansion
  import opened Kernel
  import opened Setup
  import opened Undo
  import opened ConnectPlan

  class Machine {
    var state: State

    /** `annotated_system` and `system`: a command that fails changes nothing. */
    method System(c: Command) returns (ok: bool)
      modifies this
      ensures ok == Exec(c, old(state)).Some?
      ensures state == if ok then Exec(c, old(state)).value else old(state)
    {
      var r := Exec(c, state);
      ok := r.Some?;
      if ok { state := r.value; }
    }
  }

  class Cleanup {
    var commands: seq<Command>

    constructor ()
      ensures commands == []
    {
      commands := [];
    }

    method Add(c: Command)
      modifies this
      ensures commands == old(commands) + [c]
    {
      commands := commands + [c];
    }

    /** `add(cleanup &&)`: takes over the other list. */
    method AddAll(other: Cleanup)
      requires other != this
      modifies this, other
      ensures commands == old(commands) + old(other.commands) && other.commands == []
    {
      commands := commands + other.commands;
      other.commands := [];
    }

    /** `run`: in reverse order of registration, then forgotten. */
    method Run(machine: Machine)
      modifies this, machine
      ensures machine.state == RunUndo(old(machine.state), old(commands)) && commands == []
    {
      var i := |commands|;
      assert commands[..i] == commands;
      while i > 0
        invariant 0 <= i <= |commands| && commands == old(commands)
        invariant RunUndo(machine.state, commands[..i]) == RunUndo(old(machine.state), commands)
      {
        i := i - 1;
        assert commands[..i + 1][..i] == commands[..i];
        var _ := machine.System(commands[i]);
      }
      commands := [];
    }
  }

  /** Concatenated lists run back to front as one. */
  lemma {:induction false} RunUndoConcat(a: seq<Command>, b: seq<Command>, s: State)
    ensures RunUndo(s, a + b) == RunUndo(RunUndo(s, b), a)
    decreases |b|
  {
    if b == [] {
      assert a + b == a;
    } else {
      var last := |b| - 1;
      assert (a + b)[|a + b| - 1] == b[last] && (a + b)[..|a + b| - 1] == a + b[..last];
      var s' := match Exec(b[last], s) case None => s case Some(s1) => s1;
      RunUndoConcat(a, b[..last], s');
    }
  }

  // ----- Actions one by one ------------------------------------------------

  lemma {:induction false} SingleDoes(x: Action)
    ensures Does([x]) == x.does && Undos([x]) == [x.undo]
  {
    assert [x][1..] == [];
  }

  /** Success or failure of `actions` as a whole: the new state, and the cleanups added to a list. */
  ghost predicate Ran(ok: bool, actions: seq<Action>, s0: State, s: State, undos0: seq<Command>, undos: seq<Command>)
  {
    && (ok <==> ExecAll(Does(actions), s0).Some?)
    && (ok ==> Some(s) == ExecAll(Does(actions), s0) && undos == undos0 + Undos(actions))
  }

  /** Two runs in a row are one. */
  lemma {:induction false} RanBoth(
      xs: seq<Action>, ys: seq<Action>, ok: bool, s0: State, s1: State, s2: State,
      undos0: seq<Command>, undos1: seq<Command>, undos2: seq<Command>)
    requires Ran(true, xs, s0, s1, undos0, undos1) && Ran(ok, ys, s1, s2, undos1, undos2)
    ensures Ran(ok, xs + ys, s0, s2, undos0, undos2)
  {
    hide Exec, ExecAll, Does, Undos;
    DoesConcat(xs, ys);
    ExecConcat(Does(xs), Does(ys), s0);
    UndosConcat(xs, ys);
    assert undos0 + (Undos(xs) + Undos(ys)) == undos0 + Undos(xs) + Undos(ys);
  }

  lemma {:induction false} RanNot(
      xs: seq<Action>, ys: seq<Action>, s0: State, s1: State, undos0: seq<Command>, undos1: seq<Command>)
    requires Ran(false, xs, s0, s1, undos0, undos1)
    ensures Ran(false, xs + ys, s0, s1, undos0, undos1)
  {
    DoesConcat(xs, ys);
    ExecConcat(Does(xs), Does(ys), s0);
  }

  lemma {:induction false} RanNothing(s: State, undos: seq<Command>)
    ensures Ran(true, [], s, s, undos, undos)
  {
    assert undos + [] == undos;
  }

  /** A list that began empty is appended to another one if the run succeeded. */
  lemma {:induction false} RanTaken(
      ok: bool, xs: seq<Action>, s0: State, s1: State, undos: seq<Command>, target: seq<Command>)
    requires Ran(ok, xs, s0, s1, [], undos)
    ensures Ran(ok, xs, s0, s1, target, if ok then target + undos else target)
  {
    assert ok ==> undos == Undos(xs);
  }

  /** The route actions read from a document. */
  ghost function RoutesOf(p: string, owner: Name, doc: Json): Option<seq<Action>>
  {
    if Hops(owner, doc).None? then None else Some(RouteActions(p, Hops(owner, doc).value))
  }

  ghost function RoutesAbove(p: string, u: Name, doc: Json): Option<seq<Action>>
    requires doc.Obj?
  {
    if "uplink" in doc.fields then RoutesOf(p, u, doc.fields["uplink"]) else Some([])
  }

  lemma {:induction false} RoutesStep(p: string, owner: Name, doc: Json)
    requires doc.Obj? && IsSwitch(doc.fields)
    ensures RoutesOf(p, owner, doc) ==
      match (Text(doc.fields, UPLINK_NAME), SubnetOf(doc.fields))
      case (Some(u), Some(net)) =>
        var above := RoutesAbove(p, u, doc);
        if above.None? then None else Some([RouteAction(p, Hop(u, Addr(net, 2), Nd(owner)))] + above.value)
      case _ => None
  {
  }

  lemma {:induction false} RoutesEnd(p: string, owner: Name, doc: Json)
    requires !(doc.Obj? && IsSwitch(doc.fields))
    ensures RoutesOf(p, owner, doc) == if doc.Null? || doc.Obj? then Some([]) else None
  {
  }

  function MoveAction(n: Name, u: Name): Action
  {
    Action([Move(Nd(n), u)], Move(Nd(n), n))
  }

  function SwitchTail(n: Name, p: string): seq<Action>
  {
    [UpAction(Nd(n))] + ([AddrAction(Nb(n), Addr(p, 2))] + [DefaultAction(n, Route(Addr(p, 1), Nb(n)))])
  }

  function ClientTail(n: Name, p: string): seq<Action>
  {
    [UpAction(Nd(n))] + ([AddrAction(Nu(n), Addr(p, 3))] + [DefaultAction(n, Route(Addr(p, 1), Nu(n)))])
  }

  lemma {:induction false} ConnectShape(n: Name, u: Name, p: string, hops: seq<Hop>)
    ensures ConnectActions(n, SwitchPlan(u, p, hops)) ==
            [MoveAction(n, u)] + ([AddrAction(Nd(n), Addr(p, 1))] + (RouteActions(p, hops) + SwitchTail(n, p)))
    ensures ConnectActions(n, ClientPlan(u, p)) ==
            [Action([Move(Nd(n), u), SetMaster(Nd(n), Nb(u))], Move(Nd(n), n))] + ClientTail(n, p)
  {
  }

  /** The whole setup: what goes to `cleanups`, then what goes to `connection_cleanups`. */
  ghost predicate SetUpAs(ok: bool, n: Name, plan: Plan, s0: State, s: State, undos: seq<Command>, connection: seq<Command>)
  {
    && (ok <==> ExecAll(Does(NetworkActions(n, plan)), s0).Some?)
    && (ok ==> Some(s) == ExecAll(Does(NetworkActions(n, plan)), s0))
    && (ok ==> undos == Undos(LocalActions(n, plan)) && connection == Undos(ConnectActions(n, plan)))
  }

  lemma {:induction false} SetUpBoth(ok: bool, n: Name, plan: Plan, s0: State, s1: State, s2: State,
                                     undos: seq<Command>, connection: seq<Command>)
    requires Ran(true, LocalActions(n, plan), s0, s1, [], undos)
    requires Ran(ok, ConnectActions(n, plan), s1, s2, [], connection)
    ensures SetUpAs(ok, n, plan, s0, s2, undos, connection)
  {
    hide Exec, ExecAll, Does, Undos, LocalActions, ConnectActions;
    DoesConcat(LocalActions(n, plan), ConnectActions(n, plan));
    ExecConcat(Does(LocalActions(n, plan)), Does(ConnectActions(n, plan)), s0);
  }

  lemma {:induction false} SetUpNot(n: Name, plan: Plan, s0: State, s: State, undos: seq<Command>, connection: seq<Command>)
    requires Ran(false, LocalActions(n, plan), s0, s, [], undos)
    ensures SetUpAs(false, n, plan, s0, s, undos, connection)
  {
    hide Exec, LocalActions, ConnectActions;
    DoesConcat(LocalActions(n, plan), ConnectActions(n, plan));
    ExecConcat(Does(LocalActions(n, plan)), Does(ConnectActions(n, plan)), s0);
  }

  // ----- The daemon --------------------------------------------------------

  datatype Answer = AlreadyActive | Done | Aborted

  class Daemon {
    const name: Name
    const machine: Machine
    const cleanups: Cleanup
    const connectionCleanups: Cleanup
    var network: Option<Component>

    /** The two lists hold the cleanups of the active component, each in order of registration. */
    ghost predicate Valid()
      reads this, cleanups, connectionCleanups
    {
      && cleanups != connectionCleanups
      && match network
         case None => cleanups.commands == [] && connectionCleanups.commands == []
         case Some(component) =>
           && PlanOf(component).Some?
           && cleanups.commands == Undos(LocalActions(name, PlanOf(component).value))
           && connectionCleanups.commands == Undos(ConnectActions(name, PlanOf(component).value))
    }

    constructor (name: Name, machine: Machine)
      ensures this.name == name && this.machine == machine && network == None && Valid()
      ensures fresh(cleanups) && fresh(connectionCleanups)
    {
      this.name, this.machine, this.network := name, machine, None;
      cleanups := new Cleanup();
      connectionCleanups := new Cleanup();
    }

    /** A command, then the registration of its cleanup. */
    method Perform(command: Command, undo: Command, clean: Cleanup) returns (ok: bool)
      modifies machine, clean
      ensures Ran(ok, [Action([command], undo)], old(machine.state), machine.state, old(clean.commands), clean.commands)
    {
      SingleDoes(Action([command], undo));
      Once(command, machine.state);
      ok := machine.System(command);
      if ok { clean.Add(undo); }
    }

    method SetupInterfaces() returns (ok: bool)
      modifies machine, cleanups
      ensures Ran(ok, [VethAction(name)], old(machine.state), machine.state, old(cleanups.commands), cleanups.commands)
    {
      SingleDoes(VethAction(name));
      Twice(AddVeth(name), SetUp(Nu(name)), machine.state);
      var clean := new Cleanup();
      ok := machine.System(AddVeth(name));
      if !ok { return; }
      clean.Add(Del(Nu(name)));
      ok := machine.System(SetUp(Nu(name)));
      if !ok { return; }
      cleanups.AddAll(clean);
    }

    method SetupBridge() returns (ok: bool)
      modifies machine, cleanups
      ensures Ran(ok, [BridgeAction(name)], old(machine.state), machine.state, old(cleanups.commands), cleanups.commands)
    {
      SingleDoes(BridgeAction(name));
      assert BridgeAction(name).does == [AddBridge(name)] + [SetUp(Nb(name)), SetMaster(Nu(name), Nb(name))];
      ExecConcat([AddBridge(name)], [SetUp(Nb(name)), SetMaster(Nu(name), Nb(name))], machine.state);
      Once(AddBridge(name), machine.state);
      var clean := new Cleanup();
      ok := machine.System(AddBridge(name));
      if !ok { return; }
      clean.Add(Del(Nb(name)));
      Twice(SetUp(Nb(name)), SetMaster(Nu(name), Nb(name)), machine.state);
      ok := machine.System(SetUp(Nb(name)));
      if !ok { return; }
      ok := machine.System(SetMaster(Nu(name), Nb(name)));
      if !ok { return; }
      cleanups.AddAll(clean);
    }

    /** The loop of `connect` that installs the routes to the subnet in the ancestors. */
    method InstallRoutes(p: string, first: Name, uplink: Json, clean: Cleanup) returns (ok: bool)
      modifies machine, clean
      ensures ok ==> Hops(first, uplink).Some?
      ensures Hops(first, uplink).Some? ==>
        Ran(ok, RouteActions(p, Hops(first, uplink).value), old(machine.state), machine.state,
            old(clean.commands), clean.commands)
    {
      hide Exec, ExecAll, Does, Undos, Ran, Hops, RouteActions, Text, SubnetOf, IsSwitch;
      var owner, doc := first, uplink;
      ghost var done: seq<Action> := [];
      ghost var s0, c0 := machine.state, clean.commands;
      RanNothing(s0, c0);
      while doc.Obj? && IsSwitch(doc.fields)
        invariant Ran(true, done, s0, machine.state, c0, clean.commands)
        invariant RoutesOf(p, first, uplink).Some? <==> RoutesOf(p, owner, doc).Some?
        invariant RoutesOf(p, owner, doc).Some? ==>
          RoutesOf(p, first, uplink).value == done + RoutesOf(p, owner, doc).value
        decreases doc
      {
        RoutesStep(p, owner, doc);
        var u, net := Text(doc.fields, UPLINK_NAME), SubnetOf(doc.fields);
        if u.None? || net.None? {
          return false;
        }
        var hop := Hop(u.value, Addr(net.value, 2), Nd(owner));
        ghost var x := RouteAction(p, hop);
        ghost var above := RoutesAbove(p, u.value, doc);
        ghost var s1, c1 := machine.state, clean.commands;
        ok := Perform(RouteAdd(hop.ns, Some(p), Route(hop.gateway, hop.dev)), RouteDel(hop.ns, Some(p)), clean);
        RanBoth(done, [x], ok, s0, s1, machine.state, c0, c1, clean.commands);
        if above.Some? { assert done + ([x] + above.value) == (done + [x]) + above.value; }
        if !ok {
          if above.Some? { RanNot(done + [x], above.value, s0, machine.state, c0, clean.commands); }
          return;
        }
        done := done + [x];
        owner := u.value;
        if "uplink" !in doc.fields {
          assert done + [] == done;
          return true;
        }
        doc := doc.fields["uplink"];
      }
      RoutesEnd(p, owner, doc);
      assert done + [] == done;
      ok := doc.Null? || doc.Obj?;
    }

    /** The end of `connect`: the downlink device up, the own address, the default route. */
    method FinishConnect(own: Dev, address: Addr, gateway: Addr, clean: Cleanup) returns (ok: bool)
      modifies machine, clean
      ensures Ran(ok, [UpAction(Nd(name))] + ([AddrAction(own, address)] + [DefaultAction(name, Route(gateway, own))]),
                  old(machine.state), machine.state, old(clean.commands), clean.commands)
    {
      hide Exec, ExecAll, Does, Undos, Ran;
      ghost var up, addr, dflt := UpAction(Nd(name)), AddrAction(own, address), DefaultAction(name, Route(gateway, own));
      ghost var s0, c0 := machine.state, clean.commands;
      ok := Perform(SetUp(Nd(name)), SetDown(Nd(name)), clean);
      ghost var s1, c1 := machine.state, clean.commands;
      if !ok {
        RanNot([up], [addr] + [dflt], s0, s1, c0, c1);
        return;
      }
      ok := Perform(AddrAdd(own, address), AddrDel(own, address), clean);
      ghost var s2, c2 := machine.state, clean.commands;
      if !ok {
        RanNot([addr], [dflt], s1, s2, c1, c2);
        RanBoth([up], [addr] + [dflt], false, s0, s1, s2, c0, c1, c2);
        return;
      }
      ok := Perform(RouteAdd(name, None, Route(gateway, own)), RouteDel(name, None), clean);
      RanBoth([addr], [dflt], ok, s1, s2, machine.state, c1, c2, clean.commands);
      RanBoth([up], [addr] + [dflt], ok, s0, s1, machine.state, c0, c1, clean.commands);
    }

    /** The branch of `connect` for a switch, after the move. */
    method ConnectSwitch(component: Component, u: Name, clean: Cleanup) returns (ok: bool)
      modifies machine, clean
      ensures ok ==> SubnetOf(component).Some? && Hops(u, Get(component, "uplink")).Some?
      ensures SubnetOf(component).Some? && Hops(u, Get(component, "uplink")).Some? ==>
        var p, hops := SubnetOf(component).value, Hops(u, Get(component, "uplink")).value;
        Ran(ok, [AddrAction(Nd(name), Addr(p, 1))] + (RouteActions(p, hops) + SwitchTail(name, p)),
            old(machine.state), machine.state, old(clean.commands), clean.commands)
    {
      hide Exec, ExecAll, Does, Undos, Ran, Hops, RouteActions;
      var net := SubnetOf(component);
      if net.None? {
        return false;
      }
      var p := net.value;
      ghost var hops := Hops(u, Get(component, "uplink"));
      ghost var routes := if hops.Some? then RouteActions(p, hops.value) else [];
      ghost var addr, tail := AddrAction(Nd(name), Addr(p, 1)), SwitchTail(name, p);
      ghost var s0, c0 := machine.state, clean.commands;
      ok := Perform(AddrAdd(Nd(name), Addr(p, 1)), AddrDel(Nd(name), Addr(p, 1)), clean);
      ghost var s1, c1 := machine.state, clean.commands;
      if !ok {
        RanNot([addr], routes + tail, s0, s1, c0, c1);
        return;
      }
      ok := InstallRoutes(p, u, Get(component, "uplink"), clean);
      ghost var s2, c2 := machine.state, clean.commands;
      if !ok {
        if hops.Some? {
          RanNot(routes, tail, s1, s2, c1, c2);
          RanBoth([addr], routes + tail, false, s0, s1, s2, c0, c1, c2);
        }
        return;
      }
      ok := FinishConnect(Nb(name), Addr(p, 2), Addr(p, 1), clean);
      RanBoth(routes, tail, ok, s1, s2, machine.state, c1, c2, clean.commands);
      RanBoth([addr], routes + tail, ok, s0, s1, machine.state, c0, c1, clean.commands);
    }

    /** The branch of `connect` for a client. */
    method ConnectClient(component: Component, u: Name, clean: Cleanup) returns (ok: bool)
      requires Get(component, "role") == Str("client") && Text(component, UPLINK_NAME) == Some(u)
      modifies machine, clean
      ensures ok ==> PlanOf(component).Some?
      ensures PlanOf(component).Some? ==>
        Ran(ok, ConnectActions(name, PlanOf(component).value), old(machine.state), machine.state,
            old(clean.commands), clean.commands)
    {
      ghost var plan := PlanOf(component);
      ghost var s0, c0 := machine.state, clean.commands;
      ghost var move := Action([Move(Nd(name), u), SetMaster(Nd(name), Nb(u))], Move(Nd(name), name));
      ghost var tail := if plan.Some? then ClientTail(name, plan.value.prefix) else [];
      if plan.Some? { ConnectShape(name, u, plan.value.prefix, []); }
      Twice(Move(Nd(name), u), SetMaster(Nd(name), Nb(u)), s0);
      SingleDoes(move);
      hide Exec, ExecAll, Does, Undos;
      ok := machine.System(Move(Nd(name), u));
      if !ok {
        RanNot([move], tail, s0, machine.state, c0, clean.commands);
        return;
      }
      clean.Add(Move(Nd(name), name));
      ok := machine.System(SetMaster(Nd(name), Nb(u)));
      ghost var s1, c1 := machine.state, clean.commands;
      if !ok {
        RanNot([move], tail, s0, s1, c0, c1);
        return;
      }
      var uplink := Get(component, "uplink");
      if !uplink.Obj? || SubnetOf(uplink.fields).None? {
        return false;
      }
      var p := SubnetOf(uplink.fields).value;
      assert Ran(true, [move], s0, s1, c0, c1);
      hide Ran;
      ok := FinishConnect(Nu(name), Addr(p, 3), Addr(p, 1), clean);
      RanBoth([move], tail, ok, s0, s1, machine.state, c0, c1, clean.commands);
    }

    /** `connect` */
    method Connect(component: Component) returns (ok: bool)
      requires IsSwitch(component) || Get(component, "role") == Str("client")
      modifies machine, connectionCleanups
      ensures ok ==> PlanOf(component).Some?
      ensures PlanOf(component).Some? ==>
        Ran(ok, ConnectActions(name, PlanOf(component).value), old(machine.state), machine.state,
            old(connectionCleanups.commands), connectionCleanups.commands)
    {
      hide Exec, ExecAll, Does, Undos, Hops, Ran;
      var clean := new Cleanup();
      ghost var plan := PlanOf(component);
      ghost var s0, c0 := machine.state, connectionCleanups.commands;
      var u := Text(component, UPLINK_NAME);
      if u.None? {
        return false;
      }
      if IsSwitch(component) {
        ghost var move := MoveAction(name, u.value);
        ghost var rest := if plan.Some? then [AddrAction(Nd(name), Addr(plan.value.prefix, 1))]
            + (RouteActions(plan.value.prefix, plan.value.hops) + SwitchTail(name, plan.value.prefix)) else [];
        if plan.Some? { ConnectShape(name, u.value, plan.value.prefix, plan.value.hops); }
        ok := Perform(Move(Nd(name), u.value), Move(Nd(name), name), clean);
        ghost var s1, c1 := machine.state, clean.commands;
        if !ok {
          RanNot([move], rest, s0, s1, [], c1);
          RanTaken(ok, [move] + rest, s0, s1, c1, c0);
          return;
        }
        ok := ConnectSwitch(component, u.value, clean);
        if plan.Some? {
          RanBoth([move], rest, ok, s0, s1, machine.state, [], c1, clean.commands);
          RanTaken(ok, [move] + rest, s0, machine.state, clean.commands, c0);
        }
      } else {
        ok := ConnectClient(component, u.value, clean);
        if plan.Some? {
          RanTaken(ok, ConnectActions(name, plan.value), s0, machine.state, clean.commands, c0);
        }
      }
      if ok { connectionCleanups.AddAll(clean); }
    }

    /** The devices of a switch or a client, made after the mount; `plan` is the plan of the component. */
    method SetupDevices(isSwitch: bool, ghost plan: Option<Plan>, ghost s0: State, ghost s1: State) returns (ok: bool)
      requires Ran(true, [MountAction(name)], s0, s1, [], cleanups.commands) && machine.state == s1
      requires plan.Some? ==> (isSwitch <==> plan.value.SwitchPlan?) && !plan.value.RootPlan?
      modifies machine, cleanups
      ensures plan.Some? ==> Ran(ok, LocalActions(name, plan.value), s0, machine.state, [], cleanups.commands)
    {
      ghost var m, v, b := MountAction(name), VethAction(name), BridgeAction(name);
      ghost var c1 := cleanups.commands;
      assert [m, v] == [m] + [v] && [m, v, b] == [m] + ([v] + [b]);
      hide Exec, ExecAll, Does, Undos, Ran;
      ok := SetupInterfaces();
      ghost var s2, c2 := machine.state, cleanups.commands;
      RanBoth([m], [v], ok, s0, s1, s2, [], c1, c2);
      if !ok {
        RanNot([v], [b], s1, s2, c1, c2);
        RanBoth([m], [v] + [b], ok, s0, s1, s2, [], c1, c2);
        return;
      }
      if isSwitch {
        ok := SetupBridge();
        RanBoth([v], [b], ok, s1, s2, machine.state, c1, c2, cleanups.commands);
        RanBoth([m], [v] + [b], ok, s0, s1, machine.state, [], c1, cleanups.commands);
      }
    }

    /** `add_network`, for a component that was not active; false where the program aborts. */
    method AddNetwork(component: Component) returns (ok: bool)
      requires Valid() && network == None
      modifies this, machine, cleanups, connectionCleanups
      ensures ok ==> PlanOf(component).Some? && network == Some(component) && Valid()
      ensures PlanOf(component).Some? ==>
        SetUpAs(ok, name, PlanOf(component).value, old(machine.state), machine.state,
                cleanups.commands, connectionCleanups.commands)
    {
      var role := Text(component, "role");
      if role.None? {
        return false;
      }
      ghost var s0, plan := machine.state, PlanOf(component);
      hide Exec, ExecAll, Does, Undos, Ran, Hops;
      network := Some(component);
      ok := Perform(Mount(name), Umount(name), cleanups);
      MountRan(ok, name, s0, machine.state, cleanups.commands);
      ghost var s1 := machine.state;
      if role.value == "root" {
        RanNothing(s1, []);
        SetUpBoth(true, name, RootPlan, s0, s1, s1, cleanups.commands, connectionCleanups.commands);
        return;
      }
      if role.value != "switch" && role.value != "client" {
        return false;
      }
      ok := SetupDevices(role.value == "switch", plan, s0, s1);
      if !ok {
        if plan.Some? {
          SetUpNot(name, plan.value, s0, machine.state, cleanups.commands, connectionCleanups.commands);
        }
        return;
      }
      ghost var s2 := machine.state;
      ok := Connect(component);
      if plan.Some? {
        SetUpBoth(ok, name, plan.value, s0, s2, machine.state, cleanups.commands, connectionCleanups.commands);
      }
    }

    /** `add_component`, with the document already parsed. */
    method AddComponent(component: Component) returns (answer: Answer)
      requires Valid()
      modifies this, machine, cleanups, connectionCleanups
      ensures answer == AlreadyActive <==> old(network).Some?
      ensures answer == AlreadyActive ==> Valid() && network == old(network) && machine.state == old(machine.state)
      ensures answer == Done <==>
        && old(network).None? && PlanOf(component).Some?
        && ExecAll(Does(NetworkActions(name, PlanOf(component).value)), old(machine.state)).Some?
      ensures answer == Done ==>
        && Valid() && network == Some(component)
        && Some(machine.state) == ExecAll(Does(NetworkActions(name, PlanOf(component).value)), old(machine.state))
    {
      if network.Some? {
        return AlreadyActive;
      }
      var ok := AddNetwork(component);
      answer := if ok then Done else Aborted;
    }

    /** `shutdown`: the two lists together undo everything that was set up, in exact reverse order. */
    method Shutdown()
      requires Valid()
      modifies machine, cleanups, connectionCleanups
      ensures cleanups.commands == [] && connectionCleanups.commands == []
      ensures machine.state == RunUndo(old(machine.state),
                if network.None? then [] else Undos(NetworkActions(name, PlanOf(network.value).value)))
    {
      ghost var local, connect := cleanups.commands, connectionCleanups.commands;
      RunUndoConcat(local, connect, machine.state);
      if network.Some? {
        UndosConcat(LocalActions(name, PlanOf(network.value).value), ConnectActions(name, PlanOf(network.value).value));
      } else {
        assert local + connect == [];
      }
      connectionCleanups.Run(machine);
      cleanups.Run(machine);
    }
  }

  lemma {:induction false} MountRan(ok: bool, n: Name, s0: State, s1: State, undos: seq<Command>)
    requires Ran(ok, [MountAction(n)], s0, s1, [], undos)
    ensures ok
  {
    SingleDoes(MountAction(n));
    Once(Mount(n), s0);
  }
}
