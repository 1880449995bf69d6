/**
  Shutting an entity down undoes exactly its own setup.
 */
module Undo {
  import opened Uplinks
  import opened Kernel
  import opened Setup

  /** Cleanups run in reverse order of registration; their exit status is ignored. */
  function RunUndo(s: State, undos: seq<Command>): State
    decreases |undos|
  {
    if undos == [] then s
    else
      var last := |undos| - 1;
      match Exec(undos[last], s)
      case None => RunUndo(s, undos[..last])
      case Some(s') => RunUndo(s', undos[..last])
  }

  /** Every cleanup finds what it is to undo. */
  ghost predicate AllSucceed(s: State, undos: seq<Command>)
    decreases |undos|
  {
    undos == [] ||
    var last := |undos| - 1;
    Exec(undos[last], s).Some? && AllSucceed(Exec(undos[last], s).value, undos[..last])
  }

  /** Each action, when its turn comes, is undone by its own cleanup. */
  ghost predicate Reversible(actions: seq<Action>, s: State)
    decreases |actions|
  {
    actions == [] ||
    match ExecAll(actions[0].does, s)
    case None => true
    case Some(s') => Exec(actions[0].undo, s') == Some(s) && Reversible(actions[1..], s')
  }

  lemma {:induction false} ReversibleConcat(a: seq<Action>, b: seq<Action>, s: State)
    requires Reversible(a, s)
    requires match ExecAll(Does(a), s) case None => true case Some(s') => Reversible(b, s')
    ensures Reversible(a + b, s)
    decreases |a|
  {
    if a == [] {
      assert a + b == b;
    } else {
      assert (a + b)[0] == a[0] && (a + b)[1..] == a[1..] + b;
      ExecConcat(a[0].does, Does(a[1..]), s);
      match ExecAll(a[0].does, s) {
        case None =>
        case Some(s1) => ReversibleConcat(a[1..], b, s1);
      }
    }
  }

  // ----- Undoing past foreign commands -------------------------------------

  /** A setup command that does not touch the devices of the entity `a`. */
  ghost predicate Foreign(c: Command, a: Name)
  {
    match c
    case Mount(n) => n != a
    case AddVeth(n) => n != a
    case AddBridge(n) => n != a
    case SetUp(d) => d.owner != a
    case SetMaster(d, b) => d.owner != a && b.owner != a
    case Move(d, n) => d.owner != a && n != a
    case AddrAdd(d, _) => d.owner != a
    case RouteAdd(_, _, r) => r.dev.owner != a
    case _ => false
  }

  /** A cleanup command of the entity `a`. */
  ghost predicate Own(c: Command, a: Name)
  {
    match c
    case Umount(n) => n == a
    case Del(d) => d.owner == a
    case SetDown(d) => d.owner == a
    case Move(d, n) => d.owner == a && n == a
    case AddrDel(d, _) => d.owner == a
    case RouteDel(_, _) => true
    case _ => false
  }

  lemma {:induction false} OnLinkKept(s: State, s': State, ns: Name, r: Route, a: Name)
    requires r.dev.owner != a
    requires forall d: Dev | d.owner != a :: d in s.links <==> d in s'.links
    requires forall d: Dev | d.owner != a && d in s.links :: s'.links[d].ns == s.links[d].ns && s'.links[d].up == s.links[d].up
    requires forall p: (Dev, Addr) | p.0.owner != a :: p in s.addrs <==> p in s'.addrs
    ensures OnLink(s, ns, r) <==> OnLink(s', ns, r)
  {
    if OnLink(s, ns, r) {
      var p :| p in s.addrs && p.0 == r.dev && p.1.prefix == r.gateway.prefix;
      assert p in s'.addrs;
    }
    if OnLink(s', ns, r) {
      var p :| p in s'.addrs && p.0 == r.dev && p.1.prefix == r.gateway.prefix;
      assert p in s.addrs;
    }
  }

  /** What a cleanup of `a` leaves alone. */
  ghost predicate Elsewhere(s: State, s': State, a: Name)
  {
    && (forall n: Name | n != a :: n in s.mounts <==> n in s'.mounts)
    && (forall d: Dev | d.owner != a :: d in s.links <==> d in s'.links)
    && (forall d: Dev | d.owner != a && d in s.links ::
          s'.links[d].ns == s.links[d].ns && s'.links[d].up == s.links[d].up)
    && (forall q: (Dev, Addr) | q.0.owner != a :: q in s.addrs <==> q in s'.addrs)
    && (forall k | k in s'.routes :: k in s.routes)
  }

  lemma {:induction false} OwnElsewhere(x: Command, a: Name, s: State)
    requires Own(x, a) && Exec(x, s).Some?
    ensures Elsewhere(s, Exec(x, s).value, a)
  {
  }

  /** A foreign command still works after a cleanup of `a`. */
  lemma {:induction false} ForeignStillWorks(x: Command, y: Command, a: Name, s: State)
    requires Own(x, a) && Foreign(y, a) && Exec(x, s).Some? && Exec(y, s).Some?
    ensures Exec(y, Exec(x, s).value).Some?
  {
    var s' := Exec(x, s).value;
    OwnElsewhere(x, a, s);
    hide Exec;
    match y {
      case RouteAdd(n, dst, r) => RouteStillWorks(x, y, a, s, s');
      case _ => OtherStillWorks(y, a, s, s');
    }
  }

  lemma {:induction false} RouteStillWorks(x: Command, y: Command, a: Name, s: State, s': State)
    requires Foreign(y, a) && y.RouteAdd? && Elsewhere(s, s', a) && Exec(y, s).Some?
    ensures Exec(y, s').Some?
  {
    OnLinkKept(s, s', y.ns, y.route, a);
  }

  lemma {:induction false} OtherStillWorks(y: Command, a: Name, s: State, s': State)
    requires Foreign(y, a) && !y.RouteAdd? && Elsewhere(s, s', a) && Exec(y, s).Some?
    ensures Exec(y, s').Some?
  {
  }

  /** No route runs through the downlink device of `b`. */
  ghost predicate NotVia(s: State, b: Name)
  {
    forall k | k in s.routes :: s.routes[k].dev != Nd(b)
  }

  lemma {:induction false} DropAfterUpdate(links: map<Dev, Link>, d: Dev, l: Link, devs: set<Dev>)
    requires d !in devs
    ensures DropLinks(links[d := l], devs) == DropLinks(links, devs)[d := Release(l, devs)]
  {
  }

  /** Deleting a device of `a` commutes with changing one link of another entity. */
  lemma {:induction false} DelCommutes(x: Command, y: Command, a: Name, s: State)
    requires Own(x, a) && x.Del? && Foreign(y, a) && Exec(x, s).Some? && Exec(y, s).Some?
    requires y.AddVeth? || y.AddBridge? || y.SetUp? || y.SetMaster?
    ensures Exec(x, Exec(y, s).value).Some? && Exec(y, Exec(x, s).value).Some?
    ensures Exec(x, Exec(y, s).value) == Exec(y, Exec(x, s).value)
  {
    ForeignStillWorks(x, y, a, s);
    var devs := Removed(x.dev);
    match y {
      case AddVeth(n) =>
        var l := Link(n, false, None);
        DropAfterUpdate(s.links, Nu(n), l, devs);
        DropAfterUpdate(s.links[Nu(n) := l], Nd(n), l, devs);
      case AddBridge(n) =>
        DropAfterUpdate(s.links, Nb(n), Link(n, false, None), devs);
      case SetUp(d) =>
        DropAfterUpdate(s.links, d, s.links[d].(up := true), devs);
      case SetMaster(d, m) =>
        DropAfterUpdate(s.links, d, s.links[d].(master := Some(m)), devs);
    }
    hide DropLinks, DropAddrs, DropRoutes;
  }

  /** Taking down a device of `a` commutes with changing one link of another entity. */
  lemma {:induction false} DownCommutes(x: Command, y: Command, a: Name, s: State)
    requires Own(x, a) && x.SetDown? && Foreign(y, a) && Exec(x, s).Some? && Exec(y, s).Some?
    requires y.AddVeth? || y.AddBridge? || y.SetUp? || y.SetMaster?
    ensures Exec(x, Exec(y, s).value).Some? && Exec(y, Exec(x, s).value).Some?
    ensures Exec(x, Exec(y, s).value) == Exec(y, Exec(x, s).value)
  {
    ForeignStillWorks(x, y, a, s);
    var links := s.links[x.dev := s.links[x.dev].(up := false)];
    hide DropLinks, DropAddrs, DropRoutes, OnLink;
    match y {
      case AddVeth(n) =>
        var l := Link(n, false, None);
        assert s.links[Nu(n) := l][Nd(n) := l][x.dev := s.links[x.dev].(up := false)] == links[Nu(n) := l][Nd(n) := l];
      case AddBridge(n) =>
        var l := Link(n, false, None);
        assert s.links[Nb(n) := l][x.dev := s.links[x.dev].(up := false)] == links[Nb(n) := l];
      case SetUp(d) =>
        var l := s.links[d].(up := true);
        assert s.links[d := l][x.dev := s.links[x.dev].(up := false)] == links[d := l];
      case SetMaster(d, m) =>
        var l := s.links[d].(master := Some(m));
        assert s.links[d := l][x.dev := s.links[x.dev].(up := false)] == links[d := l];
    }
  }

  /** Moving a device of `a` back commutes with changing one link of another entity. */
  lemma {:induction false} MoveBackCommutes(x: Command, y: Command, a: Name, s: State)
    requires Own(x, a) && x.Move? && Foreign(y, a) && Exec(x, s).Some? && Exec(y, s).Some?
    requires y.AddVeth? || y.AddBridge? || y.SetUp? || y.SetMaster?
    ensures Exec(x, Exec(y, s).value).Some? && Exec(y, Exec(x, s).value).Some?
    ensures Exec(x, Exec(y, s).value) == Exec(y, Exec(x, s).value)
  {
    ForeignStillWorks(x, y, a, s);
    hide DropLinks, DropAddrs, DropRoutes;
    assert Exec(x, Exec(y, s).value).value.links == Exec(y, Exec(x, s).value).value.links;
  }

  lemma {:induction false} CommuteLinks(x: Command, y: Command, a: Name, s: State)
    requires Own(x, a) && Foreign(y, a) && Exec(x, s).Some? && Exec(y, s).Some?
    requires y.AddVeth? || y.AddBridge? || y.SetUp? || y.SetMaster?
    ensures Exec(x, Exec(y, s).value).Some? && Exec(y, Exec(x, s).value).Some?
    ensures Exec(x, Exec(y, s).value) == Exec(y, Exec(x, s).value)
  {
    if x.Del? {
      hide Exec;
      DelCommutes(x, y, a, s);
    } else if x.SetDown? {
      hide Exec;
      DownCommutes(x, y, a, s);
    } else if x.Move? {
      hide Exec;
      MoveBackCommutes(x, y, a, s);
    } else {
      ForeignStillWorks(x, y, a, s);
      hide DropLinks, DropAddrs, DropRoutes;
      assert Exec(x, Exec(y, s).value).value.links == Exec(y, Exec(x, s).value).value.links;
    }
  }

  lemma {:induction false} CommuteMount(x: Command, y: Command, a: Name, s: State)
    requires Own(x, a) && Foreign(y, a) && Exec(x, s).Some? && Exec(y, s).Some? && (y.Mount?)
    ensures Exec(x, Exec(y, s).value).Some? && Exec(y, Exec(x, s).value).Some?
    ensures Exec(x, Exec(y, s).value) == Exec(y, Exec(x, s).value)
  {
    ForeignStillWorks(x, y, a, s);
    assert Exec(x, Exec(y, s).value).value.mounts == Exec(y, Exec(x, s).value).value.mounts;
  }

  lemma {:induction false} CommuteAddr(x: Command, y: Command, a: Name, s: State)
    requires Own(x, a) && Foreign(y, a) && Exec(x, s).Some? && Exec(y, s).Some? && y.AddrAdd?
    ensures Exec(x, Exec(y, s).value).Some? && Exec(y, Exec(x, s).value).Some?
    ensures Exec(x, Exec(y, s).value) == Exec(y, Exec(x, s).value)
  {
    ForeignStillWorks(x, y, a, s);
    assert Exec(x, Exec(y, s).value).value.addrs == Exec(y, Exec(x, s).value).value.addrs;
  }

  lemma {:induction false} CommuteRoute(x: Command, y: Command, a: Name, s: State)
    requires Own(x, a) && Foreign(y, a) && Exec(x, s).Some? && Exec(y, s).Some? && y.RouteAdd?
    ensures Exec(x, Exec(y, s).value).Some? && Exec(y, Exec(x, s).value).Some?
    ensures Exec(x, Exec(y, s).value) == Exec(y, Exec(x, s).value)
  {
    ForeignStillWorks(x, y, a, s);
    assert Exec(x, Exec(y, s).value).value.routes == Exec(y, Exec(x, s).value).value.routes;
  }

  lemma {:induction false} MovePastDel(x: Command, y: Command, a: Name, s: State)
    requires Own(x, a) && Foreign(y, a) && Exec(x, s).Some? && Exec(y, s).Some? && Exec(y, Exec(x, s).value).Some?
    requires x.Del? && y.Move? && y.dev.Nd?
    ensures Exec(x, Exec(y, s).value).Some? && Exec(x, Exec(y, s).value) == Exec(y, Exec(x, s).value)
  {
    var xy, yx := Exec(x, Exec(y, s).value), Exec(y, Exec(x, s).value);
    DropAfterUpdate(s.links, y.dev, Link(y.ns, false, None), Removed(x.dev));
    assert xy.value.addrs == yx.value.addrs;
    assert xy.value.routes == yx.value.routes;
  }

  lemma {:induction false} MovePastReset(x: Command, y: Command, a: Name, s: State)
    requires Own(x, a) && Foreign(y, a) && Exec(x, s).Some? && Exec(y, s).Some? && Exec(y, Exec(x, s).value).Some?
    requires (x.SetDown? || x.Move?) && y.Move? && y.dev.Nd?
    ensures Exec(x, Exec(y, s).value).Some? && Exec(x, Exec(y, s).value) == Exec(y, Exec(x, s).value)
  {
    var xy, yx := Exec(x, Exec(y, s).value), Exec(y, Exec(x, s).value);
    assert xy.value.links == yx.value.links;
    assert xy.value.addrs == yx.value.addrs;
    assert xy.value.routes == yx.value.routes;
  }

  lemma {:induction false} CommuteMove(x: Command, y: Command, a: Name, s: State)
    requires Own(x, a) && Foreign(y, a) && Exec(x, s).Some? && Exec(y, s).Some?
    requires y.Move? && y.dev.Nd? && NotVia(s, y.dev.owner)
    ensures Exec(x, Exec(y, s).value).Some? && Exec(y, Exec(x, s).value).Some?
    ensures Exec(x, Exec(y, s).value) == Exec(y, Exec(x, s).value)
  {
    ForeignStillWorks(x, y, a, s);
    if x.Del? {
      MovePastDel(x, y, a, s);
    } else if x.SetDown? || x.Move? {
      MovePastReset(x, y, a, s);
    } else {
      var xy, yx := Exec(x, Exec(y, s).value), Exec(y, Exec(x, s).value);
      assert xy.value.addrs == yx.value.addrs;
      assert xy.value.routes == yx.value.routes;
    }
  }

  /** A cleanup of `a` commutes with a setup command of another entity. */
  lemma {:induction false} Commute(x: Command, y: Command, a: Name, s: State)
    requires Own(x, a) && Foreign(y, a) && Exec(x, s).Some? && Exec(y, s).Some?
    requires CleanMove(y, s)
    ensures Exec(x, Exec(y, s).value).Some? && Exec(y, Exec(x, s).value).Some?
    ensures Exec(x, Exec(y, s).value) == Exec(y, Exec(x, s).value)
  {
    hide Exec;
    if y.Move? {
      CommuteMove(x, y, a, s);
    } else if y.RouteAdd? {
      CommuteRoute(x, y, a, s);
    } else if y.AddrAdd? {
      CommuteAddr(x, y, a, s);
    } else if y.Mount? {
      CommuteMount(x, y, a, s);
    } else {
      CommuteLinks(x, y, a, s);
    }
  }

  ghost predicate AllForeign(ys: seq<Command>, a: Name)
  {
    forall i | 0 <= i < |ys| :: Foreign(ys[i], a)
  }

  ghost predicate CleanMove(y: Command, s: State)
  {
    y.Move? ==> y.dev.Nd? && NotVia(s, y.dev.owner)
  }

  /** Only downlink devices are moved, and only while no route runs through them. */
  ghost predicate CleanMoves(ys: seq<Command>, s: State)
    decreases |ys|
  {
    ys == [] || (CleanMove(ys[0], s) && (Exec(ys[0], s).Some? ==> CleanMoves(ys[1..], Exec(ys[0], s).value)))
  }

  lemma {:induction false} CleanConcat(ys: seq<Command>, zs: seq<Command>, s: State)
    requires CleanMoves(ys, s)
    requires ExecAll(ys, s).Some? ==> CleanMoves(zs, ExecAll(ys, s).value)
    ensures CleanMoves(ys + zs, s)
    decreases |ys|
  {
    if ys == [] {
      assert ys + zs == zs;
    } else {
      assert (ys + zs)[0] == ys[0] && (ys + zs)[1..] == ys[1..] + zs;
      if Exec(ys[0], s).Some? { CleanConcat(ys[1..], zs, Exec(ys[0], s).value); }
    }
  }

  lemma {:induction false} NoMovesAreClean(ys: seq<Command>, s: State)
    requires forall i | 0 <= i < |ys| :: !ys[i].Move?
    ensures CleanMoves(ys, s)
    decreases |ys|
  {
    if ys != [] && Exec(ys[0], s).Some? { NoMovesAreClean(ys[1..], Exec(ys[0], s).value); }
  }

  /** A cleanup adds no route. */
  lemma {:induction false} CleanLess(x: Command, y: Command, a: Name, s: State)
    requires Own(x, a) && Exec(x, s).Some? && CleanMove(y, s)
    ensures CleanMove(y, Exec(x, s).value)
  {
  }

  /** A cleanup of `a` commutes with a whole run of foreign commands. */
  lemma {:induction false} CommuteAll(x: Command, ys: seq<Command>, a: Name, s: State)
    requires Own(x, a) && AllForeign(ys, a) && Exec(x, s).Some? && ExecAll(ys, s).Some? && CleanMoves(ys, s)
    ensures Exec(x, ExecAll(ys, s).value).Some?
    ensures ExecAll(ys, Exec(x, s).value) == Exec(x, ExecAll(ys, s).value)
    ensures CleanMoves(ys, Exec(x, s).value)
    decreases |ys|
  {
    if ys != [] {
      var y := ys[0];
      hide Exec, Foreign, Own, CleanMove;
      Commute(x, y, a, s);
      CleanLess(x, y, a, s);
      CommuteAll(x, ys[1..], a, Exec(y, s).value);
    }
  }

  ghost predicate AllOwn(xs: seq<Command>, a: Name)
  {
    forall i | 0 <= i < |xs| :: Own(xs[i], a)
  }

  /**
    Reversible actions of `a`, then foreign commands, then the cleanups of `a` in reverse: every
    cleanup succeeds, and what is left is what the foreign commands alone make.
   */
  lemma {:induction false} UndoPastForeign(actions: seq<Action>, ys: seq<Command>, a: Name, s: State, s1: State)
    requires Reversible(actions, s) && ExecAll(Does(actions), s) == Some(s1)
    requires AllOwn(Undos(actions), a) && AllForeign(ys, a)
    requires ExecAll(ys, s1).Some? && CleanMoves(ys, s1)
    ensures ExecAll(ys, s).Some?
    ensures AllSucceed(ExecAll(ys, s1).value, Undos(actions))
    ensures Some(RunUndo(ExecAll(ys, s1).value, Undos(actions))) == ExecAll(ys, s)
    decreases |actions|
  {
    var undos := Undos(actions);
    if actions != [] {
      var last := |actions| - 1;
      var init, x := actions[..last], actions[last];
      assert actions == init + [x];
      assert undos[last] == x.undo && undos[..last] == Undos(init);
      hide Exec, Own, Foreign, CleanMove, Undos, Does, Reversible, CleanMoves, ExecAll;
      LastIsReversible(init, x, s);
      CommuteAll(x.undo, ys, a, s1);
      UndoPastForeign(init, ys, a, s, ExecAll(Does(init), s).value);
    }
  }

  /** The last of reversible actions takes the state after the others to the final one and back. */
  lemma {:induction false} LastIsReversible(init: seq<Action>, x: Action, s: State)
    requires Reversible(init + [x], s) && ExecAll(Does(init + [x]), s).Some?
    ensures Reversible(init, s) && ExecAll(Does(init), s).Some?
    ensures Exec(x.undo, ExecAll(Does(init + [x]), s).value) == ExecAll(Does(init), s)
    decreases |init|
  {
    var all := init + [x];
    ExecConcat(all[0].does, Does(all[1..]), s);
    if init == [] {
      assert all[1..] == [] && all[0] == x;
    } else {
      assert all[0] == init[0] && all[1..] == init[1..] + [x];
      ExecConcat(init[0].does, Does(init[1..]), s);
      LastIsReversible(init[1..], x, ExecAll(init[0].does, s).value);
    }
  }

  // ----- The setup of an entity is reversible ------------------------------

  lemma {:induction false} Once(c: Command, s: State)
    ensures ExecAll([c], s) == Exec(c, s)
  {
    assert [c][1..] == [];
  }

  lemma {:induction false} ExecAllWellFormed(cs: seq<Command>, s: State)
    requires WellFormed(s) && ExecAll(cs, s).Some?
    ensures WellFormed(ExecAll(cs, s).value)
    decreases |cs|
  {
    if cs != [] {
      ExecWellFormed(cs[0], s);
      ExecAllWellFormed(cs[1..], Exec(cs[0], s).value);
    }
  }

  /** The downlink device of `n` is in `ns`, down, and carries no address and no route. */
  ghost predicate Idle(n: Name, ns: Name, s: State)
  {
    && Nd(n) in s.links && s.links[Nd(n)] == Link(ns, false, None)
    && (forall q | q in s.addrs :: q.0 != Nd(n))
    && (forall k | k in s.routes :: s.routes[k].dev != Nd(n))
  }

  lemma {:induction false} DropNothing(s: State, devs: set<Dev>)
    requires forall q | q in s.addrs :: q.0 !in devs
    requires forall k | k in s.routes :: s.routes[k].dev !in devs
    ensures DropAddrs(s.addrs, devs) == s.addrs && DropRoutes(s.routes, devs) == s.routes
  {
  }

  lemma {:induction false} VethReversible(n: Name, s: State)
    requires WellFormed(s) && ExecAll([AddVeth(n), SetUp(Nu(n))], s).Some?
    ensures var s' := ExecAll([AddVeth(n), SetUp(Nu(n))], s).value;
            && Exec(Del(Nu(n)), s') == Some(s) && WellFormed(s')
            && Idle(n, n, s') && Nu(n) in s'.links && s'.links[Nu(n)] == Link(n, true, None) && s'.mounts == s.mounts
  {
    ExecAllWellFormed([AddVeth(n), SetUp(Nu(n))], s);
    ExecConcat([AddVeth(n)], [SetUp(Nu(n))], s);
    assert [AddVeth(n)] + [SetUp(Nu(n))] == [AddVeth(n), SetUp(Nu(n))];
    Once(AddVeth(n), s);
    var s1 := Exec(AddVeth(n), s).value;
    Once(SetUp(Nu(n)), s1);
    var s' := Exec(SetUp(Nu(n)), s1).value;
    DropNothing(s', Removed(Nu(n)));
    assert DropLinks(s'.links, Removed(Nu(n))) == s.links;
  }

  /** Commands that succeed one after the other succeed together. */
  lemma {:induction false} Twice(c: Command, d: Command, s: State)
    ensures ExecAll([c, d], s) == match Exec(c, s) case None => None case Some(s') => Exec(d, s')
  {
    assert [c, d][1..] == [d];
    if Exec(c, s).Some? { Once(d, Exec(c, s).value); }
  }

  lemma {:induction false} BridgeLinks(n: Name, s: State, s': State)
    requires WellFormed(s) && Nb(n) !in s.links && Nu(n) in s.links && s.links[Nu(n)] == Link(n, true, None)
    requires s' == s.(links := s.links[Nb(n) := Link(n, true, None)][Nu(n) := Link(n, true, Some(Nb(n)))])
    ensures Exec(Del(Nb(n)), s') == Some(s)
  {
    DropNothing(s', {Nb(n)});
    assert DropLinks(s'.links, {Nb(n)}) == s.links;
  }

  lemma {:induction false} BridgeReversible(n: Name, s: State)
    requires WellFormed(s) && Idle(n, n, s) && Nu(n) in s.links && s.links[Nu(n)] == Link(n, true, None)
    requires ExecAll(BridgeAction(n).does, s).Some?
    ensures var s' := ExecAll(BridgeAction(n).does, s).value;
            Exec(Del(Nb(n)), s') == Some(s) && Idle(n, n, s') && s'.mounts == s.mounts
  {
    var add, up, enslave := AddBridge(n), SetUp(Nb(n)), SetMaster(Nu(n), Nb(n));
    assert BridgeAction(n).does == [add] + [up, enslave];
    ExecConcat([add], [up, enslave], s);
    Once(add, s);
    var s1 := Exec(add, s).value;
    Twice(up, enslave, s1);
    var s2 := Exec(up, s1).value;
    var s' := Exec(enslave, s2).value;
    assert s'.links == s.links[Nb(n) := Link(n, true, None)][Nu(n) := Link(n, true, Some(Nb(n)))];
    BridgeLinks(n, s, s');
  }

  lemma {:induction false} MoveReversible(n: Name, u: Name, s: State)
    requires Idle(n, n, s) && n in s.mounts && Exec(Move(Nd(n), u), s).Some?
    ensures var s' := Exec(Move(Nd(n), u), s).value;
            Exec(Move(Nd(n), n), s') == Some(s) && Idle(n, u, s') && s'.mounts == s.mounts
  {
    DropNothing(s, {Nd(n)});
    var s' := Exec(Move(Nd(n), u), s).value;
    DropNothing(s', {Nd(n)});
    assert s'.links[Nd(n) := Link(n, false, None)] == s.links;
  }

  lemma {:induction false} MoveAndEnslaveReversible(n: Name, u: Name, s: State)
    requires Idle(n, n, s) && n in s.mounts && ExecAll([Move(Nd(n), u), SetMaster(Nd(n), Nb(u))], s).Some?
    ensures var s' := ExecAll([Move(Nd(n), u), SetMaster(Nd(n), Nb(u))], s).value;
            Exec(Move(Nd(n), n), s') == Some(s) && Unrouted(Nd(n), s')
  {
    Twice(Move(Nd(n), u), SetMaster(Nd(n), Nb(u)), s);
    MoveReversible(n, u, s);
    var s1 := Exec(Move(Nd(n), u), s).value;
    var s' := Exec(SetMaster(Nd(n), Nb(u)), s1).value;
    DropNothing(s', {Nd(n)});
    assert s'.links[Nd(n) := Link(n, false, None)] == s1.links[Nd(n) := Link(n, false, None)];
  }

  lemma {:induction false} UpReversible(d: Dev, s: State)
    requires d in s.links && !s.links[d].up && forall k | k in s.routes :: s.routes[k].dev != d
    ensures Exec(SetUp(d), s).Some? && Exec(SetDown(d), Exec(SetUp(d), s).value) == Some(s)
  {
    var s' := Exec(SetUp(d), s).value;
    assert DropRoutes(s'.routes, {d}) == s.routes;
    assert s'.links[d := s'.links[d].(up := false)] == s.links;
  }

  lemma {:induction false} AddrReversible(d: Dev, a: Addr, s: State)
    requires Exec(AddrAdd(d, a), s).Some?
    ensures Exec(AddrDel(d, a), Exec(AddrAdd(d, a), s).value) == Some(s)
  {
    assert (s.addrs + {(d, a)}) - {(d, a)} == s.addrs;
  }

  lemma {:induction false} RouteReversible(n: Name, dst: Dst, r: Route, s: State)
    requires Exec(RouteAdd(n, dst, r), s).Some?
    ensures Exec(RouteDel(n, dst), Exec(RouteAdd(n, dst, r), s).value) == Some(s)
  {
    assert s.routes[(n, dst) := r] - {(n, dst)} == s.routes;
  }

  /** Installing routes through other devices keeps the downlink device free of routes. */
  ghost predicate Unrouted(d: Dev, s: State)
  {
    d in s.links && !s.links[d].up && forall k | k in s.routes :: s.routes[k].dev != d
  }

  lemma {:induction false} RoutesReversible(p: string, hops: seq<Hop>, d: Dev, s: State)
    requires Unrouted(d, s)
    ensures Reversible(RouteActions(p, hops), s)
    ensures ExecAll(Does(RouteActions(p, hops)), s).Some? ==> Unrouted(d, ExecAll(Does(RouteActions(p, hops)), s).value)
    decreases |hops|
  {
    if hops != [] {
      var h := hops[0];
      var actions := RouteActions(p, hops);
      var c := RouteAdd(h.ns, Some(p), Route(h.gateway, h.dev));
      assert actions[1..] == RouteActions(p, hops[1..]);
      Once(c, s);
      ExecConcat([c], Does(actions[1..]), s);
      if Exec(c, s).Some? {
        RouteReversible(h.ns, Some(p), Route(h.gateway, h.dev), s);
        RoutesReversible(p, hops[1..], d, Exec(c, s).value);
      }
    }
  }

  lemma {:induction false} SingleReversible(x: Action, s: State)
    requires ExecAll(x.does, s).Some? ==> Exec(x.undo, ExecAll(x.does, s).value) == Some(s)
    ensures Reversible([x], s) && Does([x]) == x.does
  {
    assert [x][1..] == [];
  }

  /** The end of the connection of a switch or a client: downlink up, own address, default route. */
  lemma {:induction false} TailReversible(d: Dev, d': Dev, a: Addr, n: Name, r: Route, s: State)
    requires Unrouted(d, s)
    ensures Reversible([UpAction(d), AddrAction(d', a), DefaultAction(n, r)], s)
  {
    var x, y, z := UpAction(d), AddrAction(d', a), DefaultAction(n, r);
    Once(SetUp(d), s);
    UpReversible(d, s);
    var s1 := Exec(SetUp(d), s).value;
    Once(AddrAdd(d', a), s1);
    assert [x, y, z][1..] == [y, z] && [y, z][1..] == [z];
    if Exec(AddrAdd(d', a), s1).Some? {
      AddrReversible(d', a, s1);
      var s2 := Exec(AddrAdd(d', a), s1).value;
      Once(RouteAdd(n, None, r), s2);
      if Exec(RouteAdd(n, None, r), s2).Some? { RouteReversible(n, None, r, s2); }
      SingleReversible(z, s2);
    }
  }

  lemma {:induction false} SwitchReversible(n: Name, u: Name, p: string, hops: seq<Hop>, s: State)
    requires Idle(n, n, s) && n in s.mounts
    ensures Reversible(ConnectActions(n, SwitchPlan(u, p, hops)), s)
  {
    var move := Action([Move(Nd(n), u)], Move(Nd(n), n));
    var addr := AddrAction(Nd(n), Addr(p, 1));
    var routes := RouteActions(p, hops);
    var tail := [UpAction(Nd(n)), AddrAction(Nb(n), Addr(p, 2)), DefaultAction(n, Route(Addr(p, 1), Nb(n)))];
    assert ConnectActions(n, SwitchPlan(u, p, hops)) == [move] + ([addr] + (routes + tail));
    Once(Move(Nd(n), u), s);
    if Exec(Move(Nd(n), u), s).Some? {
      MoveReversible(n, u, s);
      var s1 := Exec(Move(Nd(n), u), s).value;
      Once(AddrAdd(Nd(n), Addr(p, 1)), s1);
      if Exec(AddrAdd(Nd(n), Addr(p, 1)), s1).Some? {
        AddrReversible(Nd(n), Addr(p, 1), s1);
        var s2 := Exec(AddrAdd(Nd(n), Addr(p, 1)), s1).value;
        RoutesReversible(p, hops, Nd(n), s2);
        if ExecAll(Does(routes), s2).Some? {
          TailReversible(Nd(n), Nb(n), Addr(p, 2), n, Route(Addr(p, 1), Nb(n)), ExecAll(Does(routes), s2).value);
        }
        ReversibleConcat(routes, tail, s2);
      }
      SingleReversible(addr, s1);
      ReversibleConcat([addr], routes + tail, s1);
    }
    SingleReversible(move, s);
    ReversibleConcat([move], [addr] + (routes + tail), s);
  }

  lemma {:induction false} ClientReversible(n: Name, u: Name, p: string, s: State)
    requires Idle(n, n, s) && n in s.mounts
    ensures Reversible(ConnectActions(n, ClientPlan(u, p)), s)
  {
    var move := Action([Move(Nd(n), u), SetMaster(Nd(n), Nb(u))], Move(Nd(n), n));
    var tail := [UpAction(Nd(n)), AddrAction(Nu(n), Addr(p, 3)), DefaultAction(n, Route(Addr(p, 1), Nu(n)))];
    assert ConnectActions(n, ClientPlan(u, p)) == [move] + tail;
    if ExecAll(move.does, s).Some? {
      MoveAndEnslaveReversible(n, u, s);
      TailReversible(Nd(n), Nu(n), Addr(p, 3), n, Route(Addr(p, 1), Nu(n)), ExecAll(move.does, s).value);
    }
    SingleReversible(move, s);
    ReversibleConcat([move], tail, s);
  }

  /** With its devices made, the downlink device of an entity is idle in its own namespace. */
  lemma {:induction false} LocalIdle(n: Name, plan: Plan, s: State)
    requires WellFormed(s) && !plan.RootPlan? && ExecAll(Does(LocalActions(n, plan)), s).Some?
    ensures var s' := ExecAll(Does(LocalActions(n, plan)), s).value; Idle(n, n, s') && n in s'.mounts
  {
    var v, b := VethAction(n), BridgeAction(n);
    LocalShape(n, plan, s);
    Once(Mount(n), s);
    var s1 := Exec(Mount(n), s).value;
    var rest := if plan.ClientPlan? then v.does else v.does + b.does;
    ExecConcat([Mount(n)], rest, s);
    ExecConcat(v.does, b.does, s1);
    VethReversible(n, s1);
    if plan.SwitchPlan? { BridgeReversible(n, ExecAll(v.does, s1).value); }
  }

  lemma {:induction false} LocalReversible(n: Name, plan: Plan, s: State)
    requires WellFormed(s) && n !in s.mounts
    ensures Reversible(LocalActions(n, plan), s)
  {
    var m, v, b := MountAction(n), VethAction(n), BridgeAction(n);
    Once(Mount(n), s);
    assert (s.mounts + {n}) - {n} == s.mounts;
    SingleReversible(m, s);
    var s1 := Exec(Mount(n), s).value;
    if ExecAll(v.does, s1).Some? {
      VethReversible(n, s1);
      var s2 := ExecAll(v.does, s1).value;
      if ExecAll(b.does, s2).Some? { BridgeReversible(n, s2); }
      SingleReversible(b, s2);
    }
    SingleReversible(v, s1);
    hide Exec;
    ReversibleConcat([v], [b], s1);
    ReversibleConcat([m], [v], s);
    ReversibleConcat([m], [v] + [b], s);
    LocalShape(n, plan, s);
  }

  lemma {:induction false} LocalShape(n: Name, plan: Plan, s: State)
    ensures var m, v, b := MountAction(n), VethAction(n), BridgeAction(n);
            && LocalActions(n, RootPlan) == [m]
            && (plan.ClientPlan? ==> LocalActions(n, plan) == [m] + [v] && Does(LocalActions(n, plan)) == m.does + v.does)
            && (plan.SwitchPlan? ==> LocalActions(n, plan) == [m] + ([v] + [b]))
            && (plan.SwitchPlan? ==> Does(LocalActions(n, plan)) == m.does + (v.does + b.does))
  {
    var m, v, b := MountAction(n), VethAction(n), BridgeAction(n);
    assert forall x: Action :: [x][1..] == [];
    assert [m, v] == [m] + [v] && [m, v, b] == [m] + ([v] + [b]);
    DoesConcat([m], [v]);
    DoesConcat([m], [v] + [b]);
    DoesConcat([v], [b]);
  }

  /** The whole setup of an entity is undone step by step by its cleanups. */
  lemma {:induction false} NetworkReversible(n: Name, plan: Plan, s: State)
    requires WellFormed(s) && n !in s.mounts
    ensures Reversible(NetworkActions(n, plan), s)
  {
    var local, connect := LocalActions(n, plan), ConnectActions(n, plan);
    LocalReversible(n, plan, s);
    if ExecAll(Does(local), s).Some? {
      var s1 := ExecAll(Does(local), s).value;
      if !plan.RootPlan? { LocalIdle(n, plan, s); }
      match plan {
        case RootPlan =>
        case SwitchPlan(u, p, hops) => SwitchReversible(n, u, p, hops, s1);
        case ClientPlan(u, p) => ClientReversible(n, u, p, s1);
      }
    }
    hide Exec;
    ReversibleConcat(local, connect, s);
  }

  // ----- Undo independence -------------------------------------------------

  /** An entity that is not below `a`: `a` is neither its uplink nor a switch further up. */
  ghost predicate NotBelow(a: Name, e: (Name, Plan))
  {
    && e.0 != a
    && (!e.1.RootPlan? ==> e.1.uplink != a)
    && (e.1.SwitchPlan? ==> forall i | 0 <= i < |e.1.hops| :: e.1.hops[i].dev.owner != a)
  }

  /** The setups of entities, one after the other. */
  ghost function Setups(es: seq<(Name, Plan)>): seq<Command>
    decreases |es|
  {
    if es == [] then [] else Does(NetworkActions(es[0].0, es[0].1)) + Setups(es[1..])
  }

  lemma {:induction false} OwnConcat(xs: seq<Action>, ys: seq<Action>, a: Name)
    requires AllOwn(Undos(xs), a) && AllOwn(Undos(ys), a)
    ensures AllOwn(Undos(xs + ys), a)
  {
    UndosConcat(xs, ys);
  }

  lemma {:induction false} OwnAll(xs: seq<Action>, a: Name)
    requires forall i | 0 <= i < |xs| :: Own(xs[i].undo, a)
    ensures AllOwn(Undos(xs), a)
  {
  }

  lemma {:induction false} LocalOwn(a: Name, plan: Plan)
    ensures AllOwn(Undos(LocalActions(a, plan)), a)
  {
    assert Own(Umount(a), a) && Own(Del(Nu(a)), a) && Own(Del(Nb(a)), a);
    hide Own;
    OwnAll(LocalActions(a, plan), a);
  }

  lemma {:induction false} ConnectOwn(a: Name, plan: Plan)
    ensures AllOwn(Undos(ConnectActions(a, plan)), a)
  {
    assert Own(Move(Nd(a), a), a) && Own(SetDown(Nd(a)), a) && Own(RouteDel(a, None), a);
    assert forall d, x | d in {Nu(a), Nb(a), Nd(a)} :: Own(AddrDel(d, x), a);
    match plan {
      case RootPlan =>
      case ClientPlan(u, p) =>
        hide Own;
        OwnAll(ConnectActions(a, plan), a);
      case SwitchPlan(u, p, hops) =>
        var head := [Action([Move(Nd(a), u)], Move(Nd(a), a)), AddrAction(Nd(a), Addr(p, 1))];
        var tail := [UpAction(Nd(a)), AddrAction(Nb(a), Addr(p, 2)), DefaultAction(a, Route(Addr(p, 1), Nb(a)))];
        RoutesOwn(p, hops, a);
        hide Own;
        OwnAll(head, a);
        OwnAll(tail, a);
        OwnConcat(head, RouteActions(p, hops), a);
        OwnConcat(head + RouteActions(p, hops), tail, a);
    }
  }

  lemma {:induction false} OwnCleanups(a: Name, plan: Plan)
    ensures AllOwn(Undos(NetworkActions(a, plan)), a)
  {
    hide AllOwn;
    LocalOwn(a, plan);
    ConnectOwn(a, plan);
    OwnConcat(LocalActions(a, plan), ConnectActions(a, plan), a);
  }

  lemma {:induction false} RoutesOwn(p: string, hops: seq<Hop>, a: Name)
    ensures AllOwn(Undos(RouteActions(p, hops)), a)
  {
  }

  lemma {:induction false} DoesForeign(actions: seq<Action>, a: Name)
    requires forall i | 0 <= i < |actions| :: AllForeign(actions[i].does, a)
    ensures AllForeign(Does(actions), a)
    decreases |actions|
  {
    if actions != [] {
      hide Foreign;
      DoesForeign(actions[1..], a);
    }
  }

  lemma {:induction false} RoutesForeign(a: Name, p: string, hops: seq<Hop>)
    requires forall i | 0 <= i < |hops| :: hops[i].dev.owner != a
    ensures AllForeign(Does(RouteActions(p, hops)), a)
  {
    DoesForeign(RouteActions(p, hops), a);
  }

  lemma {:induction false} ForeignConcat(xs: seq<Action>, ys: seq<Action>, a: Name)
    requires AllForeign(Does(xs), a) && AllForeign(Does(ys), a)
    ensures AllForeign(Does(xs + ys), a)
  {
    hide Foreign;
    DoesConcat(xs, ys);
  }

  lemma {:induction false} LocalForeign(a: Name, n: Name, plan: Plan)
    requires n != a
    ensures AllForeign(Does(LocalActions(n, plan)), a)
  {
    DoesForeign(LocalActions(n, plan), a);
  }

  lemma {:induction false} ConnectForeign(a: Name, n: Name, plan: Plan)
    requires NotBelow(a, (n, plan))
    ensures AllForeign(Does(ConnectActions(n, plan)), a)
  {
    if plan.SwitchPlan? {
      var SwitchPlan(u, p, hops) := plan;
      var head := [Action([Move(Nd(n), u)], Move(Nd(n), n)), AddrAction(Nd(n), Addr(p, 1))];
      var tail := [UpAction(Nd(n)), AddrAction(Nb(n), Addr(p, 2)), DefaultAction(n, Route(Addr(p, 1), Nb(n)))];
      DoesForeign(head, a);
      DoesForeign(tail, a);
      RoutesForeign(a, p, hops);
      hide AllForeign, Foreign, Does;
      ForeignConcat(head, RouteActions(p, hops), a);
      ForeignConcat(head + RouteActions(p, hops), tail, a);
    } else {
      DoesForeign(ConnectActions(n, plan), a);
    }
  }

  lemma {:induction false} SetupForeign(a: Name, e: (Name, Plan))
    requires NotBelow(a, e)
    ensures AllForeign(Does(NetworkActions(e.0, e.1)), a)
  {
    LocalForeign(a, e.0, e.1);
    ConnectForeign(a, e.0, e.1);
    hide AllForeign, Does, LocalActions, ConnectActions;
    ForeignConcat(LocalActions(e.0, e.1), ConnectActions(e.0, e.1), a);
  }

  lemma {:induction false} SetupsForeign(a: Name, es: seq<(Name, Plan)>)
    requires forall i | 0 <= i < |es| :: NotBelow(a, es[i])
    ensures AllForeign(Setups(es), a)
    decreases |es|
  {
    if es != [] {
      SetupForeign(a, es[0]);
      SetupsForeign(a, es[1..]);
    }
  }

  lemma {:induction false} DoesNoMoves(actions: seq<Action>)
    requires forall i, j | 0 <= i < |actions| && 0 <= j < |actions[i].does| :: !actions[i].does[j].Move?
    ensures forall i | 0 <= i < |Does(actions)| :: !Does(actions)[i].Move?
    decreases |actions|
  {
    if actions != [] { DoesNoMoves(actions[1..]); }
  }

  /** Once the devices of `n` exist, connecting it moves a device that carries no route. */
  lemma {:induction false} ConnectClean(n: Name, plan: Plan, s: State)
    requires Idle(n, n, s)
    ensures CleanMoves(Does(ConnectActions(n, plan)), s)
  {
    var actions := ConnectActions(n, plan);
    if actions != [] {
      var cs, first := Does(actions), actions[0].does;
      DoesNoMoves(actions[1..]);
      assert cs == first + Does(actions[1..]);
      assert cs[0] == first[0] && CleanMove(cs[0], s);
      assert cs[1..] == first[1..] + Does(actions[1..]);
      if Exec(cs[0], s).Some? { NoMovesAreClean(cs[1..], Exec(cs[0], s).value); }
    }
  }

  lemma {:induction false} SetupClean(n: Name, plan: Plan, s: State)
    requires WellFormed(s)
    ensures CleanMoves(Does(NetworkActions(n, plan)), s)
  {
    var local, connect := LocalActions(n, plan), ConnectActions(n, plan);
    DoesNoMoves(local);
    NoMovesAreClean(Does(local), s);
    if ExecAll(Does(local), s).Some? && !plan.RootPlan? {
      LocalIdle(n, plan, s);
      ConnectClean(n, plan, ExecAll(Does(local), s).value);
    }
    DoesConcat(local, connect);
    CleanConcat(Does(local), Does(connect), s);
  }

  lemma {:induction false} SetupsClean(es: seq<(Name, Plan)>, s: State)
    requires WellFormed(s)
    ensures CleanMoves(Setups(es), s)
    decreases |es|
  {
    if es != [] {
      var cs := Does(NetworkActions(es[0].0, es[0].1));
      SetupClean(es[0].0, es[0].1, s);
      if ExecAll(cs, s).Some? {
        ExecAllWellFormed(cs, s);
        SetupsClean(es[1..], ExecAll(cs, s).value);
      }
      CleanConcat(cs, Setups(es[1..]), s);
    }
  }

  /**
    Undo independence: `a` is set up, then any entities not below it, then `a` is shut down.  Every
    cleanup of `a` finds what it undoes, and the mounts, links, addresses and routes that remain are
    those of setting up the other entities alone.
   */
  lemma {:induction false} UndoIndependence(a: Name, plan: Plan, es: seq<(Name, Plan)>, s: State)
    requires WellFormed(s) && a !in s.mounts
    requires forall i | 0 <= i < |es| :: NotBelow(a, es[i])
    requires ExecAll(Does(NetworkActions(a, plan)) + Setups(es), s).Some?
    ensures var after := ExecAll(Does(NetworkActions(a, plan)) + Setups(es), s).value;
            var undos := Undos(NetworkActions(a, plan));
            AllSucceed(after, undos) && ExecAll(Setups(es), s) == Some(RunUndo(after, undos))
  {
    var actions := NetworkActions(a, plan);
    ExecConcat(Does(actions), Setups(es), s);
    var s1 := ExecAll(Does(actions), s).value;
    ExecAllWellFormed(Does(actions), s);
    NetworkReversible(a, plan, s);
    OwnCleanups(a, plan);
    SetupsForeign(a, es);
    SetupsClean(es, s1);
    UndoPastForeign(actions, Setups(es), a, s, s1);
  }
}
