/**
  Deadlock freedom: requests wait strictly up the uplink chain, so the protocol
  cannot deadlock exactly when every uplink chain ends.
 */
module Deadlock {
  import opened Uplinks
  import opened Lifecycle
  import opened LifecycleInvariant
  import opened LifecycleSteps

  ghost function Leaf(r: Request): Frame
    requires r.frames != []
  {
    r.frames[|r.frames| - 1]
  }

  /** The name that the owner of the token of `n` is itself queued for. */
  ghost function WaitsFor(s: State, n: Name): Option<Name>
  {
    var f := Owner(s, n);
    if QueueOf(s, n).held && Valid(s, f) && Leaf(s.reqs[f.req]).phase == Queued
    then Some(Leaf(s.reqs[f.req]).name) else None
  }

  ghost predicate WaitPath(s: State, path: seq<Name>)
  {
    path != [] && forall i | 0 <= i < |path| - 1 :: WaitsFor(s, path[i]) == Some(path[i + 1])
  }

  /** Following holders from `n` leads to one that is not waiting on any queue. */
  ghost predicate Unblocked(s: State, n: Name)
  {
    exists path: seq<Name> :: WaitPath(s, path) && path[0] == n && WaitsFor(s, path[|path| - 1]).None?
  }

  ghost predicate DeadlockFree(s: State)
  {
    forall f: Ref | Valid(s, f) && At(s, f).phase == Queued :: Unblocked(s, At(s, f).name)
  }

  // ----- Waiting goes up ---------------------------------------------------

  lemma {:induction false} FramesWalk(t: Topology, r: Request, i: nat, j: nat)
    requires RequestInv(t, r) && i <= j < |r.frames|
    ensures Walk(t, r.frames[i].name, j - i) == Some(r.frames[j].name)
    decreases j - i
  {
    if i < j {
      FramesWalk(t, r, i + 1, j);
    }
  }

  /** A holder waits only for names strictly above its own, and those are held. */
  lemma {:induction false} WaitsUpwards(t: Topology, s: State, n: Name)
    requires Inv(t, s) && WaitsFor(s, n).Some?
    ensures Above(t, n, WaitsFor(s, n).value)
    ensures QueueOf(s, WaitsFor(s, n).value).held
  {
    var f := Owner(s, n);
    var r := s.reqs[f.req];
    assert RequestInv(t, r);
    assert NameOk(s, n);
    var last := |r.frames| - 1;
    assert f.depth < last;
    FramesWalk(t, r, f.depth, last);
    var leaf := Ref(f.req, last);
    assert FrameOk(s, leaf) && NameOk(s, At(s, leaf).name);
  }

  /** The way out for a request queued on `n`. */
  ghost predicate Escape(t: Topology, s: State, n: Name, path: seq<Name>)
  {
    && WaitPath(s, path) && path[0] == n
    && (forall i | 0 <= i < |path| :: QueueOf(s, path[i]).held)
    && (forall i | 0 <= i < |path| - 1 :: Above(t, path[i], path[i + 1]))
    && WaitsFor(s, path[|path| - 1]).None?
  }

  lemma {:induction false} LongerEscape(t: Topology, s: State, n: Name, m: Name, path: seq<Name>)
    requires Escape(t, s, m, path) && WaitsFor(s, n) == Some(m) && Above(t, n, m) && QueueOf(s, n).held
    ensures Escape(t, s, n, [n] + path)
  {
    hide WaitsFor, Above, QueueOf;
    assert forall i | 0 < i < |[n] + path| :: ([n] + path)[i] == path[i - 1];
  }

  lemma {:induction false} FindEscape(t: Topology, rank: Rank, s: State, n: Name) returns (path: seq<Name>)
    requires Inv(t, s) && Ranked(t, rank) && n in t && QueueOf(s, n).held
    ensures Escape(t, s, n, path)
    decreases rank[n]
  {
    hide Inv, WaitsFor, QueueOf;
    if WaitsFor(s, n).None? {
      path := [n];
    } else {
      var m := WaitsFor(s, n).value;
      WaitsUpwards(t, s, n);
      var k: nat :| k > 0 && Walk(t, n, k) == Some(m);
      WalkDropsRank(t, rank, n, k);
      hide Ranked, Above, Walk;
      var rest := FindEscape(t, rank, s, m);
      path := [n] + rest;
      LongerEscape(t, s, n, m, rest);
    }
  }

  // ----- Where waiting ends ------------------------------------------------

  /** From an awaiting frame the chain of children leads to one that waits for a reply or in a queue. */
  lemma {:induction false} IdleLeaf(t: Topology, s: State, f: Ref) returns (g: Ref)
    requires Inv(t, s) && s.stack == [] && Valid(s, f) && Alive(At(s, f).phase)
    ensures Valid(s, g) && g.req == f.req && g.depth >= f.depth
    ensures Suspended(At(s, g).phase) || (At(s, g).phase == Queued && g.depth == |s.reqs[g.req].frames| - 1)
    decreases |s.reqs[f.req].frames| - f.depth
  {
    assert RequestInv(t, s.reqs[f.req]);
    IdleRunning(t, s, f);
    if At(s, f).phase == AwaitUplink {
      g := IdleLeaf(t, s, Child(f));
    } else {
      g := f;
    }
  }

  /** The last holder on the way out waits for an answer of the environment. */
  lemma {:induction false} EscapeIsAnswerable(t: Topology, s: State, n: Name) returns (g: Ref)
    requires Inv(t, s) && s.stack == [] && QueueOf(s, n).held && WaitsFor(s, n).None?
    ensures Valid(s, g) && g.req == Owner(s, n).req && Suspended(At(s, g).phase)
    ensures Enabled(t, s, Reply(g, Ok))
  {
    assert NameOk(s, n);
    IdleRunning(t, s, Owner(s, n));
    g := IdleLeaf(t, s, Owner(s, n));
  }

  /**
    With ending uplink chains, in every reachable state every queued request leads, from holder to
    what it waits for, strictly up an uplink chain to a holder that waits on no queue; and once the
    event loop is idle, that holder has an answer of the environment to wait for.
   */
  lemma {:induction false} DeadlockFreedom(t: Topology, es: seq<Event>, f: Ref) returns (path: seq<Name>)
    requires Closed(t) && AllChainsEnd(t) && After(t, es).Some?
    requires var s := After(t, es).value; Valid(s, f) && At(s, f).phase == Queued
    ensures var s := After(t, es).value;
            && Escape(t, s, At(s, f).name, path)
            && (s.stack == [] ==>
                  exists g: Ref :: Valid(s, g) && g.req == Owner(s, path[|path| - 1]).req && Enabled(t, s, Reply(g, Ok)))
  {
    var s := After(t, es).value;
    RunInv(t, es);
    RankedIffAllChainsEnd(t);
    GrantedIsLast(t, s, f);
    assert FrameOk(s, f) && NameOk(s, At(s, f).name);
    hide Inv;
    path := FindEscape(t, RankOf(t), s, At(s, f).name);
    if s.stack == [] {
      var g := EscapeIsAnswerable(t, s, path[|path| - 1]);
    }
  }

  /** Progress: an idle daemon with an unfinished request has an answer to wait for. */
  lemma {:induction false} Progress(t: Topology, es: seq<Event>, f: Ref) returns (g: Ref)
    requires Closed(t) && AllChainsEnd(t) && After(t, es).Some?
    requires var s := After(t, es).value; s.stack == [] && Valid(s, f) && At(s, f).phase != Gone
    ensures Enabled(t, After(t, es).value, Reply(g, Ok))
  {
    var s := After(t, es).value;
    RunInv(t, es);
    IdleRunning(t, s, f);
    g := IdleLeaf(t, s, f);
    if At(s, g).phase == Queued {
      var path := DeadlockFreedom(t, es, g);
      var h: Ref :| Enabled(t, s, Reply(h, Ok));
      g := h;
    }
  }

  // ----- A chain that does not end deadlocks -------------------------------

  /** One Start request that has climbed `k` uplinks without meeting a held name. */
  ghost predicate Climbing(t: Topology, s: State, k: nat)
  {
    && |s.reqs| == 1 && s.reqs[0].op == Start && |s.reqs[0].frames| == k + 1
    && s.reqs[0].frames[k].phase == Granted
    && s.live == {}
    && s.stack == [Ref(0, k)]
  }

  lemma {:induction false} DistinctFitIn(names: seq<Name>, all: set<Name>)
    requires forall i | 0 <= i < |names| :: names[i] in all
    requires forall i, j | 0 <= i < j < |names| :: names[i] != names[j]
    ensures |names| <= |all|
    decreases |names|
  {
    if names != [] {
      var last := |names| - 1;
      DistinctFitIn(names[..last], all - {names[last]});
    }
  }

  /** The frames of a climbing request own distinct names, so it cannot climb past the last entity. */
  lemma {:induction false} ClimbIsBounded(t: Topology, s: State, k: nat)
    requires Inv(t, s) && Climbing(t, s, k)
    ensures k + 1 <= |t|
  {
    var fs := s.reqs[0].frames;
    assert RequestInv(t, s.reqs[0]);
    var names := seq(k + 1, i requires 0 <= i < k + 1 => fs[i].name);
    forall i, j | 0 <= i < j < k + 1 ensures names[i] != names[j] {
      assert FrameOk(s, Ref(0, i)) && FrameOk(s, Ref(0, j));
    }
    DistinctFitIn(names, t.Keys);
  }

  lemma {:induction false} ClimbStep(t: Topology, s: State, k: nat)
    requires Closed(t) && Inv(t, s) && Climbing(t, s, k)
    requires t[s.reqs[0].frames[k].name].uplink.Some?
    ensures Enabled(t, s, Run(Connected))
    ensures var s' := Next(t, s, Run(Connected));
            var u := t[s.reqs[0].frames[k].name].uplink.value;
            && |s'.reqs| == 1 && |s'.reqs[0].frames| == k + 2 && s'.reqs[0].frames[k + 1].name == u
            && s'.reqs[0].frames[0].name == s.reqs[0].frames[0].name
            && (if QueueOf(s, u).held then s'.reqs[0].frames[k + 1].phase == Queued else Climbing(t, s', k + 1))
  {
    Pop(t, s);
    hide Inv;
    EnqueueFrames(WithChild(s.(stack := []), Ref(0, k), t[s.reqs[0].frames[k].name].uplink.value), Ref(0, k + 1));
    WithChildFrames(s.(stack := []), Ref(0, k), t[s.reqs[0].frames[k].name].uplink.value);
  }

  /** A request whose only way is to wait for itself. */
  lemma {:induction false} SelfWaitIsDeadlock(t: Topology, s: State)
    requires Inv(t, s) && |s.reqs| == 1 && Leaf(s.reqs[0]).phase == Queued
    ensures !DeadlockFree(s)
  {
    var f := Ref(0, |s.reqs[0].frames| - 1);
    var n := At(s, f).name;
    assert FrameOk(s, f) && NameOk(s, n);
    assert WaitsFor(s, n) == Some(n);
    hide Inv, WaitsFor, NameOk, FrameOk;
    if Unblocked(s, n) {
      var path: seq<Name> :| WaitPath(s, path) && path[0] == n && WaitsFor(s, path[|path| - 1]).None?;
      StuckPath(s, n, path, |path| - 1);
    }
  }

  lemma {:induction false} StuckPath(s: State, n: Name, path: seq<Name>, i: nat)
    requires WaitsFor(s, n) == Some(n) && WaitPath(s, path) && path[0] == n && i < |path|
    ensures path[i] == n
    decreases i
  {
    if i > 0 {
      StuckPath(s, n, path, i - 1);
    }
  }

  /** On a chain that never ends, whoever is on top of the climb has an uplink. */
  lemma {:induction false} EndlessClimb(t: Topology, s: State, k: nat)
    requires Inv(t, s) && Climbing(t, s, k) && !ChainEnds(t, s.reqs[0].frames[0].name)
    ensures s.reqs[0].frames[k].name in t && t[s.reqs[0].frames[k].name].uplink.Some?
  {
    assert RequestInv(t, s.reqs[0]);
    var a, n := s.reqs[0].frames[0].name, s.reqs[0].frames[k].name;
    FramesWalk(t, s.reqs[0], 0, k);
    hide Inv, RequestInv;
    WalkConcat(t, a, k, n, 1);
    assert Walk(t, a, k + 1).Some?;
  }

  lemma {:induction false} ClimbDeadlocks(t: Topology, es: seq<Event>, k: nat) returns (es': seq<Event>)
    requires Closed(t) && After(t, es).Some? && Climbing(t, After(t, es).value, k)
    requires !ChainEnds(t, After(t, es).value.reqs[0].frames[0].name)
    ensures After(t, es').Some? && !DeadlockFree(After(t, es').value)
    decreases |t| - k
  {
    var s := After(t, es).value;
    RunInv(t, es);
    ClimbIsBounded(t, s, k);
    var n := s.reqs[0].frames[k].name;
    EndlessClimb(t, s, k);
    ClimbStep(t, s, k);
    es' := es + [Run(Connected)];
    assert es'[..|es|] == es;
    var s' := Next(t, s, Run(Connected));
    assert After(t, es') == Some(s');
    hide Inv, Next, Enabled, After, DeadlockFree;
    if QueueOf(s, t[n].uplink.value).held {
      RunInv(t, es');
      SelfWaitIsDeadlock(t, s');
    } else {
      es' := ClimbDeadlocks(t, es', k + 1);
    }
  }

  lemma {:induction false} FirstClimb(t: Topology, n: Name)
    requires n in t
    ensures var es := [StartRequest(n)];
            && After(t, es).Some? && Climbing(t, After(t, es).value, 0)
            && After(t, es).value.reqs[0].frames[0].name == n
  {
    var es := [StartRequest(n)];
    assert es[..0] == [];
    assert After(t, es[..0]) == Some(Initial);
  }

  /** The protocol is deadlock free in every reachable state exactly when every uplink chain ends. */
  lemma {:induction false} DeadlockFreeIffChainsEnd(t: Topology)
    requires Closed(t)
    ensures AllChainsEnd(t) <==> (forall s: State | Reachable(t, s) :: DeadlockFree(s))
  {
    if AllChainsEnd(t) {
      forall s: State | Reachable(t, s) ensures DeadlockFree(s) {
        var es: seq<Event> :| After(t, es) == Some(s);
        forall f: Ref | Valid(s, f) && At(s, f).phase == Queued ensures Unblocked(s, At(s, f).name) {
          var path := DeadlockFreedom(t, es, f);
        }
      }
    } else {
      var n :| n in t && !ChainEnds(t, n);
      FirstClimb(t, n);
      var es := ClimbDeadlocks(t, [StartRequest(n)], 0);
      assert Reachable(t, After(t, es).value);
    }
  }
}
