/**
  Every step keeps the invariant, so it holds in every reachable state.
 */
module LifecycleSteps {
  import opened Uplinks
  import opened Lifecycle
  import opened LifecycleInvariant

  // ----- Starting the uplink -----------------------------------------------

  /** The state in which the new frame on the uplink calls `enqueue`. */
  function WithChild(s: State, f: Ref, u: Name): State
    requires Valid(s, f)
  {
    var s1 := SetPhase(s, f, AwaitUplink);
    var r := s1.reqs[f.req];
    s1.(reqs := s1.reqs[f.req := r.(frames := r.frames + [Frame(u, Queued)])])
  }

  lemma {:induction false} WithChildFrames(s: State, f: Ref, u: Name)
    requires Valid(s, f) && f.depth + 1 == |s.reqs[f.req].frames|
    ensures var s' := WithChild(s, f, u);
            && (forall g: Ref :: Valid(s', g) <==> Valid(s, g) || g == Child(f))
            && (forall g: Ref | Valid(s, g) && g != f :: At(s', g) == At(s, g))
            && At(s', f) == Frame(At(s, f).name, AwaitUplink)
            && !Valid(s, Child(f)) && Valid(s', Child(f)) && At(s', Child(f)) == Frame(u, Queued)
  {
  }

  lemma {:induction false} WithChildRequest(t: Topology, r: Request, d: nat, u: Name)
    requires RequestInv(t, r) && d + 1 == |r.frames| && r.frames[d].phase == Granted && r.op == Start
    requires t[r.frames[d].name].uplink == Some(u) && u in t
    ensures RequestInv(t, r.(frames := r.frames[d := r.frames[d].(phase := AwaitUplink)] + [Frame(u, Queued)]))
  {
    var fs := r.frames[d := r.frames[d].(phase := AwaitUplink)] + [Frame(u, Queued)];
    OnlyOne(r.op, r.frames, d);
    assert forall i | 0 <= i < d :: fs[i] == r.frames[i];
    assert Phases(r.op, fs);
    assert Shape(t, r.op, fs);
  }

  lemma {:induction false} WithChildName(s: State, f: Ref, u: Name, n: Name)
    requires Valid(s, f) && f.depth + 1 == |s.reqs[f.req].frames| && At(s, f).phase == Granted
    requires NameOk(s, n)
    ensures NameOk(WithChild(s, f, u), n) && Child(f) !in QueueOf(WithChild(s, f, u), n).waiting
  {
    WithChildFrames(s, f, u);
    SameQueues(s, WithChild(s, f, u), n);
    hide WithChild;
  }

  lemma {:induction false} WithChildFrame(s: State, f: Ref, u: Name, g: Ref)
    requires Valid(s, f) && f.depth + 1 == |s.reqs[f.req].frames| && At(s, f).phase == Granted
    requires FrameOk(s, g) && g != Child(f)
    ensures FrameOk(WithChild(s, f, u), g)
  {
    WithChildFrames(s, f, u);
    if Valid(s, g) {
      SameQueues(s, WithChild(s, f, u), At(s, g).name);
    }
  }

  lemma {:induction false} WithChildBelow(s: State, f: Ref, u: Name)
    requires Valid(s, f) && f.depth + 1 == |s.reqs[f.req].frames| && Below(s, f)
    ensures Below(WithChild(s, f, u), Child(f))
  {
    WithChildFrames(s, f, u);
  }

  lemma {:induction false} WithChildLive(s: State, f: Ref, u: Name)
    requires Valid(s, f) && f.depth + 1 == |s.reqs[f.req].frames| && LiveInv(s) && Below(s, f)
    requires At(s, f).name !in s.live && At(s, f).phase == Granted
    ensures LiveInv(WithChild(s, f, u))
  {
    WithChildFrames(s, f, u);
    assert forall g: Ref | Valid(s, g) && g != f && Active(At(s, g).phase) :: g in s.stack;
  }

  lemma {:induction false} StartUplinkInv(t: Topology, s: State, f: Ref, u: Name)
    requires Running(t, s, f) && LiveInv(s) && Ledger(s)
    requires f.depth + 1 == |s.reqs[f.req].frames|
    requires At(s, f).phase == Granted && s.reqs[f.req].op == Start && At(s, f).name !in s.live
    requires At(s, f).name in t && t[At(s, f).name].uplink == Some(u) && u in t
    ensures Inv(t, StartUplink(s, f, u))
  {
    var s' := WithChild(s, f, u);
    WithChildBelow(s, f, u);
    WithChildLive(s, f, u);
    WithChildRequest(t, s.reqs[f.req], f.depth, u);
    RephasedChain(t, s, s', f.req);
    hide NameOk, FrameOk, RequestInv, Below, LiveInv, StackInv, ChainInv;
    WithChildFrames(s, f, u);
    forall n: Name ensures NameOk(s', n) && Child(f) !in QueueOf(s', n).waiting {
      WithChildName(s, f, u, n);
    }
    forall g: Ref ensures g == Child(f) || FrameOk(s', g) {
      if g != Child(f) { WithChildFrame(s, f, u, g); }
    }
    EnqueueCore(t, s', Child(f));
    EnqueueLive(s', Child(f));
    assert StartUplink(s, f, u) == Enqueue(s', Child(f));
  }

  // ----- Running the top of the call stack ---------------------------------

  lemma {:induction false} GrantedIsLast(t: Topology, s: State, f: Ref)
    requires ChainInv(t, s) && Valid(s, f)
    ensures At(s, f).phase == Granted ==> f.depth + 1 == |s.reqs[f.req].frames|
    ensures At(s, f).phase == Resumed ==> s.reqs[f.req].op == Start
    ensures At(s, f).phase.Setup? ==> s.reqs[f.req].op == Start
    ensures At(s, f).phase.Stopping? ==> s.reqs[f.req].op == Stop && f.depth == 0
    ensures At(s, f).name in t
  {
    assert RequestInv(t, s.reqs[f.req]);
  }

  lemma {:induction false} ReturnUnitLedger(s: State, f: Ref)
    requires Valid(s, f) && Ledger(s)
    ensures Ledger(ReturnUnit(s, f))
  {
  }

  lemma {:induction false} FailLedger(s: State, f: Ref, c: Completion)
    requires Valid(s, f) && Ledger(s)
    ensures Ledger(Fail(s, f, c))
  {
  }

  lemma {:induction false} SuspendLedger(s: State, f: Ref, p: Phase)
    requires Valid(s, f) && Ledger(s)
    ensures Ledger(SetPhase(s, f, p))
  {
  }

  lemma {:induction false} ReturnUnitInv(t: Topology, s: State, f: Ref)
    requires Running(t, s, f) && LiveInv(s) && Ledger(s)
    requires At(s, f).phase.Granted? || Suspended(At(s, f).phase)
    requires s.reqs[f.req].op == Start ==> At(s, f).name in s.live
    ensures Inv(t, ReturnUnit(s, f))
  {
    ParentAwaits(t, s, f);
    hide QueueInv, ChainInv, Below, LiveInv, StackInv, Ledger, ReturnUnit;
    ReturnUnitCore(t, s, f);
    ReturnUnitLive(s, f);
    ReturnUnitLedger(s, f);
  }

  lemma {:induction false} FailInv(t: Topology, s: State, f: Ref, c: Completion)
    requires Running(t, s, f) && LiveExcept(s, f) && Ledger(s)
    requires Alive(At(s, f).phase) && Owns(At(s, f).phase) && At(s, f).phase != AwaitUplink
    ensures Inv(t, Fail(s, f, c))
  {
    hide QueueInv, ChainInv, Below, LiveInv, StackInv, Ledger, Fail, LiveExcept;
    FailCore(t, s, f, c);
    FailLive(s, f, c);
    FailLedger(s, f, c);
  }

  lemma {:induction false} SuspendInv(t: Topology, s: State, f: Ref, p: Phase)
    requires Running(t, s, f) && LiveExcept(s, f) && Ledger(s)
    requires Alive(At(s, f).phase) && Owns(At(s, f).phase) && At(s, f).phase != AwaitUplink
    requires Suspended(p) && (p.Setup? <==> s.reqs[f.req].op == Start)
    requires LiveFrame(s.live, Frame(At(s, f).name, p))
    ensures Inv(t, SetPhase(s, f, p))
  {
    hide QueueInv, ChainInv, Below, LiveInv, StackInv, Ledger, SetPhase, LiveExcept;
    SuspendCore(t, s, f, p);
    SuspendLive(s, f, p);
    SuspendLedger(s, f, p);
  }

  lemma {:induction false} BodyInv(t: Topology, s: State, f: Ref, o: SpawnOutcome)
    requires Closed(t) && Running(t, s, f) && LiveInv(s) && Ledger(s)
    requires At(s, f).phase == Granted && f.depth + 1 == |s.reqs[f.req].frames|
    ensures Inv(t, Body(t, s, f, o))
  {
    GrantedIsLast(t, s, f);
    var n := At(s, f).name;
    LiveSame(s, f, s);
    hide QueueInv, ChainInv, Below, LiveInv, LiveExcept, StackInv, SetPhase, ReturnUnit, Fail, Spawn, StartUplink;
    if s.reqs[f.req].op == Start {
      if n in s.live {
        ReturnUnitInv(t, s, f);
      } else if t[n].uplink.Some? {
        StartUplinkInv(t, s, f, t[n].uplink.value);
      } else {
        SpawnInv(t, s, f, o);
      }
    } else if n !in s.live {
      FailInv(t, s, f, Error);
    } else {
      SuspendInv(t, s, f, Stopping(0));
    }
  }

  lemma {:induction false} PopQueueInv(s: State)
    requires QueueInv(s) && s.stack != []
    ensures QueueInv(s.(stack := s.stack[1..]))
  {
    RephasedQueues(s, s.(stack := s.stack[1..]));
  }

  lemma {:induction false} PopBelow(s: State)
    requires StackInv(s) && s.stack != []
    ensures Valid(s, s.stack[0]) && Active(At(s, s.stack[0]).phase)
    ensures Below(s.(stack := s.stack[1..]), s.stack[0])
  {
    var s1 := s.(stack := s.stack[1..]);
    SameRequests(s, s1);
    assert forall i | 0 <= i < |s1.stack| :: s1.stack[i] == s.stack[i + 1];
    forall g: Ref | Valid(s1, g) && Active(At(s1, g).phase) && g != s.stack[0] ensures g in s1.stack {
      assert g in s.stack;
      var i :| 0 <= i < |s.stack| && s.stack[i] == g;
      assert s1.stack[i - 1] == g;
    }
  }

  lemma {:induction false} PopLive(s: State)
    requires LiveInv(s) && Ledger(s) && s.stack != []
    ensures LiveInv(s.(stack := s.stack[1..])) && Ledger(s.(stack := s.stack[1..]))
  {
    SameRequests(s, s.(stack := s.stack[1..]));
  }

  lemma {:induction false} Pop(t: Topology, s: State)
    requires Inv(t, s) && s.stack != []
    ensures CanRun(s)
    ensures var s1 := s.(stack := s.stack[1..]);
            Running(t, s1, s.stack[0]) && LiveInv(s1) && Ledger(s1)
  {
    PopBelow(s);
    PopQueueInv(s);
    PopLive(s);
    GrantedIsLast(t, s, s.stack[0]);
    assert NameOk(s, At(s, s.stack[0]).name);
    hide LiveInv, Below, QueueInv, RequestInv, StackInv;
  }

  lemma {:induction false} RunTopInv(t: Topology, s: State, o: SpawnOutcome)
    requires Closed(t) && Inv(t, s) && s.stack != []
    ensures CanRun(s) && Inv(t, RunTop(t, s, o))
  {
    Pop(t, s);
    var f := s.stack[0];
    var s1 := s.(stack := s.stack[1..]);
    PopBelow(s);
    GrantedIsLast(t, s1, f);
    assert LiveFrame(s.live, At(s, f));
    hide QueueInv, ChainInv, Below, LiveInv, StackInv, Ledger, Body, Spawn, Destroy;
    match At(s, f).phase {
      case Granted => BodyInv(t, s1, f, o);
      case Resumed => SpawnInv(t, s1, f, o);
      case Leaving => DestroyInv(t, s1, f);
    }
  }

  // ----- Events ------------------------------------------------------------

  lemma {:induction false} IdleRunning(t: Topology, s: State, f: Ref)
    requires Inv(t, s) && s.stack == [] && Valid(s, f)
    ensures Running(t, s, f)
  {
  }

  lemma {:induction false} NoneActive(t: Topology, s: State)
    requires Inv(t, s) && s.stack == []
    ensures forall g: Ref | Valid(s, g) :: !Active(At(s, g).phase)
  {
  }

  lemma {:induction false} ReapLive(t: Topology, s: State, f: Ref)
    requires Running(t, s, f) && LiveInv(s) && Ledger(s) && Owns(At(s, f).phase)
    requires forall g: Ref | Valid(s, g) :: !Active(At(s, g).phase)
    requires At(s, f).name in s.live
    ensures LiveExcept(ReapAndErase(s, At(s, f).name), f) && Ledger(ReapAndErase(s, At(s, f).name))
  {
    var n := At(s, f).name;
    var s' := ReapAndErase(s, n);
    assert multiset(s.live) == multiset(s.live - {n}) + multiset{n} by {
      assert s.live == (s.live - {n}) + {n};
    }
    SameRequests(s, s');
    forall g: Ref | Valid(s', g) && g != f ensures LiveFrame(s'.live, At(s', g)) {
      assert LiveFrame(s.live, At(s, g));
      if At(s, g).name == n { OnlyOwnerSeesName(t, s, f, g); }
    }
  }

  lemma {:induction false} ReplyFacts(t: Topology, s: State, f: Ref)
    requires Inv(t, s) && s.stack == [] && Valid(s, f) && Suspended(At(s, f).phase)
    ensures Running(t, s, f) && LiveInv(s) && LiveExcept(s, f) && Ledger(s)
    ensures forall g: Ref | Valid(s, g) :: !Active(At(s, g).phase)
    ensures LiveFrame(s.live, At(s, f))
    ensures At(s, f).phase.Setup? <==> s.reqs[f.req].op == Start
  {
    IdleRunning(t, s, f);
    GrantedIsLast(t, s, f);
    LiveSame(s, f, s);
  }

  lemma {:induction false} ReapInv(t: Topology, s: State, f: Ref)
    requires Running(t, s, f) && LiveInv(s) && Ledger(s) && s.reqs[f.req].op == Stop
    requires forall g: Ref | Valid(s, g) :: !Active(At(s, g).phase)
    requires At(s, f).phase == Stopping(0) && At(s, f).name in s.live
    ensures Inv(t, SetPhase(ReapAndErase(s, At(s, f).name), f, Stopping(1)))
  {
    ReapLive(t, s, f);
    hide LiveInv, LiveExcept, Ledger, SetPhase, Running, Inv;
    RunningIgnoresLive(t, s, ReapAndErase(s, At(s, f).name), f);
    SuspendInv(t, ReapAndErase(s, At(s, f).name), f, Stopping(1));
  }

  lemma {:induction false} HandleReplyInv(t: Topology, s: State, f: Ref, a: Answer)
    requires Inv(t, s) && s.stack == [] && Valid(s, f) && Suspended(At(s, f).phase)
    ensures Inv(t, HandleReply(t, s, f, a))
  {
    hide Inv, LiveInv, LiveExcept, Ledger, SetPhase, ReturnUnit, Fail, Running;
    ReplyFacts(t, s, f);
    var Frame(n, p) := At(s, f);
    match a {
      case Refused(c) => FailInv(t, s, f, c);
      case Ok =>
        if p.Setup? && n in t && p.stage + 1 < Stages(t[n]) {
          SuspendInv(t, s, f, Setup(p.stage + 1));
        } else if p == Stopping(0) {
          ReapInv(t, s, f);
        } else if p == Stopping(1) {
          SuspendInv(t, s, f, Stopping(2));
        } else {
          ReturnUnitInv(t, s, f);
        }
    }
  }

  function WithRequest(s: State, op: Op, n: Name): State
  {
    s.(reqs := s.reqs + [Request(op, [Frame(n, Queued)], [])])
  }

  lemma {:induction false} WithRequestFrames(s: State, op: Op, n: Name)
    ensures var s' := WithRequest(s, op, n);
            var f := Ref(|s.reqs|, 0);
            && (forall g: Ref :: Valid(s', g) <==> Valid(s, g) || g == f)
            && (forall g: Ref | Valid(s, g) :: At(s', g) == At(s, g))
            && !Valid(s, f) && At(s', f) == Frame(n, Queued)
  {
  }

  lemma {:induction false} WithRequestName(s: State, op: Op, n: Name, m: Name)
    requires NameOk(s, m)
    ensures NameOk(WithRequest(s, op, n), m)
    ensures Ref(|s.reqs|, 0) !in QueueOf(WithRequest(s, op, n), m).waiting
  {
    WithRequestFrames(s, op, n);
    SameQueues(s, WithRequest(s, op, n), m);
    hide WithRequest;
  }

  lemma {:induction false} WithRequestFrame(s: State, op: Op, n: Name, g: Ref)
    requires FrameOk(s, g) && g != Ref(|s.reqs|, 0)
    ensures FrameOk(WithRequest(s, op, n), g)
  {
    WithRequestFrames(s, op, n);
    if Valid(s, g) {
      SameQueues(s, WithRequest(s, op, n), At(s, g).name);
    }
  }

  lemma {:induction false} WithRequestChain(t: Topology, s: State, op: Op, n: Name)
    requires ChainInv(t, s) && n in t
    ensures ChainInv(t, WithRequest(s, op, n))
  {
    assert RequestInv(t, Request(op, [Frame(n, Queued)], []));
    hide RequestInv;
    forall r | 0 <= r < |s.reqs| + 1 ensures RequestInv(t, WithRequest(s, op, n).reqs[r]) {
      if r < |s.reqs| { assert RequestInv(t, s.reqs[r]); }
    }
  }

  lemma {:induction false} WithRequestRest(t: Topology, s: State, op: Op, n: Name)
    requires Inv(t, s) && s.stack == [] && n in t
    ensures var s' := WithRequest(s, op, n);
            ChainInv(t, s') && Below(s', Ref(|s.reqs|, 0)) && LiveInv(s') && Ledger(s')
  {
    WithRequestFrames(s, op, n);
    NoneActive(t, s);
    hide QueueInv, StackInv, RequestInv;
    WithRequestChain(t, s, op, n);
    hide ChainInv;
  }

  lemma {:induction false} ArriveInv(t: Topology, s: State, op: Op, n: Name)
    requires Inv(t, s) && s.stack == [] && n in t
    ensures Inv(t, Arrive(s, op, n))
  {
    var s' := WithRequest(s, op, n);
    var f := Ref(|s.reqs|, 0);
    WithRequestFrames(s, op, n);
    WithRequestRest(t, s, op, n);
    hide NameOk, FrameOk, ChainInv, Below, LiveInv, StackInv;
    forall m: Name ensures NameOk(s', m) && f !in QueueOf(s', m).waiting { WithRequestName(s, op, n, m); }
    forall g: Ref ensures g == f || FrameOk(s', g) {
      if g != f { WithRequestFrame(s, op, n, g); }
    }
    EnqueueCore(t, s', f);
    EnqueueLive(s', f);
  }

  /** Every enabled event keeps the invariant. */
  lemma {:induction false} NextInv(t: Topology, s: State, e: Event)
    requires Closed(t) && Inv(t, s) && Enabled(t, s, e)
    ensures Inv(t, Next(t, s, e))
  {
    hide Inv, Arrive, HandleReply, RunTop;
    match e {
      case StartRequest(n) => ArriveInv(t, s, Start, n);
      case StopRequest(n) => ArriveInv(t, s, Stop, n);
      case Reply(f, a) => HandleReplyInv(t, s, f, a);
      case Run(o) => RunTopInv(t, s, o);
    }
  }

  lemma {:induction false} InitialInv(t: Topology)
    ensures Inv(t, Initial)
  {
    assert forall g: Ref :: !Valid(Initial, g);
    forall n: Name ensures NameOk(Initial, n) {}
    assert multiset(Initial.live) == multiset{};
  }

  /** The invariant holds after every run. */
  lemma {:induction false} RunInv(t: Topology, es: seq<Event>)
    requires Closed(t) && After(t, es).Some?
    ensures Inv(t, After(t, es).value)
    decreases |es|
  {
    hide Inv;
    if es == [] {
      InitialInv(t);
    } else {
      var last := |es| - 1;
      RunInv(t, es[..last]);
      NextInv(t, After(t, es[..last]).value, es[last]);
    }
  }
}
