/**
  How many answers a request takes: a Start that brings its entity up gets four
  of them and one for each component, a Stop gets three.
 */
module ReplyCounts {
  import opened Uplinks
  import opened Lifecycle
  import opened LifecycleInvariant
  import opened LifecycleSteps
  import opened LifecycleSafety
  import opened LifecycleOutcome
  import ConfigModel
  import ConfigInvariant
  import Commits

  // ----- What an event can do to a frame -----------------------------------

  /** The frame forks a process that comes up. */
  ghost predicate ComesUp(t: Topology, s: State, e: Event, f: Ref)
  {
    e == Run(Connected) && Forks(t, s) && s.stack[0] == f
  }

  /** The frame does not receive an answer and does not come up. */
  ghost predicate Idle(t: Topology, s: State, e: Event, f: Ref)
  {
    e != Reply(f, Ok) && !ComesUp(t, s, e, f)
  }

  ghost predicate Early(p: Phase)
  {
    p == Queued || p == Granted || p == AwaitUplink || p == Resumed
  }

  /** How the phase of a frame can change in one event, unless the frame completes. */
  ghost predicate Moves(t: Topology, s: State, e: Event, f: Ref, p: Phase, p': Phase)
  {
    || (p' == p && Idle(t, s, e, f))
    || (Early(p) && Early(p') && Idle(t, s, e, f))
    || (p == Granted && p' == Stopping(0) && Idle(t, s, e, f))
    || (Early(p) && p' == Setup(0) && ComesUp(t, s, e, f))
    || (p.Setup? && p' == Setup(p.stage + 1) && e == Reply(f, Ok))
    || (p == Stopping(0) && p' == Stopping(1) && e == Reply(f, Ok))
    || (p == Stopping(1) && p' == Stopping(2) && e == Reply(f, Ok))
  }

  ghost predicate FrameMoves(t: Topology, s: State, e: Event, s': State, f: Ref)
  {
    && (Valid(s, f) ==> Valid(s', f) && At(s', f).name == At(s, f).name)
    && (Valid(s, f) && Alive(At(s', f).phase) ==> Moves(t, s, e, f, At(s, f).phase, At(s', f).phase))
    && (!Valid(s, f) && Valid(s', f) ==> Early(At(s', f).phase))
  }

  /** A frame that is kept does not receive an answer. */
  lemma {:induction false} KeptMoves(t: Topology, s: State, e: Event, s': State, q: nat, f: Ref)
    requires OthersKept(s, s', q) && f.req != q && Valid(s, f) && Idle(t, s, e, f)
    ensures FrameMoves(t, s, e, s', f)
  {
    assert RequestKept(s.reqs[f.req], s'.reqs[f.req]);
    assert Kept(s.reqs[f.req].frames[f.depth], s'.reqs[f.req].frames[f.depth]);
  }

  lemma {:induction false} ArriveMoves(t: Topology, s: State, e: Event, op: Op, n: Name, f: Ref)
    requires !e.Reply? && !e.Run?
    ensures FrameMoves(t, s, e, Arrive(s, op, n), f)
  {
    ArriveOthers(s, op, n);
    NewFrame(s, op, n);
    hide Arrive;
  }

  lemma {:induction false} NewFrame(s: State, op: Op, n: Name)
    ensures var r := Arrive(s, op, n).reqs[|s.reqs|]; |r.frames| == 1 && Early(r.frames[0].phase)
  {
  }

  // ----- Replies -----------------------------------------------------------

  lemma {:induction false} ReplyMoves(t: Topology, s: State, g: Ref, a: Answer, f: Ref)
    requires ChainInv(t, s) && Valid(s, g) && Suspended(At(s, g).phase) && LiveFrame(s.live, At(s, g))
    ensures FrameMoves(t, s, Reply(g, a), HandleReply(t, s, g, a), f)
  {
    ReplyOthers(t, s, g, a);
    var s' := HandleReply(t, s, g, a);
    if f.req != g.req {
      if Valid(s, f) { KeptMoves(t, s, Reply(g, a), s', g.req, f); }
    } else {
      ReplyOwnMoves(t, s, g, a, f);
    }
  }

  lemma {:induction false} ReplyOwnMoves(t: Topology, s: State, g: Ref, a: Answer, f: Ref)
    requires ChainInv(t, s) && Valid(s, g) && Suspended(At(s, g).phase) && LiveFrame(s.live, At(s, g)) && f.req == g.req
    ensures FrameMoves(t, s, Reply(g, a), HandleReply(t, s, g, a), f)
  {
    ParentAwaits(t, s, g);
    var Frame(n, p) := At(s, g);
    hide ChainInv, Fail, SetPhase, ReturnUnit;
    if a.Refused? {
      FailFrames(s, g, a.completion);
    } else if p == Stopping(0) {
      SetPhaseFrames(ReapAndErase(s, n), g, Stopping(1));
    } else if p == Stopping(1) {
      SetPhaseFrames(s, g, Stopping(2));
    } else if p.Setup? && n in t && p.stage + 1 < Stages(t[n]) {
      SetPhaseFrames(s, g, Setup(p.stage + 1));
    } else {
      ReturnUnitFrames(s, g);
    }
  }

  // ----- Steps of the call stack -------------------------------------------

  lemma {:induction false} SpawnMoves(t: Topology, s0: State, s: State, g: Ref, o: SpawnOutcome, f: Ref)
    requires Valid(s, g) && Forks(t, s0) && s0.stack[0] == g && s == s0.(stack := s.stack) && Early(At(s, g).phase)
    requires f.req == g.req
    ensures FrameMoves(t, s0, Run(o), Spawn(s, g, o), f)
  {
    var n := At(s, g).name;
    var up := s.(log := s.log.(spawned := s.log.spawned + multiset{n}), live := s.live + {n});
    var lost := s.(log := s.log.(spawned := s.log.spawned + multiset{n}, orphaned := s.log.orphaned + multiset{n}));
    hide Fail, SetPhase;
    match o {
      case NoProcess(errno) => FailFrames(s, g, Status(errno));
      case NoBus(code) => FailFrames(lost, g, Status(code));
      case LateFailure(code) => FailFrames(up, g, Status(code));
      case Connected => SetPhaseFrames(up, g, Setup(0));
    }
  }

  lemma {:induction false} LiveMoves(t: Topology, s0: State, s: State, g: Ref, o: SpawnOutcome, f: Ref)
    requires s0.stack != [] && s0.stack[0] == g && s == s0.(stack := s.stack) && ChainInv(t, s) && f.req == g.req
    requires Valid(s, g) && At(s, g).phase == Granted && At(s, g).name in s.live
    ensures FrameMoves(t, s0, Run(o), ReturnUnit(s, g), f)
  {
    ParentAwaits(t, s, g);
    ReturnUnitFrames(s, g);
    assert !Forks(t, s0) || f != g;
    hide ChainInv, ReturnUnit, Forks;
  }

  lemma {:induction false} UplinkMoves(t: Topology, s0: State, s: State, g: Ref, o: SpawnOutcome, f: Ref, u: Name)
    requires s0.stack != [] && s0.stack[0] == g && s == s0.(stack := s.stack) && f.req == g.req
    requires Valid(s, g) && At(s, g).phase == Granted && g.depth + 1 == |s.reqs[g.req].frames|
    requires At(s, g).name in t && t[At(s, g).name].uplink == Some(u)
    ensures FrameMoves(t, s0, Run(o), StartUplink(s, g, u), f)
  {
    StartUplinkFrames(s, g, u);
    assert !Forks(t, s0);
    hide StartUplink, Forks;
  }

  lemma {:induction false} StopMoves(t: Topology, s0: State, s: State, g: Ref, o: SpawnOutcome, f: Ref)
    requires s0.stack != [] && s0.stack[0] == g && s == s0.(stack := s.stack) && f.req == g.req
    requires Valid(s, g) && At(s, g).phase == Granted && s.reqs[g.req].op == Stop
    ensures FrameMoves(t, s0, Run(o), Fail(s, g, Error), f)
    ensures FrameMoves(t, s0, Run(o), SetPhase(s, g, Stopping(0)), f)
  {
    FailFrames(s, g, Error);
    SetPhaseFrames(s, g, Stopping(0));
    assert !Forks(t, s0);
    hide Fail, SetPhase, Forks;
  }

  lemma {:induction false} BodyMoves(t: Topology, s0: State, s: State, g: Ref, o: SpawnOutcome, f: Ref)
    requires CanRun(s0) && s0.stack[0] == g && s == s0.(stack := s.stack) && ChainInv(t, s)
    requires Valid(s, g) && At(s, g).phase == Granted && g.depth + 1 == |s.reqs[g.req].frames| && f.req == g.req
    ensures FrameMoves(t, s0, Run(o), Body(t, s, g, o), f)
  {
    var n := At(s, g).name;
    hide Fail, SetPhase, ReturnUnit, Spawn, StartUplink, FrameMoves, CanRun;
    if s.reqs[g.req].op == Start {
      if n in s.live {
        LiveMoves(t, s0, s, g, o, f);
      } else if n in t && t[n].uplink.Some? {
        UplinkMoves(t, s0, s, g, o, f, t[n].uplink.value);
      } else {
        SpawnMoves(t, s0, s, g, o, f);
      }
    } else {
      StopMoves(t, s0, s, g, o, f);
    }
  }

  lemma {:induction false} StartUplinkFrames(s: State, g: Ref, u: Name)
    requires Valid(s, g) && g.depth + 1 == |s.reqs[g.req].frames|
    ensures var s' := StartUplink(s, g, u);
            && (forall f: Ref :: Valid(s', f) <==> Valid(s, f) || f == Child(g))
            && (forall f: Ref | Valid(s, f) && f != g :: At(s', f) == At(s, f))
            && At(s', g) == Frame(At(s, g).name, AwaitUplink)
            && !Valid(s, Child(g)) && Early(At(s', Child(g)).phase)
  {
    WithChildFrames(s, g, u);
    EnqueueFrames(WithChild(s, g, u), Child(g));
    assert StartUplink(s, g, u) == Enqueue(WithChild(s, g, u), Child(g));
    hide Enqueue, WithChild, StartUplink;
  }

  lemma {:induction false} GoneMoves(t: Topology, s: State, e: Event, s': State, g: Ref, f: Ref)
    requires e.Run? && |s'.reqs| == |s.reqs| && Valid(s, g) && f.req == g.req && CanRun(s) && s.stack[0] == g
    requires At(s, g).phase == Leaving && FrameGone(s.reqs[g.req], s'.reqs[g.req], g.depth)
    ensures FrameMoves(t, s, e, s', f)
  {
  }

  lemma {:induction false} RunOwnMoves(t: Topology, s: State, o: SpawnOutcome, f: Ref)
    requires Inv(t, s) && CanRun(s) && f.req == s.stack[0].req
    ensures FrameMoves(t, s, Run(o), RunTop(t, s, o), f)
  {
    Pop(t, s);
    var g := s.stack[0];
    var s1 := s.(stack := s.stack[1..]);
    if At(s, g).phase == Leaving {
      hide RunTop, CanRun;
      RunTopDestroys(t, s, o);
      GoneMoves(t, s, Run(o), RunTop(t, s, o), g, f);
    } else if At(s, g).phase == Granted {
      GrantedIsLast(t, s1, g);
      hide Inv, Running, Body, ChainInv;
      BodyMoves(t, s, s1, g, o, f);
    } else {
      assert At(s, g).phase == Resumed;
      hide Inv, Running, Spawn;
      SpawnMoves(t, s, s1, g, o, f);
    }
  }

  lemma {:induction false} NextMoves(t: Topology, s: State, e: Event, f: Ref)
    requires Inv(t, s) && Enabled(t, s, e)
    ensures FrameMoves(t, s, e, Next(t, s, e), f)
  {
    match e {
      case StartRequest(n) => ArriveMoves(t, s, e, Start, n, f);
      case StopRequest(n) => ArriveMoves(t, s, e, Stop, n, f);
      case Reply(g, a) =>
        assert LiveFrame(s.live, At(s, g));
        hide Arrive, HandleReply, RunTop, ChainInv, LiveFrame;
        ReplyMoves(t, s, g, a, f);
      case Run(o) =>
        hide Arrive, HandleReply, RunTop, CanRun;
        if f.req == s.stack[0].req {
          RunOwnMoves(t, s, o, f);
        } else {
          RunTopOthers(t, s, o);
          hide Inv;
          if Valid(s, f) { KeptMoves(t, s, e, RunTop(t, s, o), s.stack[0].req, f); }
        }
    }
  }

  // ----- Counting ----------------------------------------------------------

  /** How often the frame has been answered with success. */
  function OkReplies(es: seq<Event>, f: Ref): nat
  {
    if es == [] then 0
    else OkReplies(es[..|es| - 1], f) + if es[|es| - 1] == Reply(f, Ok) then 1 else 0
  }

  /** How often the frame has forked a process that came up. */
  ghost function Forked(t: Topology, es: seq<Event>, f: Ref): nat
  {
    if es == [] then 0
    else
      var last := |es| - 1;
      var s := After(t, es[..last]);
      Forked(t, es[..last], f) + if s.Some? && ComesUp(t, s.value, es[last], f) then 1 else 0
  }

  /** The phase of a frame tells how often it has been answered and whether it has forked. */
  ghost predicate Counted(t: Topology, s: State, f: Ref, oks: nat, forks: nat)
  {
    if !Valid(s, f) then oks == 0 && forks == 0
    else
      match At(s, f).phase
      case Setup(i) => At(s, f).name in t && i < 4 + t[At(s, f).name].components && oks == i && forks == 1
      case Stopping(i) => i <= 2 && oks == i && forks == 0
      case Leaving => true
      case Gone => true
      case _ => oks == 0 && forks == 0
  }

  /** An answer is only ever for a frame that waits for one. */
  lemma {:induction false} AnsweredIsValid(t: Topology, s: State, e: Event, f: Ref)
    requires Enabled(t, s, e) && (e == Reply(f, Ok) || ComesUp(t, s, e, f))
    ensures Valid(s, f)
  {
  }

  /** A start-up goes on only as long as an answer is due. */
  lemma {:induction false} SetupGoesOn(t: Topology, s: State, f: Ref, i: nat)
    requires Valid(s, f) && At(s, f).phase == Setup(i) && At(s, f).name in t
    ensures var p := At(HandleReply(t, s, f, Ok), f).phase;
            if i + 1 < 4 + t[At(s, f).name].components then p == Setup(i + 1) else p == Leaving
  {
    SetPhaseFrames(s, f, Setup(i + 1));
    ReturnUnitFrames(s, f);
    hide SetPhase, ReturnUnit;
  }

  lemma {:induction false} CountedMoves(t: Topology, s: State, e: Event, s': State, f: Ref, oks: nat, forks: nat)
    requires FrameMoves(t, s, e, s', f) && Counted(t, s, f, oks, forks)
    requires e == Reply(f, Ok) || ComesUp(t, s, e, f) ==> Valid(s, f)
    requires Valid(s, f) ==> At(s, f).name in t
    requires Valid(s, f) && At(s, f).phase.Setup? && e == Reply(f, Ok) ==>
      var i := At(s, f).phase.stage;
      At(s', f).phase == if i + 1 < 4 + t[At(s, f).name].components then Setup(i + 1) else Leaving
    ensures Counted(t, s', f, oks + (if e == Reply(f, Ok) then 1 else 0), forks + (if ComesUp(t, s, e, f) then 1 else 0))
  {
    assert ComesUp(t, s, e, f) ==> e.Run?;
    hide ComesUp;
  }

  lemma {:induction false} CountedNext(t: Topology, s: State, e: Event, f: Ref, oks: nat, forks: nat)
    requires Inv(t, s) && Enabled(t, s, e) && Counted(t, s, f, oks, forks)
    ensures Counted(t, Next(t, s, e), f,
              oks + (if e == Reply(f, Ok) then 1 else 0), forks + (if ComesUp(t, s, e, f) then 1 else 0))
  {
    NextMoves(t, s, e, f);
    if e == Reply(f, Ok) || ComesUp(t, s, e, f) { AnsweredIsValid(t, s, e, f); }
    if Valid(s, f) {
      assert RequestInv(t, s.reqs[f.req]);
      assert At(s, f).name in t;
      if e == Reply(f, Ok) && At(s, f).phase.Setup? { SetupGoesOn(t, s, f, At(s, f).phase.stage); }
    }
    hide Inv, RequestInv, Counted, FrameMoves, ComesUp;
    CountedMoves(t, s, e, Next(t, s, e), f, oks, forks);
  }

  lemma {:induction false} RunCounted(t: Topology, es: seq<Event>, f: Ref)
    requires Closed(t) && After(t, es).Some?
    ensures Counted(t, After(t, es).value, f, OkReplies(es, f), Forked(t, es, f))
    decreases |es|
  {
    if es != [] {
      var last := |es| - 1;
      var s := After(t, es[..last]).value;
      RunInv(t, es[..last]);
      hide Inv, Counted, ComesUp, Enabled, Next;
      RunCounted(t, es[..last], f);
      CountedNext(t, s, es[last], f, OkReplies(es[..last], f), Forked(t, es[..last], f));
    } else {
      assert !Valid(Initial, f);
    }
  }

  // ----- What success takes ------------------------------------------------

  /** The frame returns with success: the request completes, or the frame that awaits it goes on. */
  ghost predicate Returns(s: State, s': State, f: Ref)
  {
    && Valid(s, f) && Alive(At(s, f).phase) && Valid(s', f) && At(s', f).phase == Leaving
    && (f.depth == 0 ==> s.reqs[f.req].completions == [] && s'.reqs[f.req].completions == [Done])
    && (f.depth > 0 ==> s'.reqs[f.req].frames[f.depth - 1].phase == Resumed)
  }

  lemma {:induction false} FailReturnsNone(s: State, s1: State, g: Ref, c: Completion, f: Ref)
    requires Valid(s, g) && s1.reqs == s.reqs && c != Done && f.req == g.req
    ensures !Returns(s, Fail(s1, g, c), f)
  {
    FailFrames(s1, g, c);
    FailIsNoSuccess(s, s1, g, c);
    var s' := Fail(s1, g, c);
    if f.depth > 0 && Valid(s, f) {
      var parent := Ref(f.req, f.depth - 1);
      assert Valid(s, parent);
      assert f.depth <= g.depth ==> At(s', parent).phase == Leaving;
    }
    hide Fail;
  }

  lemma {:induction false} ReturnUnitReturns(s: State, g: Ref, f: Ref)
    requires Valid(s, g) && f.req == g.req && Returns(s, ReturnUnit(s, g), f)
    ensures f == g
  {
    ReturnUnitFrames(s, g);
    hide ReturnUnit;
  }

  lemma {:induction false} SetPhaseReturnsNone(s: State, s1: State, g: Ref, p: Phase, f: Ref)
    requires Valid(s, g) && s1.reqs == s.reqs && p != Leaving && f.req == g.req
    ensures !Returns(s, SetPhase(s1, g, p), f)
  {
    SetPhaseFrames(s1, g, p);
    hide SetPhase;
  }

  lemma {:induction false} SpawnReturnsNone(s: State, s1: State, g: Ref, o: SpawnOutcome, f: Ref)
    requires Valid(s, g) && s1.reqs == s.reqs && f.req == g.req
    ensures !Returns(s, Spawn(s1, g, o), f)
  {
    var n := At(s, g).name;
    var up := s1.(log := s1.log.(spawned := s1.log.spawned + multiset{n}), live := s1.live + {n});
    var lost := s1.(log := s1.log.(spawned := s1.log.spawned + multiset{n}, orphaned := s1.log.orphaned + multiset{n}));
    hide Fail, SetPhase, Returns;
    match o {
      case NoProcess(errno) => FailReturnsNone(s, s1, g, Status(errno), f);
      case NoBus(code) => FailReturnsNone(s, lost, g, Status(code), f);
      case LateFailure(code) => FailReturnsNone(s, up, g, Status(code), f);
      case Connected => SetPhaseReturnsNone(s, up, g, Setup(0), f);
    }
  }

  lemma {:induction false} OthersReturnNone(s: State, s': State, q: nat, f: Ref)
    requires OthersKept(s, s', q) && f.req != q
    ensures !Returns(s, s', f)
  {
    if Valid(s, f) {
      assert RequestKept(s.reqs[f.req], s'.reqs[f.req]);
      assert Kept(s.reqs[f.req].frames[f.depth], s'.reqs[f.req].frames[f.depth]);
    }
  }

  lemma {:induction false} BodyReturns(t: Topology, s: State, s1: State, g: Ref, o: SpawnOutcome, f: Ref)
    requires Valid(s, g) && g.depth + 1 == |s.reqs[g.req].frames| && s1 == s.(stack := s1.stack) && f.req == g.req
    requires Returns(s, Body(t, s1, g, o), f)
    ensures f == g && s.reqs[g.req].op == Start && At(s, g).name in s.live
  {
    var n := At(s, g).name;
    hide Fail, SetPhase, ReturnUnit, Spawn, StartUplink;
    if s.reqs[g.req].op == Start {
      if n in s.live {
        ReturnUnitFrames(s1, g);
      } else if n in t && t[n].uplink.Some? {
        StartUplinkFrames(s1, g, t[n].uplink.value);
      } else {
        SpawnReturnsNone(s, s1, g, o, f);
      }
    } else if n !in s.live {
      FailReturnsNone(s, s1, g, Error, f);
    } else {
      SetPhaseReturnsNone(s, s1, g, Stopping(0), f);
    }
  }

  lemma {:induction false} RunReturns(t: Topology, s: State, o: SpawnOutcome, f: Ref)
    requires Inv(t, s) && CanRun(s) && Returns(s, RunTop(t, s, o), f)
    ensures At(s, f).phase == Granted && s.reqs[f.req].op == Start && At(s, f).name in s.live
  {
    var g, s' := s.stack[0], RunTop(t, s, o);
    RunTopOthers(t, s, o);
    if f.req != g.req { OthersReturnNone(s, s', g.req, f); }
    Pop(t, s);
    var s1 := s.(stack := s.stack[1..]);
    if At(s, g).phase == Leaving {
      hide RunTop, CanRun;
      RunTopDestroys(t, s, o);
      hide Inv;
    } else if At(s, g).phase == Granted {
      GrantedIsLast(t, s1, g);
      hide Inv, Running, Body, Returns;
      BodyReturns(t, s, s1, g, o, f);
    } else {
      hide Inv, Running, Spawn, Returns;
      SpawnReturnsNone(s, s1, g, o, f);
    }
  }

  lemma {:induction false} ReplyReturns(t: Topology, s: State, g: Ref, a: Answer, f: Ref)
    requires Valid(s, g) && Suspended(At(s, g).phase) && LiveFrame(s.live, At(s, g))
    requires (a.Refused? ==> MayRefuse(At(s, g).phase, a.completion)) && Returns(s, HandleReply(t, s, g, a), f)
    ensures f == g && a == Ok && (At(s, f).phase.Setup? || At(s, f).phase == Stopping(2))
  {
    ReplyOthers(t, s, g, a);
    if f.req != g.req { OthersReturnNone(s, HandleReply(t, s, g, a), g.req, f); }
    var Frame(n, p) := At(s, g);
    hide Fail, SetPhase, ReturnUnit, Returns;
    if f.req == g.req {
      if a.Refused? { FailReturnsNone(s, s, g, a.completion, f); }
      SetPhaseReturnsNone(s, ReapAndErase(s, n), g, Stopping(1), f);
      SetPhaseReturnsNone(s, s, g, Stopping(2), f);
      SetPhaseReturnsNone(s, s, g, Setup(if p.Setup? then p.stage + 1 else 0), f);
      if Returns(s, ReturnUnit(s, g), f) { ReturnUnitReturns(s, g, f); }
    }
  }

  /** A frame returns because it found its entity live, or because of an answer. */
  lemma {:induction false} ReturnCause(t: Topology, s: State, e: Event, f: Ref)
    requires Inv(t, s) && Enabled(t, s, e) && Returns(s, Next(t, s, e), f)
    ensures e.Run? ==> At(s, f).phase == Granted && s.reqs[f.req].op == Start && At(s, f).name in s.live
    ensures !e.Run? ==> e == Reply(f, Ok) && (At(s, f).phase.Setup? || At(s, f).phase == Stopping(2))
  {
    match e {
      case StartRequest(n) => ArriveOthers(s, Start, n);
      case StopRequest(n) => ArriveOthers(s, Stop, n);
      case Reply(g, a) =>
        assert LiveFrame(s.live, At(s, g));
        hide Inv, HandleReply, Returns;
        ReplyReturns(t, s, g, a, f);
      case Run(o) =>
        hide RunTop, Returns, CanRun;
        RunReturns(t, s, o, f);
    }
  }

  /** When a setup is over, the last answer was the one that its entity needed. */
  lemma {:induction false} LastAnswer(t: Topology, s: State, f: Ref, i: nat)
    requires Valid(s, f) && At(s, f).phase == Setup(i) && At(s, f).name in t && i < 4 + t[At(s, f).name].components
    requires At(HandleReply(t, s, f, Ok), f).phase == Leaving
    ensures i + 1 == 4 + t[At(s, f).name].components
  {
    SetupGoesOn(t, s, f, i);
    hide HandleReply;
  }

  /**
    After any run, when a Start returns with success, either it found its entity live and took no
    answer, or it forked one process that came up and its frame has received exactly four answers and
    one for each component.  When a Stop returns with success it has received exactly three.
   */
  lemma {:induction false} SuccessTakes(t: Topology, es: seq<Event>, e: Event, f: Ref)
    requires Closed(t) && After(t, es).Some? && Enabled(t, After(t, es).value, e)
    requires Returns(After(t, es).value, Next(t, After(t, es).value, e), f)
    ensures var s := After(t, es).value;
            var oks, forks := OkReplies(es + [e], f), Forked(t, es + [e], f);
            && At(s, f).name in t
            && (s.reqs[f.req].op == Start ==>
                  if e.Run? then At(s, f).name in s.live && oks == 0 && forks == 0
                  else e == Reply(f, Ok) && oks == 4 + t[At(s, f).name].components && forks == 1)
            && (s.reqs[f.req].op == Stop ==> e == Reply(f, Ok) && oks == 3 && forks == 0)
  {
    var s := After(t, es).value;
    RunInv(t, es);
    RunCounted(t, es, f);
    ReturnCause(t, s, e, f);
    assert RequestInv(t, s.reqs[f.req]) && At(s, f).name in t;
    GrantedIsLast(t, s, f);
    assert (es + [e])[..|es|] == es && (es + [e])[|es|] == e;
    if !e.Run? && At(s, f).phase.Setup? { LastAnswer(t, s, f, At(s, f).phase.stage); }
    if ComesUp(t, s, e, f) { ForksAreGranted(t, s, e, f); }
    hide Inv, RequestInv, After, Next, Enabled, Returns, ComesUp;
  }

  lemma {:induction false} ForksAreGranted(t: Topology, s: State, e: Event, f: Ref)
    requires ComesUp(t, s, e, f)
    ensures e.Run? && Valid(s, f) && (At(s, f).phase == Granted ==> At(s, f).name !in s.live)
  {
  }

  /** The entity leaves the live table at the first answer to its Stop; no other answer changes the table. */
  lemma {:induction false} FirstAnswerReaps(t: Topology, es: seq<Event>, f: Ref)
    requires Closed(t) && After(t, es).Some? && Enabled(t, After(t, es).value, Reply(f, Ok))
    ensures var s := After(t, es).value;
            var s' := Next(t, s, Reply(f, Ok));
            if s.reqs[f.req].op == Stop && OkReplies(es, f) == 0 then
              At(s, f).name in s.live && s'.live == s.live - {At(s, f).name}
            else s'.live == s.live
  {
    var s := After(t, es).value;
    RunInv(t, es);
    RunCounted(t, es, f);
    GrantedIsLast(t, s, f);
    assert LiveFrame(s.live, At(s, f));
    ReplyDoes(t, s, f, Ok);
    hide Inv, After, HandleReply;
  }

  // ----- Over a configuration ----------------------------------------------

  /** What the lifecycle knows of an entity: the uplink of its network component, and how many components it has. */
  lemma {:induction false} TopologyMeans(tree: ConfigModel.Tree, n: Name)
    requires ConfigInvariant.Good(tree) && n in tree && tree[n].Obj?
    ensures var t, fields := Commits.TopologyOf(tree), tree[n].fields;
            && n in t && t[n].components == |fields.Keys|
            && t[n].uplink ==
               if "network" in fields && fields["network"].Obj? && "uplink" in fields["network"].fields
                  && fields["network"].fields["uplink"].Str?
               then Some(fields["network"].fields["uplink"].s) else None
  {
  }

  /** A Start that brings up an entity of a valid configuration takes four answers and one for each of its components. */
  lemma {:induction false} ConfiguredStartTakes(tree: ConfigModel.Tree, es: seq<Event>, e: Event, f: Ref)
    requires ConfigInvariant.Good(tree) && After(Commits.TopologyOf(tree), es).Some?
    requires Enabled(Commits.TopologyOf(tree), After(Commits.TopologyOf(tree), es).value, e) && !e.Run?
    requires var t := Commits.TopologyOf(tree); Returns(After(t, es).value, Next(t, After(t, es).value, e), f)
    ensures var s := After(Commits.TopologyOf(tree), es).value;
            var n := At(s, f).name;
            s.reqs[f.req].op == Start && n in tree && tree[n].Obj? ==> OkReplies(es + [e], f) == 4 + |tree[n].fields.Keys|
  {
    var t := Commits.TopologyOf(tree);
    Commits.GoodClosed(tree);
    SuccessTakes(t, es, e, f);
    var n := At(After(t, es).value, f).name;
    hide After, Next, Enabled, Returns;
    if n in tree && tree[n].Obj? { TopologyMeans(tree, n); }
  }
}
