/**
  What every step of the lifecycle protocol keeps.
 */
module LifecycleInvariant {
  import opened Uplinks
  import opened Lifecycle

  /** The frame that was handed the token of `n` last. */
  function Owner(s: State, n: Name): Ref
  {
    var g := GrantedTo(s, n);
    if g == [] then Ref(0, 0) else g[|g| - 1]
  }

  ghost predicate Distinct(q: seq<Ref>)
  {
    forall i, j | 0 <= i < j < |q| :: q[i] != q[j]
  }

  ghost predicate AllQueued(s: State, n: Name, w: seq<Ref>)
  {
    forall i | 0 <= i < |w| :: Valid(s, w[i]) && At(s, w[i]) == Frame(n, Queued)
  }

  /**
    The queue of one name: a held name has a live token, a free one has no waiters; the waiters are
    suspended frames, each once; and tokens are granted in arrival order.
   */
  ghost predicate NameOk(s: State, n: Name)
  {
    var q := QueueOf(s, n);
    && (q.held ==> GrantedTo(s, n) != [] && var f := Owner(s, n); Valid(s, f) && Owns(At(s, f).phase) && At(s, f).name == n)
    && (!q.held ==> q.waiting == [])
    && AllQueued(s, n, q.waiting)
    && Distinct(q.waiting)
    && Arrived(s, n) == GrantedTo(s, n) + q.waiting
  }

  /** A frame with a token is the owner of its held name; a suspended frame is in the queue of its name. */
  ghost predicate FrameOk(s: State, f: Ref)
  {
    Valid(s, f) ==>
      var Frame(n, p) := At(s, f);
      && (Owns(p) ==> QueueOf(s, n).held && Owner(s, n) == f)
      && (p == Queued ==> f in QueueOf(s, n).waiting)
  }

  ghost predicate QueueInv(s: State)
  {
    && (forall n: Name :: NameOk(s, n))
    && (forall f: Ref :: FrameOk(s, f))
  }

  /** The frames of one request follow the uplinks of their names. */
  ghost predicate Shape(t: Topology, op: Op, fs: seq<Frame>)
  {
    && fs != []
    && (op == Stop ==> |fs| == 1)
    && (forall i | 0 <= i < |fs| :: fs[i].name in t)
    && (forall i | 0 <= i < |fs| - 1 :: t[fs[i].name].uplink == Some(fs[i + 1].name))
  }

  /** Which phases the frames of one request can be in together. */
  ghost predicate Phases(op: Op, fs: seq<Frame>)
  {
    && (forall i, j | 0 <= j < i < |fs| :: Alive(fs[i].phase) ==> fs[j].phase == AwaitUplink)
    && (forall i | 0 <= i < |fs| :: fs[i].phase == AwaitUplink ==> i + 1 < |fs| && Alive(fs[i + 1].phase))
    && (forall i | 0 <= i < |fs| :: fs[i].phase == Resumed ==> i + 1 < |fs| && fs[i + 1].phase == Leaving)
    && (forall i | 0 <= i < |fs| :: fs[i].phase.Queued? || fs[i].phase.Granted? ==> i + 1 == |fs|)
    && (forall i | 0 <= i < |fs| :: fs[i].phase.Stopping? ==> op == Stop)
    && (forall i | 0 <= i < |fs| :: fs[i].phase.AwaitUplink? || fs[i].phase.Resumed? || fs[i].phase.Setup? ==> op == Start)
  }

  /** The frames of one request; it has completed exactly when its outermost frame has. */
  ghost predicate RequestInv(t: Topology, r: Request)
  {
    && Shape(t, r.op, r.frames)
    && Phases(r.op, r.frames)
    && |r.completions| == (if Alive(r.frames[0].phase) then 0 else 1)
  }

  ghost predicate ChainInv(t: Topology, s: State)
  {
    forall r | 0 <= r < |s.reqs| :: RequestInv(t, s.reqs[r])
  }

  /** How the phase of a frame relates to the live table. */
  ghost predicate LiveFrame(live: set<Name>, f: Frame)
  {
    match f.phase
    case Setup(_) => f.name in live
    case Stopping(i) => i <= 2 && (i == 0 <==> f.name in live)
    case AwaitUplink => f.name !in live
    case Resumed => f.name !in live
    case _ => true
  }

  function Child(f: Ref): Ref
  {
    Ref(f.req, f.depth + 1)
  }

  ghost predicate LiveInv(s: State)
  {
    && (forall f: Ref | Valid(s, f) :: LiveFrame(s.live, At(s, f)))
    && (forall f: Ref | Valid(s, f) && At(s, f).phase == Resumed && Valid(s, Child(f)) ::
          At(s, Child(f)).name in s.live)
  }

  /** The same for every frame but `f`, whose phase is about to change. */
  ghost predicate LiveExcept(s: State, f: Ref)
  {
    && (forall g: Ref | Valid(s, g) && g != f :: LiveFrame(s.live, At(s, g)))
    && (forall g: Ref | Valid(s, g) && g != f && At(s, g).phase == Resumed && Valid(s, Child(g)) ::
          At(s, Child(g)).name in s.live)
  }

  /** Processes forked = processes reaped + one for each live name + those without a bus. */
  ghost predicate Ledger(s: State)
  {
    s.log.spawned == s.log.reaped + multiset(s.live) + s.log.orphaned
  }

  /** Only frames with work left are on the call stack, each once, and all but the head are leaving. */
  ghost predicate StackInv(s: State)
  {
    && Distinct(s.stack)
    && (forall i | 0 <= i < |s.stack| :: Valid(s, s.stack[i]) && Active(At(s, s.stack[i]).phase))
    && (forall i | 0 < i < |s.stack| :: At(s, s.stack[i]).phase == Leaving)
    && (forall f: Ref | Valid(s, f) && Active(At(s, f).phase) :: f in s.stack)
  }

  ghost predicate Core(t: Topology, s: State)
  {
    && QueueInv(s)
    && ChainInv(t, s)
    && StackInv(s)
  }

  ghost predicate Inv(t: Topology, s: State)
  {
    && Core(t, s)
    && LiveInv(s)
    && Ledger(s)
  }

  /** While `f` runs it is off the stack, which then holds the leaving frames below it. */
  ghost predicate Below(s: State, f: Ref)
  {
    && Distinct(s.stack)
    && (forall i | 0 <= i < |s.stack| ::
          Valid(s, s.stack[i]) && At(s, s.stack[i]).phase == Leaving && s.stack[i] != f)
    && (forall g: Ref | Valid(s, g) && Active(At(s, g).phase) && g != f :: g in s.stack)
  }

  /** The invariant while frame `f` is being run. */
  ghost predicate Running(t: Topology, s: State, f: Ref)
  {
    && Valid(s, f)
    && QueueInv(s)
    && ChainInv(t, s)
    && Below(s, f)
  }

  // ----- Steps that only change phases -------------------------------------

  /** Same requests and frames, same names; queues and grants untouched. */
  ghost predicate SameFrames(s: State, s': State)
  {
    && s'.queues == s.queues
    && s'.log.granted == s.log.granted
    && s'.log.arrived == s.log.arrived
    && (forall g: Ref :: Valid(s', g) <==> Valid(s, g))
    && (forall g: Ref | Valid(s, g) :: At(s', g).name == At(s, g).name)
    && (forall g: Ref | Valid(s, g) :: Owns(At(s', g).phase) <==> Owns(At(s, g).phase))
    && (forall g: Ref | Valid(s, g) :: At(s', g).phase == Queued <==> At(s, g).phase == Queued)
  }

  lemma {:induction false} SameQueues(s: State, s': State, n: Name)
    requires s'.queues == s.queues && s'.log.granted == s.log.granted && s'.log.arrived == s.log.arrived
    ensures QueueOf(s', n) == QueueOf(s, n) && GrantedTo(s', n) == GrantedTo(s, n)
    ensures Arrived(s', n) == Arrived(s, n) && Owner(s', n) == Owner(s, n)
  {
  }

  lemma {:induction false} RephasedQueues(s: State, s': State)
    requires SameFrames(s, s') && QueueInv(s)
    ensures QueueInv(s')
  {
    forall n: Name ensures NameOk(s', n) {
      assert NameOk(s, n);
      SameQueues(s, s', n);
    }
    forall f: Ref ensures FrameOk(s', f) {
      if Valid(s, f) {
        assert FrameOk(s, f);
        SameQueues(s, s', At(s, f).name);
      }
    }
  }

  lemma {:induction false} RephasedChain(t: Topology, s: State, s': State, r: nat)
    requires ChainInv(t, s) && r < |s.reqs| && |s'.reqs| == |s.reqs|
    requires forall q | 0 <= q < |s.reqs| && q != r :: s'.reqs[q] == s.reqs[q]
    requires RequestInv(t, s'.reqs[r])
    ensures ChainInv(t, s')
  {
    forall q | 0 <= q < |s'.reqs| ensures RequestInv(t, s'.reqs[q]) {
      if q != r { assert s'.reqs[q] == s.reqs[q]; }
    }
  }

  // ----- One request -------------------------------------------------------

  lemma {:induction false} SameShape(t: Topology, op: Op, fs: seq<Frame>, fs': seq<Frame>)
    requires Shape(t, op, fs) && |fs'| == |fs| && forall i | 0 <= i < |fs| :: fs'[i].name == fs[i].name
    ensures Shape(t, op, fs')
  {
  }

  /** A frame that runs or waits for an answer is the only one: those above await it, those below have completed. */
  lemma {:induction false} OnlyOne(op: Op, fs: seq<Frame>, d: nat)
    requires Phases(op, fs) && d < |fs| && Alive(fs[d].phase) && fs[d].phase != AwaitUplink
    ensures forall i | 0 <= i < d :: fs[i].phase == AwaitUplink
    ensures forall i | d < i < |fs| :: !Alive(fs[i].phase)
    ensures d > 0 ==> op == Start
  {
    assert d > 0 ==> fs[0].phase == AwaitUplink;
  }

  lemma {:induction false} SuspendPhases(op: Op, fs: seq<Frame>, d: nat, p: Phase)
    requires Phases(op, fs) && d < |fs| && Alive(fs[d].phase) && Owns(fs[d].phase) && fs[d].phase != AwaitUplink
    requires Suspended(p) && (p.Setup? <==> op == Start)
    ensures Phases(op, fs[d := fs[d].(phase := p)])
  {
    OnlyOne(op, fs, d);
  }

  lemma {:induction false} LeavePhases(op: Op, fs: seq<Frame>, d: nat)
    requires Phases(op, fs) && d < |fs| && (fs[d].phase.Granted? || Suspended(fs[d].phase))
    ensures d == 0 ==> Phases(op, fs[0 := fs[0].(phase := Leaving)])
    ensures d > 0 ==>
      var fs' := fs[d := fs[d].(phase := Leaving)][d - 1 := fs[d - 1].(phase := Resumed)]; Phases(op, fs')
  {
    OnlyOne(op, fs, d);
  }

  lemma {:induction false} CondemnPhases(op: Op, fs: seq<Frame>, d: nat)
    requires Phases(op, fs) && d < |fs| && Alive(fs[d].phase) && Owns(fs[d].phase) && fs[d].phase != AwaitUplink
    ensures Phases(op, Condemn(fs, d + 1))
  {
    OnlyOne(op, fs, d);
    var fs' := Condemn(fs, d + 1);
    assert forall i | 0 <= i < |fs'| :: !Alive(fs'[i].phase);
  }

  // ----- Suspension --------------------------------------------------------

  lemma {:induction false} SetPhaseFrames(s: State, f: Ref, p: Phase)
    requires Valid(s, f)
    ensures var s' := SetPhase(s, f, p);
            && (forall g: Ref :: Valid(s', g) <==> Valid(s, g))
            && (forall g: Ref | Valid(s, g) && g != f :: At(s', g) == At(s, g))
            && At(s', f) == Frame(At(s, f).name, p)
  {
  }

  lemma {:induction false} SuspendRequest(t: Topology, r: Request, d: nat, p: Phase)
    requires RequestInv(t, r) && d < |r.frames|
    requires var q := r.frames[d].phase; Alive(q) && Owns(q) && q != AwaitUplink
    requires Suspended(p) && (p.Setup? <==> r.op == Start)
    ensures RequestInv(t, r.(frames := r.frames[d := r.frames[d].(phase := p)]))
  {
    SuspendPhases(r.op, r.frames, d, p);
    SameShape(t, r.op, r.frames, r.frames[d := r.frames[d].(phase := p)]);
    OnlyOne(r.op, r.frames, d);
    hide Phases, Shape;
  }

  lemma {:induction false} SuspendLive(s: State, f: Ref, p: Phase)
    requires Valid(s, f) && LiveExcept(s, f) && p != Resumed
    requires LiveFrame(s.live, Frame(At(s, f).name, p))
    ensures LiveInv(SetPhase(s, f, p))
  {
    SetPhaseFrames(s, f, p);
  }

  lemma {:induction false} SuspendStack(s: State, f: Ref, p: Phase)
    requires Valid(s, f) && Below(s, f) && !Active(p)
    ensures StackInv(SetPhase(s, f, p))
  {
    SetPhaseFrames(s, f, p);
  }

  lemma {:induction false} SuspendCore(t: Topology, s: State, f: Ref, p: Phase)
    requires Running(t, s, f)
    requires Alive(At(s, f).phase) && Owns(At(s, f).phase) && At(s, f).phase != AwaitUplink
    requires Suspended(p) && (p.Setup? <==> s.reqs[f.req].op == Start)
    ensures Core(t, SetPhase(s, f, p))
  {
    hide QueueInv, LiveInv, StackInv, Below, RequestInv;
    var s' := SetPhase(s, f, p);
    SetPhaseFrames(s, f, p);
    assert SameFrames(s, s');
    RephasedQueues(s, s');
    SuspendRequest(t, s.reqs[f.req], f.depth, p);
    RephasedChain(t, s, s', f.req);
    SuspendStack(s, f, p);
  }

  // ----- Completion with a value -------------------------------------------

  lemma {:induction false} ReturnUnitFrames(s: State, f: Ref)
    requires Valid(s, f)
    ensures var s' := ReturnUnit(s, f);
            && (forall g: Ref :: Valid(s', g) <==> Valid(s, g))
            && (forall g: Ref | Valid(s, g) && g != f && Child(g) != f :: At(s', g) == At(s, g))
            && At(s', f) == Frame(At(s, f).name, Leaving)
            && (forall g: Ref | Valid(s, g) && Child(g) == f :: At(s', g) == Frame(At(s, g).name, Resumed))
  {
  }

  lemma {:induction false} ReturnUnitRoot(t: Topology, r: Request)
    requires RequestInv(t, r) && (r.frames[0].phase.Granted? || Suspended(r.frames[0].phase))
    ensures RequestInv(t, r.(frames := r.frames[0 := r.frames[0].(phase := Leaving)], completions := r.completions + [Done]))
  {
    LeavePhases(r.op, r.frames, 0);
    SameShape(t, r.op, r.frames, r.frames[0 := r.frames[0].(phase := Leaving)]);
    hide Phases, Shape;
  }

  lemma {:induction false} ReturnUnitSub(t: Topology, r: Request, d: nat)
    requires RequestInv(t, r) && 0 < d < |r.frames| && (r.frames[d].phase.Granted? || Suspended(r.frames[d].phase))
    ensures var fs := r.frames[d := r.frames[d].(phase := Leaving)];
            RequestInv(t, r.(frames := fs[d - 1 := fs[d - 1].(phase := Resumed)]))
  {
    var fs := r.frames;
    var fs' := fs[d := fs[d].(phase := Leaving)][d - 1 := fs[d - 1].(phase := Resumed)];
    LeavePhases(r.op, fs, d);
    SameShape(t, r.op, fs, fs');
    OnlyOne(r.op, fs, d);
    hide Phases, Shape;
  }

  lemma {:induction false} ReturnUnitRequest(t: Topology, r: Request, d: nat)
    requires RequestInv(t, r) && d < |r.frames|
    requires r.frames[d].phase.Granted? || Suspended(r.frames[d].phase)
    ensures d == 0 ==>
      RequestInv(t, r.(frames := r.frames[0 := r.frames[0].(phase := Leaving)], completions := r.completions + [Done]))
    ensures d > 0 ==>
      var fs := r.frames[d := r.frames[d].(phase := Leaving)];
      RequestInv(t, r.(frames := fs[d - 1 := fs[d - 1].(phase := Resumed)]))
  {
    hide RequestInv;
    if d == 0 { ReturnUnitRoot(t, r); } else { ReturnUnitSub(t, r, d); }
  }

  lemma {:induction false} ReturnUnitLive(s: State, f: Ref)
    requires Valid(s, f) && LiveInv(s)
    requires f.depth > 0 ==> At(s, f).name in s.live
    requires forall g: Ref | Valid(s, g) && Child(g) == f :: At(s, g).phase == AwaitUplink
    ensures LiveInv(ReturnUnit(s, f))
  {
    ReturnUnitFrames(s, f);
  }

  /** Pushing frames with work on top of leaving ones. */
  lemma {:induction false} StackGrows(s': State, pre: seq<Ref>, rest: seq<Ref>)
    requires s'.stack == pre + rest && pre != []
    requires Distinct(pre) && Distinct(rest)
    requires forall i | 0 <= i < |pre| :: pre[i] !in rest && Valid(s', pre[i]) && Active(At(s', pre[i]).phase)
    requires forall i | 0 < i < |pre| :: At(s', pre[i]).phase == Leaving
    requires forall i | 0 <= i < |rest| :: Valid(s', rest[i]) && At(s', rest[i]).phase == Leaving
    requires forall g: Ref | Valid(s', g) && Active(At(s', g).phase) :: g in pre || g in rest
    ensures StackInv(s')
  {
    assert forall i | 0 <= i < |pre| :: s'.stack[i] == pre[i];
    assert forall i | |pre| <= i < |s'.stack| :: s'.stack[i] == rest[i - |pre|];
    forall i, j | 0 <= i < j < |s'.stack| ensures s'.stack[i] != s'.stack[j] {
      if i < |pre| && j >= |pre| {
        assert s'.stack[j] in rest;
      }
    }
  }

  lemma {:induction false} ReturnUnitStack(s: State, f: Ref)
    requires Valid(s, f) && Below(s, f)
    requires forall g: Ref | Valid(s, g) && Child(g) == f :: At(s, g).phase == AwaitUplink
    ensures StackInv(ReturnUnit(s, f))
  {
    ReturnUnitFrames(s, f);
    var s' := ReturnUnit(s, f);
    if f.depth > 0 {
      var parent := Ref(f.req, f.depth - 1);
      assert Child(parent) == f;
      StackGrows(s', [parent, f], s.stack);
    } else {
      StackGrows(s', [f], s.stack);
    }
  }

  lemma {:induction false} ParentAwaits(t: Topology, s: State, f: Ref)
    requires ChainInv(t, s) && Valid(s, f) && Alive(At(s, f).phase)
    ensures forall g: Ref | Valid(s, g) && g.req == f.req && g.depth < f.depth :: At(s, g).phase == AwaitUplink
    ensures f.depth > 0 ==> s.reqs[f.req].op == Start
  {
    assert RequestInv(t, s.reqs[f.req]);
  }

  lemma {:induction false} ReturnUnitCore(t: Topology, s: State, f: Ref)
    requires Running(t, s, f)
    requires At(s, f).phase.Granted? || Suspended(At(s, f).phase)
    ensures Core(t, ReturnUnit(s, f))
  {
    hide QueueInv, LiveInv, StackInv, Below, RequestInv;
    var s' := ReturnUnit(s, f);
    ReturnUnitFrames(s, f);
    ParentAwaits(t, s, f);
    assert SameFrames(s, s');
    RephasedQueues(s, s');
    ReturnUnitStack(s, f);
    ReturnUnitChain(t, s, f);
  }

  lemma {:induction false} ReturnUnitChain(t: Topology, s: State, f: Ref)
    requires ChainInv(t, s) && Valid(s, f) && (At(s, f).phase.Granted? || Suspended(At(s, f).phase))
    ensures ChainInv(t, ReturnUnit(s, f))
  {
    hide RequestInv;
    assert RequestInv(t, s.reqs[f.req]);
    ReturnUnitRequest(t, s.reqs[f.req], f.depth);
    RephasedChain(t, s, ReturnUnit(s, f), f.req);
  }

  // ----- Completion with an error ------------------------------------------

  lemma {:induction false} FailFrames(s: State, f: Ref, c: Completion)
    requires Valid(s, f)
    ensures var s' := Fail(s, f, c);
            && (forall g: Ref :: Valid(s', g) <==> Valid(s, g))
            && (forall g: Ref | Valid(s, g) :: At(s', g).name == At(s, g).name)
            && (forall g: Ref | Valid(s, g) && (g.req != f.req || g.depth > f.depth) :: At(s', g) == At(s, g))
            && (forall g: Ref | Valid(s, g) && g.req == f.req && g.depth <= f.depth :: At(s', g).phase == Leaving)
  {
  }

  lemma {:induction false} FailRequest(t: Topology, r: Request, d: nat, c: Completion)
    requires RequestInv(t, r) && d < |r.frames|
    requires var q := r.frames[d].phase; Alive(q) && Owns(q) && q != AwaitUplink
    ensures RequestInv(t, r.(frames := Condemn(r.frames, d + 1), completions := r.completions + [c]))
  {
    CondemnPhases(r.op, r.frames, d);
    SameShape(t, r.op, r.frames, Condemn(r.frames, d + 1));
    OnlyOne(r.op, r.frames, d);
    hide Phases, Shape;
  }

  lemma {:induction false} FailLive(s: State, f: Ref, c: Completion)
    requires Valid(s, f) && LiveExcept(s, f)
    ensures LiveInv(Fail(s, f, c))
  {
    FailFrames(s, f, c);
  }

  lemma {:induction false} FailStack(s: State, f: Ref, c: Completion)
    requires Valid(s, f) && Below(s, f)
    requires forall g: Ref | Valid(s, g) && g.req == f.req && g.depth < f.depth :: At(s, g).phase == AwaitUplink
    ensures StackInv(Fail(s, f, c))
  {
    FailFrames(s, f, c);
    var s' := Fail(s, f, c);
    var top := Outermost(f.req, f.depth + 1);
    forall g: Ref | Valid(s', g) && Active(At(s', g).phase) ensures g in top || g in s.stack {
      if g.req == f.req && g.depth <= f.depth {
        assert top[g.depth] == g;
      }
    }
    StackGrows(s', top, s.stack);
  }

  lemma {:induction false} FailCore(t: Topology, s: State, f: Ref, c: Completion)
    requires Running(t, s, f)
    requires Alive(At(s, f).phase) && Owns(At(s, f).phase) && At(s, f).phase != AwaitUplink
    ensures Core(t, Fail(s, f, c))
  {
    hide QueueInv, LiveInv, StackInv, Below, RequestInv, Condemn;
    var s' := Fail(s, f, c);
    FailFrames(s, f, c);
    ParentAwaits(t, s, f);
    assert SameFrames(s, s');
    RephasedQueues(s, s');
    FailRequest(t, s.reqs[f.req], f.depth, c);
    RephasedChain(t, s, s', f.req);
    FailStack(s, f, c);
  }

  // ----- Spawning ----------------------------------------------------------

  /** The states differ in the live table and the process counts only. */
  ghost predicate SameButLive(s: State, s': State)
  {
    s' == s.(live := s'.live, log := s.log.(spawned := s'.log.spawned, reaped := s'.log.reaped,
                                            orphaned := s'.log.orphaned))
  }

  lemma {:induction false} RunningIgnoresLive(t: Topology, s: State, s': State, f: Ref)
    requires Running(t, s, f) && SameButLive(s, s')
    ensures Running(t, s', f)
  {
    hide QueueInv, RequestInv;
    RephasedQueues(s, s');
  }

  /** Making the name of `f` live disturbs no other frame: `f` has the only token of that name. */
  lemma {:induction false} OnlyOwnerSeesName(t: Topology, s: State, f: Ref, g: Ref)
    requires Running(t, s, f) && Owns(At(s, f).phase)
    requires Valid(s, g) && g != f && At(s, g).name == At(s, f).name
    ensures !Owns(At(s, g).phase)
  {
    assert FrameOk(s, f) && FrameOk(s, g);
  }

  lemma {:induction false} SameRequests(s: State, s': State)
    requires s'.reqs == s.reqs
    ensures forall g: Ref :: Valid(s', g) <==> Valid(s, g)
    ensures forall g: Ref | Valid(s, g) :: At(s', g) == At(s, g)
  {
  }

  lemma {:induction false} LiveGrows(t: Topology, s: State, f: Ref, s': State)
    requires Running(t, s, f) && LiveInv(s) && Owns(At(s, f).phase)
    requires SameButLive(s, s') && s'.live == s.live + {At(s, f).name}
    ensures LiveExcept(s', f)
  {
    hide QueueInv, ChainInv, Below;
    SameRequests(s, s');
    var n := At(s, f).name;
    forall g: Ref | Valid(s', g) && g != f ensures LiveFrame(s'.live, At(s', g)) {
      assert LiveFrame(s.live, At(s, g));
      if At(s, g).name == n { OnlyOwnerSeesName(t, s, f, g); }
    }
  }

  lemma {:induction false} SpawnLive(t: Topology, s: State, f: Ref, o: SpawnOutcome)
    requires Running(t, s, f) && LiveInv(s)
    requires At(s, f).phase.Granted? || At(s, f).phase.Resumed?
    ensures LiveInv(Spawn(s, f, o))
  {
    hide QueueInv, ChainInv, Below, LiveInv, LiveExcept, Condemn;
    var n := At(s, f).name;
    var up := s.(log := s.log.(spawned := s.log.spawned + multiset{n}), live := s.live + {n});
    var lost := s.(log := s.log.(spawned := s.log.spawned + multiset{n}, orphaned := s.log.orphaned + multiset{n}));
    LiveGrows(t, s, f, up);
    LiveSame(s, f, s);
    LiveSame(s, f, lost);
    match o {
      case Connected => SuspendLive(up, f, Setup(0));
      case NoProcess(errno) => FailLive(s, f, Status(errno));
      case NoBus(code) => FailLive(lost, f, Status(code));
      case LateFailure(code) => FailLive(up, f, Status(code));
    }
  }

  lemma {:induction false} LiveSame(s: State, f: Ref, s': State)
    requires LiveInv(s) && SameButLive(s, s') && s'.live == s.live
    ensures LiveExcept(s', f)
  {
    SameRequests(s, s');
  }

  lemma {:induction false} SpawnLedger(s: State, f: Ref, o: SpawnOutcome)
    requires Valid(s, f) && Ledger(s) && At(s, f).name !in s.live
    ensures Ledger(Spawn(s, f, o))
  {
    var n := At(s, f).name;
    assert multiset(s.live + {n}) == multiset(s.live) + multiset{n};
  }

  lemma {:induction false} SpawnInv(t: Topology, s: State, f: Ref, o: SpawnOutcome)
    requires Running(t, s, f) && LiveInv(s) && Ledger(s)
    requires At(s, f).phase.Granted? || At(s, f).phase.Resumed?
    requires At(s, f).name !in s.live && s.reqs[f.req].op == Start
    ensures Inv(t, Spawn(s, f, o))
  {
    hide QueueInv, ChainInv, Below, LiveInv, StackInv, Condemn;
    SpawnLive(t, s, f, o);
    SpawnLedger(s, f, o);
    var n := At(s, f).name;
    var up := s.(log := s.log.(spawned := s.log.spawned + multiset{n}), live := s.live + {n});
    var lost := s.(log := s.log.(spawned := s.log.spawned + multiset{n}, orphaned := s.log.orphaned + multiset{n}));
    RunningIgnoresLive(t, s, up, f);
    RunningIgnoresLive(t, s, lost, f);
    match o {
      case Connected => SuspendCore(t, up, f, Setup(0));
      case NoProcess(errno) => FailCore(t, s, f, Status(errno));
      case NoBus(code) => FailCore(t, lost, f, Status(code));
      case LateFailure(code) => FailCore(t, up, f, Status(code));
    }
  }

  // ----- Queueing ----------------------------------------------------------

  /** `f` is a new frame that is in no queue yet. */
  ghost predicate Entering(t: Topology, s: State, f: Ref)
  {
    && Valid(s, f) && At(s, f).phase == Queued
    && (forall n: Name :: NameOk(s, n) && f !in QueueOf(s, n).waiting)
    && (forall g: Ref :: g == f || FrameOk(s, g))
    && ChainInv(t, s)
    && Below(s, f)
  }

  lemma {:induction false} EnqueueFrames(s: State, f: Ref)
    requires Valid(s, f)
    ensures var s' := Enqueue(s, f);
            && (forall g: Ref :: Valid(s', g) <==> Valid(s, g))
            && (forall g: Ref | Valid(s, g) && g != f :: At(s', g) == At(s, g))
            && At(s', f) == if QueueOf(s, At(s, f).name).held then At(s, f) else Frame(At(s, f).name, Granted)
  {
  }

  lemma {:induction false} EnqueueQueues(s: State, f: Ref, n: Name)
    requires Valid(s, f)
    ensures var s' := Enqueue(s, f);
            var q := QueueOf(s, n);
            if n != At(s, f).name then
              QueueOf(s', n) == q && GrantedTo(s', n) == GrantedTo(s, n) && Arrived(s', n) == Arrived(s, n)
            else
              && QueueOf(s', n) == (if q.held then Queue(true, q.waiting + [f]) else Queue(true, q.waiting))
              && GrantedTo(s', n) == (if q.held then GrantedTo(s, n) else GrantedTo(s, n) + [f])
              && Arrived(s', n) == Arrived(s, n) + [f]
  {
  }

  lemma {:induction false} EnqueueName(s: State, f: Ref, n: Name)
    requires Valid(s, f) && At(s, f).phase == Queued && NameOk(s, n) && f !in QueueOf(s, n).waiting
    ensures NameOk(Enqueue(s, f), n)
  {
    EnqueueFrames(s, f);
    EnqueueQueues(s, f, n);
    hide Enqueue;
  }

  lemma {:induction false} EnqueueFrame(s: State, f: Ref, g: Ref)
    requires Valid(s, f) && At(s, f).phase == Queued && (g == f || FrameOk(s, g))
    ensures FrameOk(Enqueue(s, f), g)
  {
    EnqueueFrames(s, f);
    if Valid(s, g) {
      EnqueueQueues(s, f, At(s, g).name);
    }
  }

  lemma {:induction false} EnqueueRequest(t: Topology, r: Request, d: nat)
    requires RequestInv(t, r) && d < |r.frames| && r.frames[d].phase == Queued
    ensures RequestInv(t, r.(frames := r.frames[d := r.frames[d].(phase := Granted)]))
  {
  }

  lemma {:induction false} EnqueueStack(s: State, f: Ref)
    requires Valid(s, f) && At(s, f).phase == Queued && Below(s, f)
    ensures StackInv(Enqueue(s, f))
  {
    EnqueueFrames(s, f);
    if !QueueOf(s, At(s, f).name).held {
      StackGrows(Enqueue(s, f), [f], s.stack);
    }
  }

  lemma {:induction false} EnqueueCore(t: Topology, s: State, f: Ref)
    requires Entering(t, s, f)
    ensures Core(t, Enqueue(s, f))
  {
    hide NameOk, FrameOk, StackInv, Below, RequestInv;
    forall n: Name ensures NameOk(Enqueue(s, f), n) { EnqueueName(s, f, n); }
    forall g: Ref ensures FrameOk(Enqueue(s, f), g) { EnqueueFrame(s, f, g); }
    EnqueueStack(s, f);
    EnqueueRequest(t, s.reqs[f.req], f.depth);
    RephasedChain(t, s, Enqueue(s, f), f.req);
  }

  lemma {:induction false} EnqueueLive(s: State, f: Ref)
    requires Valid(s, f) && At(s, f).phase == Queued && LiveInv(s)
    ensures LiveInv(Enqueue(s, f))
  {
    EnqueueFrames(s, f);
  }

  // ----- Destruction -------------------------------------------------------

  lemma {:induction false} DestroyFrames(s: State, f: Ref)
    requires Valid(s, f) && At(s, f).phase == Leaving && NameOk(s, At(s, f).name)
    ensures var s' := Destroy(s, f);
            var w := QueueOf(s, At(s, f).name).waiting;
            && (forall g: Ref :: Valid(s', g) <==> Valid(s, g))
            && (forall g: Ref | Valid(s, g) && g != f && (w == [] || g != w[0]) :: At(s', g) == At(s, g))
            && At(s', f) == Frame(At(s, f).name, Gone)
            && (w != [] ==> w[0] != f && Valid(s, w[0]) && At(s', w[0]) == Frame(At(s, f).name, Granted))
  {
  }

  lemma {:induction false} DestroyQueues(s: State, f: Ref, n: Name)
    requires Valid(s, f) && At(s, f).phase == Leaving && NameOk(s, At(s, f).name)
    ensures var s' := Destroy(s, f);
            var w := QueueOf(s, n).waiting;
            && Arrived(s', n) == Arrived(s, n)
            && (n != At(s, f).name ==> QueueOf(s', n) == QueueOf(s, n) && GrantedTo(s', n) == GrantedTo(s, n))
            && (n == At(s, f).name && w == [] ==> QueueOf(s', n) == Queue(false, []) && GrantedTo(s', n) == GrantedTo(s, n))
            && (n == At(s, f).name && w != [] ==>
                  QueueOf(s', n) == Queue(true, w[1..]) && GrantedTo(s', n) == GrantedTo(s, n) + [w[0]])
  {
  }

  lemma {:induction false} DestroyOtherName(s: State, f: Ref, n: Name)
    requires Valid(s, f) && At(s, f).phase == Leaving && NameOk(s, At(s, f).name)
    requires n != At(s, f).name && NameOk(s, n)
    ensures NameOk(Destroy(s, f), n)
  {
    DestroyFrames(s, f);
    DestroyQueues(s, f, n);
    hide Destroy;
  }

  lemma {:induction false} DestroyOwnName(s: State, f: Ref)
    requires Valid(s, f) && At(s, f).phase == Leaving && NameOk(s, At(s, f).name)
    ensures NameOk(Destroy(s, f), At(s, f).name)
  {
    var n := At(s, f).name;
    DestroyFrames(s, f);
    DestroyQueues(s, f, n);
    hide Destroy;
    var w := QueueOf(s, n).waiting;
    if w != [] {
      assert GrantedTo(s, n) + w == (GrantedTo(s, n) + [w[0]]) + w[1..];
    }
  }

  lemma {:induction false} DestroyFrame(s: State, f: Ref, g: Ref)
    requires Valid(s, f) && At(s, f).phase == Leaving && NameOk(s, At(s, f).name)
    requires FrameOk(s, f) && FrameOk(s, g)
    ensures FrameOk(Destroy(s, f), g)
  {
    DestroyFrames(s, f);
    if Valid(s, g) {
      DestroyQueues(s, f, At(s, g).name);
    }
  }

  lemma {:induction false} DestroyRequest(t: Topology, r: Request, d: nat)
    requires RequestInv(t, r) && d < |r.frames| && r.frames[d].phase == Leaving
    requires d > 0 ==> r.frames[d - 1].phase != Resumed
    ensures RequestInv(t, r.(frames := r.frames[d := r.frames[d].(phase := Gone)]))
  {
  }

  lemma {:induction false} ParentNotResumed(s: State, f: Ref)
    requires Valid(s, f) && Below(s, f)
    ensures f.depth > 0 ==> s.reqs[f.req].frames[f.depth - 1].phase != Resumed
  {
    if f.depth > 0 {
      var parent := Ref(f.req, f.depth - 1);
      assert Valid(s, parent);
      assert At(s, parent).phase != Resumed;
    }
  }

  lemma {:induction false} DestroyChain(t: Topology, s: State, f: Ref)
    requires Running(t, s, f) && At(s, f).phase == Leaving && NameOk(s, At(s, f).name)
    ensures ChainInv(t, Destroy(s, f))
  {
    ParentNotResumed(s, f);
    hide QueueInv, Below, RequestInv;
    var s1 := SetPhase(s, f, Gone);
    DestroyRequest(t, s.reqs[f.req], f.depth);
    RephasedChain(t, s, s1, f.req);
    hide ChainInv;
    ReleaseChain(t, s1, At(s, f).name);
  }

  lemma {:induction false} ReleaseChain(t: Topology, s: State, n: Name)
    requires ChainInv(t, s) && AllQueued(s, n, QueueOf(s, n).waiting)
    ensures ChainInv(t, Release(s, n))
  {
    hide RequestInv;
    var w := QueueOf(s, n).waiting;
    if w != [] {
      assert RequestInv(t, s.reqs[w[0].req]);
      EnqueueRequest(t, s.reqs[w[0].req], w[0].depth);
      RephasedChain(t, s, Release(s, n), w[0].req);
    }
  }

  lemma {:induction false} DestroyStackIs(s: State, f: Ref)
    requires Valid(s, f) && NameOk(s, At(s, f).name)
    ensures var w := QueueOf(s, At(s, f).name).waiting;
            Destroy(s, f).stack == (if w == [] then s.stack else [w[0]] + s.stack)
  {
  }

  /** A frame is gone, and perhaps another one has been handed its token and put on the stack. */
  lemma {:induction false} StackAfter(s: State, s': State, f: Ref, w: Option<Ref>)
    requires Valid(s, f) && Below(s, f) && forall g: Ref :: Valid(s', g) <==> Valid(s, g)
    requires forall g: Ref | Valid(s, g) && g != f && Some(g) != w :: At(s', g) == At(s, g)
    requires At(s', f).phase == Gone
    requires w.Some? ==> w.value != f && Valid(s, w.value) && At(s, w.value).phase == Queued && At(s', w.value).phase == Granted
    requires s'.stack == (if w.None? then s.stack else [w.value] + s.stack)
    ensures StackInv(s')
  {
    forall i | 0 <= i < |s.stack|
      ensures Valid(s', s.stack[i]) && At(s', s.stack[i]).phase == Leaving && Some(s.stack[i]) != w
    {
      assert At(s, s.stack[i]).phase == Leaving && s.stack[i] != f;
    }
    forall g: Ref | Valid(s', g) && Active(At(s', g).phase) ensures Some(g) == w || g in s.stack {
      assert g != f;
    }
    assert Distinct(s.stack);
    if w.Some? {
      assert w.value !in s.stack;
      hide Below;
      StackGrows(s', [w.value], s.stack);
    }
  }

  lemma {:induction false} DestroyStack(t: Topology, s: State, f: Ref)
    requires Running(t, s, f) && At(s, f).phase == Leaving && NameOk(s, At(s, f).name)
    ensures StackInv(Destroy(s, f))
  {
    hide QueueInv, ChainInv, Destroy;
    DestroyFrames(s, f);
    DestroyStackIs(s, f);
    var w := QueueOf(s, At(s, f).name).waiting;
    assert w != [] ==> At(s, w[0]).phase == Queued;
    hide NameOk;
    StackAfter(s, Destroy(s, f), f, if w == [] then None else Some(w[0]));
  }

  lemma {:induction false} DestroyInv(t: Topology, s: State, f: Ref)
    requires Running(t, s, f) && LiveInv(s) && Ledger(s) && At(s, f).phase == Leaving
    ensures QueueOf(s, At(s, f).name).waiting != [] ==> Valid(s, QueueOf(s, At(s, f).name).waiting[0])
    ensures Inv(t, Destroy(s, f))
  {
    assert NameOk(s, At(s, f).name);
    hide QueueInv, ChainInv, Below, StackInv;
    DestroyLive(s, f);
    DestroyStack(t, s, f);
    DestroyChain(t, s, f);
    DestroyQueueInv(s, f);
  }

  lemma {:induction false} DestroyQueueInv(s: State, f: Ref)
    requires Valid(s, f) && At(s, f).phase == Leaving && QueueInv(s) && NameOk(s, At(s, f).name)
    ensures QueueOf(s, At(s, f).name).waiting != [] ==> Valid(s, QueueOf(s, At(s, f).name).waiting[0])
    ensures QueueInv(Destroy(s, f))
  {
    assert QueueOf(s, At(s, f).name).waiting != [] ==> Valid(s, QueueOf(s, At(s, f).name).waiting[0]);
    hide Destroy, NameOk, FrameOk;
    forall n: Name ensures NameOk(Destroy(s, f), n) {
      if n == At(s, f).name { DestroyOwnName(s, f); } else { DestroyOtherName(s, f, n); }
    }
    forall g: Ref ensures FrameOk(Destroy(s, f), g) { DestroyFrame(s, f, g); }
  }

  lemma {:induction false} DestroyLive(s: State, f: Ref)
    requires Valid(s, f) && LiveInv(s) && At(s, f).phase == Leaving && NameOk(s, At(s, f).name)
    ensures LiveInv(Destroy(s, f))
  {
    DestroyFrames(s, f);
    DestroyKeepsLive(s, f);
    hide Destroy, NameOk;
  }

  lemma {:induction false} DestroyKeepsLive(s: State, f: Ref)
    requires Valid(s, f) && NameOk(s, At(s, f).name)
    ensures Destroy(s, f).live == s.live
  {
  }
}
