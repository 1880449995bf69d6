/**
  What a cascade does to the queue of a live entity: the Starts waiting in front
  of the first Stop all finish, in arrival order, without forking.
 */
module CascadeOrder {
  import opened Uplinks
  import opened Lifecycle
  import opened LifecycleInvariant
  import opened LifecycleSteps
  import opened LifecycleSafety
  import opened Cascade

  /** Phases only move forward. */
  ghost predicate Forward(p: Phase, p': Phase)
  {
    && (p' == Queued ==> p == Queued)
    && (p == Gone ==> p' == Gone)
    && (p == Leaving ==> p' == Leaving || p' == Gone)
  }

  ghost predicate FrameEvolves(s: State, s': State, g: Ref)
  {
    Valid(s, g) ==>
      && Valid(s', g) && At(s', g).name == At(s, g).name && s'.reqs[g.req].op == s.reqs[g.req].op
      && Forward(At(s, g).phase, At(s', g).phase)
  }

  ghost predicate NameEvolves(s: State, s': State, n: Name)
  {
    GrantedTo(s, n) <= GrantedTo(s', n) && Arrived(s, n) <= Arrived(s', n)
  }

  /** A frame enters Setup only for a name that was not live. */
  ghost predicate SetupIsNew(s: State, s': State, g: Ref)
  {
    Valid(s', g) && At(s', g).phase.Setup? ==>
      (Valid(s, g) && At(s', g) == At(s, g)) || At(s', g).name !in s.live
  }

  ghost predicate Steps(s: State, s': State)
  {
    && (forall g: Ref :: FrameEvolves(s, s', g) && SetupIsNew(s, s', g))
    && (forall n: Name :: NameEvolves(s, s', n))
  }

  lemma {:induction false} ReturnUnitSteps(t: Topology, s: State, f: Ref)
    requires Valid(s, f) && At(s, f).phase == Granted
    requires forall g: Ref | Valid(s, g) && Child(g) == f :: At(s, g).phase == AwaitUplink
    ensures Steps(s, ReturnUnit(s, f))
  {
    ReturnUnitFrames(s, f);
    forall n: Name ensures NameEvolves(s, ReturnUnit(s, f), n) { SameQueues(s, ReturnUnit(s, f), n); }
    CompletionInert(s, f, Done, Gone);
    hide ReturnUnit;
  }

  lemma {:induction false} FailSteps(s: State, f: Ref, c: Completion)
    requires Valid(s, f) && Alive(At(s, f).phase)
    requires forall g: Ref | Valid(s, g) && g.req == f.req && g.depth < f.depth :: At(s, g).phase == AwaitUplink
    ensures Steps(s, Fail(s, f, c))
  {
    FailFrames(s, f, c);
    forall n: Name ensures NameEvolves(s, Fail(s, f, c), n) { SameQueues(s, Fail(s, f, c), n); }
    CompletionInert(s, f, c, Gone);
    hide Fail;
  }

  lemma {:induction false} SetPhaseSteps(s: State, f: Ref, p: Phase)
    requires Valid(s, f) && Forward(At(s, f).phase, p) && (p.Setup? ==> At(s, f).name !in s.live)
    ensures Steps(s, SetPhase(s, f, p))
  {
    SetPhaseFrames(s, f, p);
    forall n: Name ensures NameEvolves(s, SetPhase(s, f, p), n) { SameQueues(s, SetPhase(s, f, p), n); }
    CompletionInert(s, f, Done, p);
    hide SetPhase;
  }

  lemma {:induction false} EnqueueSteps(s: State, f: Ref)
    requires Valid(s, f) && At(s, f).phase == Queued
    ensures Steps(s, Enqueue(s, f))
  {
    EnqueueFrames(s, f);
    EnqueueInert(s, f);
    forall n: Name ensures NameEvolves(s, Enqueue(s, f), n) { EnqueueQueues(s, f, n); }
    hide Enqueue;
  }

  lemma {:induction false} WithChildSteps(s: State, f: Ref, u: Name)
    requires Valid(s, f) && f.depth + 1 == |s.reqs[f.req].frames| && At(s, f).phase == Granted
    ensures Steps(s, WithChild(s, f, u))
    ensures WithChild(s, f, u).live == s.live
  {
    WithChildFrames(s, f, u);
    forall n: Name ensures NameEvolves(s, WithChild(s, f, u), n) { SameQueues(s, WithChild(s, f, u), n); }
  }

  lemma {:induction false} StepsTrans(s: State, s1: State, s2: State)
    requires Steps(s, s1) && Steps(s1, s2) && s.live <= s1.live
    ensures Steps(s, s2)
  {
    forall g: Ref ensures FrameEvolves(s, s2, g) && SetupIsNew(s, s2, g) {
      assert FrameEvolves(s, s1, g) && FrameEvolves(s1, s2, g) && SetupIsNew(s, s1, g) && SetupIsNew(s1, s2, g);
    }
    forall n: Name ensures NameEvolves(s, s2, n) {
      assert NameEvolves(s, s1, n) && NameEvolves(s1, s2, n);
    }
  }

  lemma {:induction false} DestroySteps(s: State, f: Ref)
    requires Valid(s, f) && At(s, f).phase == Leaving && NameOk(s, At(s, f).name)
    ensures Steps(s, Destroy(s, f))
  {
    DestroyFrames(s, f);
    DestroyInert(s, f);
    hide Destroy;
    forall n: Name ensures NameEvolves(s, Destroy(s, f), n) { DestroyQueues(s, f, n); }
    var w := QueueOf(s, At(s, f).name).waiting;
    hide NameOk;
    forall g: Ref ensures FrameEvolves(s, Destroy(s, f), g) && SetupIsNew(s, Destroy(s, f), g) {
      DestroyedFrame(s, f, g);
    }
  }

  lemma {:induction false} DestroyedFrame(s: State, f: Ref, g: Ref)
    requires Valid(s, f) && At(s, f).phase == Leaving && NameOk(s, At(s, f).name)
    ensures FrameEvolves(s, Destroy(s, f), g) && SetupIsNew(s, Destroy(s, f), g)
  {
    DestroyFrames(s, f);
    DestroyInert(s, f);
    hide Destroy;
  }

  lemma {:induction false} StepsSameRequests(s: State, s': State, s'': State)
    requires s.reqs == s'.reqs && s.log.granted == s'.log.granted && s.log.arrived == s'.log.arrived
    requires Steps(s', s'') && s.live <= s'.live
    ensures Steps(s, s'')
  {
    SameRequests(s, s');
    forall g: Ref ensures FrameEvolves(s, s'', g) && SetupIsNew(s, s'', g) {
      assert FrameEvolves(s', s'', g) && SetupIsNew(s', s'', g);
    }
    forall n: Name ensures NameEvolves(s, s'', n) {
      assert NameEvolves(s', s'', n);
    }
  }

  lemma {:induction false} ConnectedSteps(s: State, f: Ref)
    requires Valid(s, f) && (At(s, f).phase == Granted || At(s, f).phase == Resumed) && At(s, f).name !in s.live
    ensures Steps(s, Spawn(s, f, Connected))
  {
    var s' := Spawn(s, f, Connected);
    SetPhaseSteps(s, f, Setup(0));
    SetPhaseFrames(s, f, Setup(0));
    assert s'.reqs == SetPhase(s, f, Setup(0)).reqs;
    SameRequests(SetPhase(s, f, Setup(0)), s');
    hide SetPhase;
    forall g: Ref ensures FrameEvolves(s, s', g) && SetupIsNew(s, s', g) {
      assert FrameEvolves(s, SetPhase(s, f, Setup(0)), g) && SetupIsNew(s, SetPhase(s, f, Setup(0)), g);
    }
    forall n: Name ensures NameEvolves(s, s', n) {
      assert NameEvolves(s, SetPhase(s, f, Setup(0)), n);
    }
  }

  lemma {:induction false} SpawnSteps(s: State, f: Ref, o: SpawnOutcome)
    requires Valid(s, f) && (At(s, f).phase == Granted || At(s, f).phase == Resumed) && At(s, f).name !in s.live
    requires forall g: Ref | Valid(s, g) && g.req == f.req && g.depth < f.depth :: At(s, g).phase == AwaitUplink
    ensures Steps(s, Spawn(s, f, o))
  {
    var n := At(s, f).name;
    var up := s.(log := s.log.(spawned := s.log.spawned + multiset{n}), live := s.live + {n});
    var lost := s.(log := s.log.(spawned := s.log.spawned + multiset{n}, orphaned := s.log.orphaned + multiset{n}));
    SameRequests(s, up);
    SameRequests(s, lost);
    hide Steps, Fail;
    match o {
      case NoProcess(errno) => FailSteps(s, f, Status(errno));
      case NoBus(code) =>
        FailSteps(lost, f, Status(code));
        StepsSameRequests(s, lost, Fail(lost, f, Status(code)));
      case LateFailure(code) =>
        FailSteps(up, f, Status(code));
        StepsSameRequests(s, up, Fail(up, f, Status(code)));
      case Connected => ConnectedSteps(s, f);
    }
  }

  lemma {:induction false} BodySteps(t: Topology, s: State, f: Ref, o: SpawnOutcome)
    requires ChainInv(t, s) && Valid(s, f)
    requires At(s, f).phase == Granted && f.depth + 1 == |s.reqs[f.req].frames|
    ensures Steps(s, Body(t, s, f, o))
  {
    ParentAwaits(t, s, f);
    hide ChainInv, SetPhase, Fail, ReturnUnit, StartUplink, Spawn, Steps;
    var n := At(s, f).name;
    if s.reqs[f.req].op == Start {
      if n in s.live {
        ReturnUnitSteps(t, s, f);
      } else if n in t && t[n].uplink.Some? {
        var u := t[n].uplink.value;
        StartUplinkSteps(s, f, u);
      } else {
        SpawnSteps(s, f, o);
      }
    } else if n !in s.live {
      FailSteps(s, f, Error);
    } else {
      SetPhaseSteps(s, f, Stopping(0));
    }
  }

  lemma {:induction false} StartUplinkSteps(s: State, f: Ref, u: Name)
    requires Valid(s, f) && f.depth + 1 == |s.reqs[f.req].frames| && At(s, f).phase == Granted
    ensures Steps(s, StartUplink(s, f, u))
  {
    WithChildFrames(s, f, u);
    WithChildSteps(s, f, u);
    assert StartUplink(s, f, u) == Enqueue(WithChild(s, f, u), Child(f));
    hide Steps, Enqueue, WithChild;
    EnqueueSteps(WithChild(s, f, u), Child(f));
    StepsTrans(s, WithChild(s, f, u), Enqueue(WithChild(s, f, u), Child(f)));
  }

  lemma {:induction false} RunTopSteps(t: Topology, s: State, o: SpawnOutcome)
    requires Inv(t, s) && s.stack != []
    ensures CanRun(s) && Steps(s, RunTop(t, s, o))
  {
    Pop(t, s);
    var f := s.stack[0];
    var s1 := s.(stack := s.stack[1..]);
    PopBelow(s);
    assert NameOk(s1, At(s1, f).name);
    assert LiveFrame(s1.live, At(s1, f));
    ParentsOfActive(t, s1, f);
    hide QueueInv, ChainInv, Below, LiveInv, Body, Spawn, Destroy, StackInv, Steps;
    match At(s, f).phase {
      case Granted => BodySteps(t, s1, f, o);
      case Resumed => SpawnSteps(s1, f, o);
      case Leaving => DestroySteps(s1, f);
    }
    StepsSameRequests(s, s1, RunTop(t, s, o));
  }

  // ----- The queue of a live entity ----------------------------------------

  /** Everything granted so far belongs to the name and is past its queue. */
  ghost predicate GrantsPast(s: State, n: Name)
  {
    forall i | 0 <= i < |GrantedTo(s, n)| ::
      var f := GrantedTo(s, n)[i];
      Valid(s, f) && At(s, f).name == n && At(s, f).phase != Queued
  }

  ghost predicate NoSetup(s: State, n: Name)
  {
    forall g: Ref | Valid(s, g) && At(s, g).name == n :: !At(s, g).phase.Setup?
  }

  /** Facts about a live name that a cascade keeps. */
  ghost predicate LiveQueue(t: Topology, s: State, n: Name)
  {
    n in s.live && NoSetup(s, n) && GrantsPast(s, n)
  }

  lemma {:induction false} NoSetupNext(s: State, s': State, n: Name)
    requires Steps(s, s') && NoSetup(s, n) && n in s.live
    ensures NoSetup(s', n)
  {
    forall g: Ref | Valid(s', g) && At(s', g).name == n ensures !At(s', g).phase.Setup? {
      assert SetupIsNew(s, s', g);
    }
  }

  ghost predicate GrantsOne(s: State, s': State, n: Name)
  {
    || GrantedTo(s', n) == GrantedTo(s, n)
    || exists w: Ref :: GrantedTo(s', n) == GrantedTo(s, n) + [w] && Valid(s', w) && At(s', w) == Frame(n, Granted)
  }

  lemma {:induction false} EnqueueGrants(s: State, f: Ref, n: Name)
    requires Valid(s, f)
    ensures GrantsOne(s, Enqueue(s, f), n)
  {
    EnqueueFrames(s, f);
    EnqueueQueues(s, f, n);
  }

  lemma {:induction false} DestroyGrants(s: State, f: Ref, n: Name)
    requires Valid(s, f) && At(s, f).phase == Leaving && NameOk(s, At(s, f).name)
    ensures GrantsOne(s, Destroy(s, f), n)
  {
    DestroyFrames(s, f);
    DestroyQueues(s, f, n);
  }

  lemma {:induction false} RunTopGrants(t: Topology, s: State, o: SpawnOutcome, n: Name)
    requires Inv(t, s) && s.stack != []
    ensures CanRun(s) && GrantsOne(s, RunTop(t, s, o), n)
  {
    Pop(t, s);
    var f := s.stack[0];
    var s1 := s.(stack := s.stack[1..]);
    assert NameOk(s1, At(s1, f).name);
    hide Inv, Running, NameOk, Destroy, Body, Spawn;
    match At(s, f).phase {
      case Granted => BodyGrants(t, s1, f, o, n);
      case Resumed => SpawnGrants(s1, f, o, n);
      case Leaving => DestroyGrants(s1, f, n);
    }
  }

  lemma {:induction false} SpawnGrants(s: State, f: Ref, o: SpawnOutcome, n: Name)
    requires Valid(s, f)
    ensures GrantedTo(Spawn(s, f, o), n) == GrantedTo(s, n)
  {
  }

  lemma {:induction false} BodyGrants(t: Topology, s: State, f: Ref, o: SpawnOutcome, n: Name)
    requires Valid(s, f) && f.depth + 1 == |s.reqs[f.req].frames|
    ensures GrantsOne(s, Body(t, s, f, o), n)
  {
    SpawnGrants(s, f, o, n);
    var m := At(s, f).name;
    if m in t && t[m].uplink.Some? {
      var u := t[m].uplink.value;
      WithChildFrames(s, f, u);
      assert StartUplink(s, f, u) == Enqueue(WithChild(s, f, u), Child(f));
      EnqueueGrants(WithChild(s, f, u), Child(f), n);
    }
    hide Spawn, StartUplink;
  }

  lemma {:induction false} LiveQueueNext(t: Topology, s: State, o: SpawnOutcome, n: Name)
    requires Closed(t) && Inv(t, s) && s.stack != [] && LiveQueue(t, s, n)
    ensures CanRun(s) && LiveQueue(t, RunTop(t, s, o), n)
    ensures RunTop(t, s, o).log.spawned[n] == s.log.spawned[n]
  {
    RunTopSteps(t, s, o);
    RunTopInv(t, s, o);
    RunTopGrants(t, s, o, n);
    var s' := RunTop(t, s, o);
    RunTopDoes(t, s, o);
    if Forks(t, s) { UplinkHeld(t, s); }
    hide Inv, RunTop, Steps, CanRun, GrantsOne, NotBack;
    NoSetupNext(s, s', n);
    StepsNotBack(s, s');
    NotBackGrants(s, s', n);
  }

  lemma {:induction false} CascadeKeepsLiveQueue(t: Topology, s: State, os: seq<SpawnOutcome>, n: Name)
    requires Closed(t) && Inv(t, s) && LiveQueue(t, s, n) && Cascaded(t, s, os).Some?
    ensures var s' := Cascaded(t, s, os).value;
            Inv(t, s') && LiveQueue(t, s', n) && Steps(s, s') && s'.log.spawned[n] == s.log.spawned[n]
    decreases |os|
  {
    if os == [] {
      hide Inv;
    } else {
      var s1 := RunTop(t, s, os[0]);
      RunTopInv(t, s, os[0]);
      RunTopSteps(t, s, os[0]);
      RunTopDoes(t, s, os[0]);
      LiveQueueNext(t, s, os[0], n);
      hide Inv, Steps, LiveQueue, RunTop, CanRun;
      CascadeKeepsLiveQueue(t, s1, os[1..], n);
      StepsTrans(s, s1, Cascaded(t, s, os).value);
    }
  }

  /** When the daemon is idle, whoever holds a live name without setting it up is stopping it. */
  lemma {:induction false} IdleOwnerStops(t: Topology, s: State, n: Name)
    requires Inv(t, s) && s.stack == [] && n in s.live && NoSetup(s, n) && QueueOf(s, n).held
    ensures Valid(s, Owner(s, n)) && At(s, Owner(s, n)) == Frame(n, Stopping(0))
    ensures s.reqs[Owner(s, n).req].op == Stop
  {
    assert NameOk(s, n);
    var f := Owner(s, n);
    IdleRunning(t, s, f);
    assert LiveFrame(s.live, At(s, f));
    GrantedIsLast(t, s, f);
  }

  // ----- Grants over whole runs --------------------------------------------

  /** Grants stay, and no frame goes back into a queue. */
  ghost predicate NotBack(s: State, s': State)
  {
    forall g: Ref | Valid(s, g) ::
      Valid(s', g) && At(s', g).name == At(s, g).name && (At(s', g).phase == Queued ==> At(s, g).phase == Queued)
  }

  lemma {:induction false} StepsNotBack(s: State, s': State)
    requires Steps(s, s')
    ensures NotBack(s, s')
  {
    forall g: Ref | Valid(s, g)
      ensures Valid(s', g) && At(s', g).name == At(s, g).name && (At(s', g).phase == Queued ==> At(s, g).phase == Queued)
    {
      assert FrameEvolves(s, s', g);
    }
  }

  lemma {:induction false} NotBackGrants(s: State, s': State, n: Name)
    requires NotBack(s, s') && GrantsOne(s, s', n) && GrantsPast(s, n)
    ensures GrantsPast(s', n)
  {
    var g, g' := GrantedTo(s, n), GrantedTo(s', n);
    forall i | 0 <= i < |g'|
      ensures Valid(s', g'[i]) && At(s', g'[i]).name == n && At(s', g'[i]).phase != Queued
    {
      if i < |g| { assert g'[i] == g[i]; }
    }
  }

  lemma {:induction false} FailNotBack(s: State, f: Ref, c: Completion, n: Name)
    requires Valid(s, f)
    ensures NotBack(s, Fail(s, f, c)) && GrantedTo(Fail(s, f, c), n) == GrantedTo(s, n)
  {
    FailFrames(s, f, c);
  }

  lemma {:induction false} ReturnUnitNotBack(s: State, f: Ref, n: Name)
    requires Valid(s, f)
    ensures NotBack(s, ReturnUnit(s, f)) && GrantedTo(ReturnUnit(s, f), n) == GrantedTo(s, n)
  {
    ReturnUnitFrames(s, f);
  }

  lemma {:induction false} SetPhaseNotBack(s: State, s1: State, f: Ref, p: Phase, n: Name)
    requires Valid(s, f) && s1.reqs == s.reqs && s1.log.granted == s.log.granted && p != Queued
    ensures NotBack(s, SetPhase(s1, f, p)) && GrantedTo(SetPhase(s1, f, p), n) == GrantedTo(s, n)
  {
    SetPhaseFrames(s1, f, p);
  }

  lemma {:induction false} ReplyNotBack(t: Topology, s: State, f: Ref, a: Answer, n: Name)
    requires Valid(s, f)
    ensures NotBack(s, HandleReply(t, s, f, a)) && GrantedTo(HandleReply(t, s, f, a), n) == GrantedTo(s, n)
  {
    hide NotBack, GrantedTo, Fail, SetPhase, ReturnUnit;
    var Frame(m, p) := At(s, f);
    match a {
      case Refused(c) => FailNotBack(s, f, c, n);
      case Ok =>
        if p == Stopping(0) {
          SetPhaseNotBack(s, ReapAndErase(s, m), f, Stopping(1), n);
        } else if p == Stopping(1) {
          SetPhaseNotBack(s, s, f, Stopping(2), n);
        } else if p.Setup? && m in t && p.stage + 1 < Stages(t[m]) {
          SetPhaseNotBack(s, s, f, Setup(p.stage + 1), n);
        } else {
          ReturnUnitNotBack(s, f, n);
        }
    }
  }

  lemma {:induction false} ArriveNotBack(s: State, op: Op, m: Name, n: Name)
    ensures NotBack(s, Arrive(s, op, m)) && GrantsOne(s, Arrive(s, op, m), n)
  {
    var s1 := WithRequest(s, op, m);
    var f := Ref(|s.reqs|, 0);
    WithRequestFrames(s, op, m);
    EnqueueFrames(s1, f);
    EnqueueGrants(s1, f, n);
    assert Arrive(s, op, m) == Enqueue(s1, f);
    hide Enqueue, Arrive, WithRequest;
    SameQueues(s, s1, n);
  }

  lemma {:induction false} RunNotBack(t: Topology, s: State, o: SpawnOutcome, n: Name)
    requires Inv(t, s) && s.stack != []
    ensures CanRun(s) && NotBack(s, RunTop(t, s, o)) && GrantsOne(s, RunTop(t, s, o), n)
  {
    RunTopSteps(t, s, o);
    RunTopGrants(t, s, o, n);
    hide RunTop, Inv, CanRun;
    forall g: Ref | Valid(s, g) ensures FrameEvolves(s, RunTop(t, s, o), g) {}
  }

  lemma {:induction false} RunGrantsPast(t: Topology, es: seq<Event>, n: Name)
    requires Closed(t) && After(t, es).Some?
    ensures GrantsPast(After(t, es).value, n)
    decreases |es|
  {
    if es != [] {
      var last := |es| - 1;
      var s := After(t, es[..last]).value;
      RunGrantsPast(t, es[..last], n);
      RunInv(t, es[..last]);
      hide Arrive, HandleReply, RunTop, Inv, GrantsPast;
      match es[last] {
        case StartRequest(m) => ArriveNotBack(s, Start, m, n);
        case StopRequest(m) => ArriveNotBack(s, Stop, m, n);
        case Reply(f, a) => ReplyNotBack(t, s, f, a, n);
        case Run(o) => RunNotBack(t, s, o, n);
      }
      NotBackGrants(s, After(t, es).value, n);
    }
  }

  // ----- Main result -------------------------------------------------------

  /** The first `k` waiters of `n` are Starts. */
  ghost predicate StartsInFront(s: State, n: Name, k: nat)
  {
    var w := QueueOf(s, n).waiting;
    k <= |w| && forall i | 0 <= i < k :: Valid(s, w[i]) && s.reqs[w[i].req].op == Start
  }

  lemma {:induction false} OwnerIsBeyond(s: State, s': State, n: Name, k: nat)
    requires NameOk(s, n) && NameOk(s', n) && NameEvolves(s, s', n) && StartsInFront(s, n, k)
    requires forall h: Ref :: FrameEvolves(s, s', h)
    requires GrantedTo(s, n) != [] && Valid(s, Owner(s, n)) && At(s, Owner(s, n)).phase == Leaving
    requires Valid(s', Owner(s', n)) && At(s', Owner(s', n)).phase == Stopping(0)
    requires s'.reqs[Owner(s', n).req].op == Stop
    ensures |GrantedTo(s, n)| + k <= |GrantedTo(s', n)|
  {
    var g, g', w := GrantedTo(s, n), GrantedTo(s', n), QueueOf(s, n).waiting;
    assert FrameEvolves(s, s', Owner(s', n));
    assert g + w <= g' + QueueOf(s', n).waiting;
    assert forall i | 0 <= i < |g'| && i < |g| :: g'[i] == g[i];
    assert forall i | |g| <= i < |g'| && i < |g| + |w| :: g'[i] == (g' + QueueOf(s', n).waiting)[i] == w[i - |g|];
  }

  lemma {:induction false} DrainedGrants(t: Topology, s: State, s': State, n: Name, k: nat)
    requires Inv(t, s) && Inv(t, s') && Steps(s, s') && StartsInFront(s, n, k)
    requires s.stack != [] && At(s, s.stack[0]) == Frame(n, Leaving)
    requires s'.stack == [] && n in s'.live && NoSetup(s', n)
    ensures GrantedTo(s, n) + QueueOf(s, n).waiting[..k] <= GrantedTo(s', n)
    ensures QueueOf(s', n).held ==> Valid(s', Owner(s', n)) && s'.reqs[Owner(s', n).req].op == Stop
  {
    var f := s.stack[0];
    var w := QueueOf(s, n).waiting;
    var g, g' := GrantedTo(s, n), GrantedTo(s', n);
    assert NameOk(s, n) && FrameOk(s, f) && NameOk(s', n) && NameEvolves(s, s', n);
    if QueueOf(s', n).held {
      IdleOwnerStops(t, s', n);
      assert forall h: Ref :: FrameEvolves(s, s', h);
      hide Inv, Steps;
      OwnerIsBeyond(s, s', n, k);
    }
    hide Inv, Steps;
    assert |g| + k <= |g'|;
    assert g + w <= g' + QueueOf(s', n).waiting;
    forall i | 0 <= i < |g| + k ensures (g + w[..k])[i] == g'[i] {
      assert (g + w[..k])[i] == (g + w)[i] == (g' + QueueOf(s', n).waiting)[i];
    }
  }

  /**
    A frame drops its token of the live entity `n`.  Whatever the cascade does, once it has ended no
    process was forked for `n`, and every Start queued in front of the first Stop was granted the
    token, in arrival order, and is gone.
   */
  lemma {:induction false} LiveQueueDrains(t: Topology, es: seq<Event>, os: seq<SpawnOutcome>, n: Name, k: nat)
    requires Closed(t) && After(t, es).Some?
    requires var s := After(t, es).value;
             && s.stack != [] && Valid(s, s.stack[0]) && At(s, s.stack[0]) == Frame(n, Leaving)
             && n in s.live && StartsInFront(s, n, k)
             && Cascaded(t, s, os).Some? && Cascaded(t, s, os).value.stack == []
    ensures var s := After(t, es).value;
            var s' := Cascaded(t, s, os).value;
            var w := QueueOf(s, n).waiting;
            && n in s'.live && s'.log.spawned[n] == s.log.spawned[n]
            && GrantedTo(s, n) + w[..k] <= GrantedTo(s', n)
            && (forall i | 0 <= i < k :: Valid(s', w[i]) && At(s', w[i]).phase == Gone)
  {
    var s := After(t, es).value;
    var s' := Cascaded(t, s, os).value;
    var w := QueueOf(s, n).waiting;
    RunInv(t, es);
    RunGrantsPast(t, es, n);
    LeavingOwner(t, s, n);
    hide Inv, After, Cascaded, NoSetup, GrantsPast, Steps, StartsInFront;
    CascadeKeepsLiveQueue(t, s, os, n);
    DrainedGrants(t, s, s', n, k);
    DrainedGone(t, s, s', n, k);
  }

  lemma {:induction false} DrainedOne(s: State, s': State, n: Name, g: Ref, i: nat)
    requires GrantsPast(s', n) && i < |GrantedTo(s', n)| && GrantedTo(s', n)[i] == g && FrameOk(s', g)
    requires Valid(s, g) && s.reqs[g.req].op == Start && FrameEvolves(s, s', g)
    requires QueueOf(s', n).held ==> Valid(s', Owner(s', n)) && s'.reqs[Owner(s', n).req].op == Stop
    ensures Valid(s', g) && At(s', g).phase == Gone
  {
  }

  lemma {:induction false} FrameFacts(t: Topology, s: State, s': State, g: Ref)
    requires Inv(t, s') && Steps(s, s')
    ensures FrameEvolves(s, s', g) && FrameOk(s', g)
  {
  }

  lemma {:induction false} DrainedGone(t: Topology, s: State, s': State, n: Name, k: nat)
    requires Inv(t, s') && Steps(s, s') && StartsInFront(s, n, k) && GrantsPast(s', n)
    requires GrantedTo(s, n) + QueueOf(s, n).waiting[..k] <= GrantedTo(s', n)
    requires QueueOf(s', n).held ==> Valid(s', Owner(s', n)) && s'.reqs[Owner(s', n).req].op == Stop
    ensures var w := QueueOf(s, n).waiting; forall i | 0 <= i < k :: Valid(s', w[i]) && At(s', w[i]).phase == Gone
  {
    var w := QueueOf(s, n).waiting;
    hide Inv, Steps, GrantsPast;
    forall i | 0 <= i < k ensures Valid(s', w[i]) && At(s', w[i]).phase == Gone {
      FrameFacts(t, s, s', w[i]);
      assert (GrantedTo(s, n) + w[..k])[|GrantedTo(s, n)| + i] == w[i];
      DrainedOne(s, s', n, w[i], |GrantedTo(s, n)| + i);
    }
  }

  lemma {:induction false} LeavingOwner(t: Topology, s: State, n: Name)
    requires Inv(t, s) && s.stack != [] && Valid(s, s.stack[0]) && At(s, s.stack[0]) == Frame(n, Leaving)
    ensures NoSetup(s, n)
  {
    var f := s.stack[0];
    forall g: Ref | Valid(s, g) && At(s, g).name == n ensures !At(s, g).phase.Setup? {
      assert FrameOk(s, f) && FrameOk(s, g);
    }
  }
}
