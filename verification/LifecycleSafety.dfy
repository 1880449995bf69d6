/**
  Safety of the lifecycle protocol over whole runs.
 */
module LifecycleSafety {
  import opened Uplinks
  import opened Lifecycle
  import opened LifecycleInvariant
  import opened LifecycleSteps
  import Coroutines

  // ----- What a step can touch ----------------------------------------------

  /** Neither the live table nor a process count nor the kind of a request changes. */
  ghost predicate Inert(s: State, s': State)
  {
    && s'.live == s.live
    && s'.log.spawned == s.log.spawned && s'.log.reaped == s.log.reaped && s'.log.orphaned == s.log.orphaned
    && |s.reqs| <= |s'.reqs|
    && (forall r | 0 <= r < |s.reqs| :: s'.reqs[r].op == s.reqs[r].op)
  }

  lemma {:induction false} EnqueueInert(s: State, f: Ref)
    requires Valid(s, f)
    ensures Inert(s, Enqueue(s, f)) && |Enqueue(s, f).reqs| == |s.reqs|
  {
  }

  lemma {:induction false} StartUplinkInert(s: State, f: Ref, u: Name)
    requires Valid(s, f) && f.depth + 1 == |s.reqs[f.req].frames|
    ensures Inert(s, StartUplink(s, f, u)) && |StartUplink(s, f, u).reqs| == |s.reqs|
  {
    EnqueueInert(WithChild(s, f, u), Child(f));
  }

  lemma {:induction false} DestroyInert(s: State, f: Ref)
    requires Valid(s, f)
    requires var q := QueueOf(s, At(s, f).name); q.waiting != [] ==> Valid(s, q.waiting[0])
    ensures Inert(s, Destroy(s, f)) && |Destroy(s, f).reqs| == |s.reqs|
  {
  }

  lemma {:induction false} CompletionInert(s: State, f: Ref, c: Completion, p: Phase)
    requires Valid(s, f)
    ensures Inert(s, ReturnUnit(s, f)) && |ReturnUnit(s, f).reqs| == |s.reqs|
    ensures Inert(s, Fail(s, f, c)) && |Fail(s, f, c).reqs| == |s.reqs|
    ensures Inert(s, SetPhase(s, f, p)) && |SetPhase(s, f, p).reqs| == |s.reqs|
  {
  }

  /** Every fork is for the name of the running frame, and puts it in the live table unless the bus is missing. */
  ghost predicate SpawnEffect(s: State, s': State, n: Name, o: SpawnOutcome)
  {
    && s'.log.reaped == s.log.reaped
    && s'.live == (if o.Connected? || o.LateFailure? then s.live + {n} else s.live)
    && s'.log.spawned == (if o.NoProcess? then s.log.spawned else s.log.spawned + multiset{n})
    && s'.log.orphaned == (if o.NoBus? then s.log.orphaned + multiset{n} else s.log.orphaned)
    && |s.reqs| == |s'.reqs|
    && (forall r | 0 <= r < |s.reqs| :: s'.reqs[r].op == s.reqs[r].op)
  }

  lemma {:induction false} SpawnDoes(s: State, f: Ref, o: SpawnOutcome)
    requires Valid(s, f)
    ensures SpawnEffect(s, Spawn(s, f, o), At(s, f).name, o)
  {
    var n := At(s, f).name;
    var up := s.(log := s.log.(spawned := s.log.spawned + multiset{n}), live := s.live + {n});
    var lost := s.(log := s.log.(spawned := s.log.spawned + multiset{n}, orphaned := s.log.orphaned + multiset{n}));
    hide SetPhase, Fail;
    match o {
      case NoProcess(errno) => CompletionInert(s, f, Status(errno), Gone);
      case NoBus(code) => CompletionInert(lost, f, Status(code), Gone);
      case LateFailure(code) => CompletionInert(up, f, Status(code), Gone);
      case Connected => CompletionInert(up, f, Done, Setup(0));
    }
  }

  /** The running frame forks: it has no uplink to wait for, or its uplink has answered. */
  ghost predicate Forks(t: Topology, s: State)
  {
    && CanRun(s)
    && var f := s.stack[0];
       || At(s, f).phase == Resumed
       || (At(s, f).phase == Granted && s.reqs[f.req].op == Start && At(s, f).name !in s.live
             && !(At(s, f).name in t && t[At(s, f).name].uplink.Some?))
  }

  lemma {:induction false} BodyDoes(t: Topology, s: State, f: Ref, o: SpawnOutcome)
    requires Valid(s, f) && f.depth + 1 == |s.reqs[f.req].frames|
    ensures var n := At(s, f).name;
            var s' := Body(t, s, f, o);
            if s.reqs[f.req].op == Start && n !in s.live && !(n in t && t[n].uplink.Some?) then
              SpawnEffect(s, s', n, o)
            else
              Inert(s, s') && |s'.reqs| == |s.reqs|
  {
    var n := At(s, f).name;
    hide SetPhase, Fail, ReturnUnit, StartUplink, Spawn, Inert, SpawnEffect;
    SpawnDoes(s, f, o);
    CompletionInert(s, f, Error, Stopping(0));
    if n in t && t[n].uplink.Some? { StartUplinkInert(s, f, t[n].uplink.value); }
  }

  lemma {:induction false} StackIsNoMatter(s: State, s1: State, s': State, n: Name, o: SpawnOutcome)
    requires s1 == s.(stack := s1.stack)
    ensures Inert(s1, s') ==> Inert(s, s')
    ensures SpawnEffect(s1, s', n, o) ==> SpawnEffect(s, s', n, o)
  {
  }

  lemma {:induction false} RunTopDoes(t: Topology, s: State, o: SpawnOutcome)
    requires CanRun(s)
    ensures Forks(t, s) ==> SpawnEffect(s, RunTop(t, s, o), At(s, s.stack[0]).name, o)
    ensures !Forks(t, s) ==> Inert(s, RunTop(t, s, o)) && |RunTop(t, s, o).reqs| == |s.reqs|
  {
    var f := s.stack[0];
    var s1, s' := s.(stack := s.stack[1..]), RunTop(t, s, o);
    hide Spawn, Destroy, Body, SpawnEffect, Inert;
    match At(s, f).phase {
      case Granted => BodyDoes(t, s1, f, o);
      case Resumed => SpawnDoes(s1, f, o);
      case _ => DestroyInert(s1, f);
    }
    hide RunTop;
    StackIsNoMatter(s, s1, s', At(s, f).name, o);
  }

  lemma {:induction false} ReplyDoes(t: Topology, s: State, f: Ref, a: Answer)
    requires Valid(s, f)
    ensures var s' := HandleReply(t, s, f, a);
            && |s'.reqs| == |s.reqs|
            && if a.Ok? && At(s, f).phase == Stopping(0) then Inert(ReapAndErase(s, At(s, f).name), s') else Inert(s, s')
  {
    hide SetPhase, Fail, ReturnUnit;
    var Frame(n, p) := At(s, f);
    match a {
      case Refused(c) => CompletionInert(s, f, c, Gone);
      case Ok =>
        CompletionInert(ReapAndErase(s, n), f, Done, Stopping(1));
        CompletionInert(s, f, Done, Stopping(2));
        CompletionInert(s, f, Done, Setup(if p.Setup? then p.stage + 1 else 0));
    }
  }

  lemma {:induction false} ArriveDoes(s: State, op: Op, n: Name)
    ensures Inert(s, Arrive(s, op, n))
    ensures |Arrive(s, op, n).reqs| == |s.reqs| + 1 && Arrive(s, op, n).reqs[|s.reqs|].op == op
  {
    var s' := WithRequest(s, op, n);
    EnqueueInert(s', Ref(|s.reqs|, 0));
  }

  // ----- At most one daemon per name ---------------------------------------

  /** Forks minus reaps minus lost processes is 1 for a live name and 0 for any other. */
  lemma {:induction false} AtMostOneDaemon(t: Topology, es: seq<Event>, n: Name)
    requires Closed(t) && After(t, es).Some?
    ensures var s := After(t, es).value;
            s.log.spawned[n] == s.log.reaped[n] + s.log.orphaned[n] + (if n in s.live then 1 else 0)
  {
    RunInv(t, es);
    var s := After(t, es).value;
    hide Core, LiveInv;
    assert s.log.spawned[n] == (s.log.reaped + multiset(s.live) + s.log.orphaned)[n];
  }

  ghost predicate NoBusFailure(es: seq<Event>)
  {
    forall i | 0 <= i < |es| :: !(es[i].Run? && es[i].outcome.NoBus?)
  }

  /** No process is lost while `sd_bus_new` succeeds. */
  lemma {:induction false} NoOrphans(t: Topology, es: seq<Event>)
    requires After(t, es).Some? && NoBusFailure(es)
    ensures After(t, es).value.log.orphaned == multiset{}
    decreases |es|
  {
    if es != [] {
      var last := |es| - 1;
      NoOrphans(t, es[..last]);
      var s := After(t, es[..last]).value;
      hide Arrive, HandleReply, RunTop;
      match es[last] {
        case StartRequest(n) => ArriveDoes(s, Start, n);
        case StopRequest(n) => ArriveDoes(s, Stop, n);
        case Reply(f, a) => ReplyDoes(t, s, f, a);
        case Run(o) => RunTopDoes(t, s, o);
      }
    }
  }

  // ----- Queues ------------------------------------------------------------

  /** The frames that hold a live token of `n`. */
  ghost predicate HasToken(s: State, n: Name, f: Ref)
  {
    Valid(s, f) && At(s, f).name == n && Owns(At(s, f).phase)
  }

  /** One token if held, none and no waiter otherwise; grants follow arrivals without barging. */
  lemma {:induction false} QueueCorrect(t: Topology, es: seq<Event>, n: Name)
    requires Closed(t) && After(t, es).Some?
    ensures var s := After(t, es).value;
            && (QueueOf(s, n).held ==> exists f: Ref :: HasToken(s, n, f))
            && (forall f: Ref, g: Ref | HasToken(s, n, f) && HasToken(s, n, g) :: f == g)
            && (!QueueOf(s, n).held ==> QueueOf(s, n).waiting == [] && forall f: Ref :: !HasToken(s, n, f))
            && GrantedTo(s, n) <= Arrived(s, n)
            && Arrived(s, n)[|GrantedTo(s, n)|..] == QueueOf(s, n).waiting
  {
    RunInv(t, es);
    var s := After(t, es).value;
    assert NameOk(s, n);
    if QueueOf(s, n).held { assert HasToken(s, n, Owner(s, n)); }
    forall f: Ref | HasToken(s, n, f) ensures QueueOf(s, n).held && f == Owner(s, n) {
      assert FrameOk(s, f);
    }
  }

  lemma {:induction false} HandlesExist(t: Topology, s: State, n: Name, f: Ref)
    requires Inv(t, s)
    ensures f in QueueOf(s, n).waiting ==> Valid(s, f) && At(s, f) == Frame(n, Queued)
    ensures f in s.stack ==> Valid(s, f) && At(s, f).phase != Gone && QueueOf(s, At(s, f).name).held
  {
    assert NameOk(s, n) && FrameOk(s, f) && StackInv(s);
    hide QueueInv, ChainInv, LiveInv;
  }

  /** No queue and no call stack entry refers to a destroyed frame, and a completed frame still owns its token. */
  lemma {:induction false} NoDanglingHandles(t: Topology, es: seq<Event>, n: Name, f: Ref)
    requires Closed(t) && After(t, es).Some?
    ensures var s := After(t, es).value;
            && (f in QueueOf(s, n).waiting ==> Valid(s, f) && At(s, f) == Frame(n, Queued))
            && (f in s.stack ==> Valid(s, f) && At(s, f).phase != Gone && QueueOf(s, At(s, f).name).held)
            && (s.stack != [] ==> CanRun(s))
  {
    RunInv(t, es);
    var s := After(t, es).value;
    hide After, CanRun;
    if s.stack != [] { Pop(t, s); }
    HandlesExist(t, s, n, f);
  }

  /** A request completes at most once, exactly when its outermost frame does. */
  lemma {:induction false} CompletesOnce(t: Topology, es: seq<Event>, r: nat)
    requires Closed(t) && After(t, es).Some? && r < |After(t, es).value.reqs|
    ensures var q := After(t, es).value.reqs[r];
            q.frames != [] && |q.completions| == (if Alive(q.frames[0].phase) then 0 else 1)
  {
    RunInv(t, es);
    assert RequestInv(t, After(t, es).value.reqs[r]);
  }

  // ----- Uplink before downlink --------------------------------------------

  /** The name the running frame is about to fork a process for. */
  ghost function SpawnedBy(s: State): Name
    requires CanRun(s)
  {
    At(s, s.stack[0]).name
  }

  lemma {:induction false} OnlyRunSpawns(t: Topology, s: State, e: Event)
    requires Enabled(t, s, e)
    ensures Next(t, s, e).log.spawned != s.log.spawned ==> e.Run? && Forks(t, s)
  {
    hide Arrive, HandleReply, RunTop;
    match e {
      case StartRequest(n) => ArriveDoes(s, Start, n);
      case StopRequest(n) => ArriveDoes(s, Stop, n);
      case Reply(f, a) => ReplyDoes(t, s, f, a);
      case Run(o) => RunTopDoes(t, s, o);
    }
  }

  /**
    Whenever a process is forked for `n`, `n` was not live, its direct uplink is, and the token of
    the uplink is still with the frame that found or made it live, so no Stop can be past the queue.
   */
  lemma {:induction false} UplinkBeforeDownlink(t: Topology, es: seq<Event>, e: Event)
    requires Closed(t) && After(t, es).Some? && Enabled(t, After(t, es).value, e)
    ensures var s := After(t, es).value;
            var s' := Next(t, s, e);
            s'.log.spawned != s.log.spawned ==>
              && CanRun(s)
              && SpawnedBy(s) !in s.live && SpawnedBy(s) in t
              && (t[SpawnedBy(s)].uplink.Some? ==>
                    var u := t[SpawnedBy(s)].uplink.value;
                    && u in s.live && u in s'.live
                    && QueueOf(s, u).held && Owner(s, u) == Child(s.stack[0])
                    && (forall g: Ref | Valid(s, g) && At(s, g).name == u :: !At(s, g).phase.Stopping?))
  {
    RunInv(t, es);
    var s := After(t, es).value;
    OnlyRunSpawns(t, s, e);
    if Next(t, s, e).log.spawned != s.log.spawned {
      RunTopDoes(t, s, e.outcome);
      UplinkHeld(t, s);
    }
  }

  lemma {:induction false} UplinkHeld(t: Topology, s: State)
    requires Inv(t, s) && Forks(t, s)
    ensures SpawnedBy(s) !in s.live && SpawnedBy(s) in t
    ensures t[SpawnedBy(s)].uplink.Some? ==>
      var u := t[SpawnedBy(s)].uplink.value;
      && u in s.live && QueueOf(s, u).held && Owner(s, u) == Child(s.stack[0])
      && (forall g: Ref | Valid(s, g) && At(s, g).name == u :: !At(s, g).phase.Stopping?)
  {
    var f := s.stack[0];
    assert LiveFrame(s.live, At(s, f));
    assert RequestInv(t, s.reqs[f.req]);
    var n := At(s, f).name;
    if t[n].uplink.Some? {
      var u := t[n].uplink.value;
      var c := Child(f);
      assert Valid(s, c) && At(s, c) == Frame(u, Leaving);
      assert FrameOk(s, c);
      forall g: Ref | Valid(s, g) && At(s, g).name == u ensures !At(s, g).phase.Stopping? {
        assert FrameOk(s, g);
      }
    }
  }

  ghost predicate NoStop(es: seq<Event>)
  {
    forall i | 0 <= i < |es| :: !es[i].StopRequest?
  }

  ghost predicate UplinkClosed(t: Topology, live: set<Name>)
  {
    forall n | n in live && n in t && t[n].uplink.Some? :: t[n].uplink.value in live
  }

  ghost predicate StartsOnly(s: State)
  {
    forall r | 0 <= r < |s.reqs| :: s.reqs[r].op == Start
  }

  lemma {:induction false} StartsOnlyNext(t: Topology, s: State, e: Event)
    requires Inv(t, s) && Enabled(t, s, e) && !e.StopRequest? && StartsOnly(s)
    ensures var s' := Next(t, s, e);
            && StartsOnly(s')
            && (s'.live == s.live || (s'.log.spawned != s.log.spawned && CanRun(s) && s'.live == s.live + {SpawnedBy(s)}))
  {
    hide Arrive, HandleReply, RunTop, CanRun;
    if e.Reply? { GrantedIsLast(t, s, e.frame); }
    hide Inv;
    match e {
      case StartRequest(n) => ArriveDoes(s, Start, n);
      case Reply(f, a) => ReplyDoes(t, s, f, a);
      case Run(o) => RunTopDoes(t, s, o);
    }
  }

  /** In a run without Stop the live table is closed under uplink. */
  lemma {:induction false} LiveClosedUnderUplink(t: Topology, es: seq<Event>)
    requires Closed(t) && After(t, es).Some? && NoStop(es)
    ensures UplinkClosed(t, After(t, es).value.live) && StartsOnly(After(t, es).value)
    decreases |es|
  {
    if es != [] {
      var last := |es| - 1;
      var s := After(t, es[..last]).value;
      LiveClosedUnderUplink(t, es[..last]);
      RunInv(t, es[..last]);
      hide Inv, After;
      StartsOnlyNext(t, s, es[last]);
      UplinkBeforeDownlink(t, es[..last], es[last]);
      assert After(t, es) == Some(Next(t, s, es[last]));
    }
  }

  // ----- Starts that fail to spawn -----------------------------------------

  function FailureCode(o: SpawnOutcome): int
    requires !o.Connected?
  {
    match o
    case NoProcess(errno) => errno
    case NoBus(code) => code
    case LateFailure(code) => code
  }

  lemma {:induction false} SpawnFails(s: State, f: Ref, o: SpawnOutcome)
    requires Valid(s, f) && !o.Connected?
    ensures var r := Spawn(s, f, o).reqs[f.req];
            && r.completions == s.reqs[f.req].completions + [Status(FailureCode(o))]
            && |r.frames| == |s.reqs[f.req].frames| && forall i | 0 <= i <= f.depth :: r.frames[i].phase == Leaving
  {
  }

  /**
    When no daemon comes up, the whole request fails with one status and all its frames go.  A failed
    `socketpair` or `fork` gives a positive status, which sends no reply; the other failures send one.
    A failure after the bus was allocated leaves the name live.
   */
  lemma {:induction false} FailedStart(t: Topology, es: seq<Event>, o: SpawnOutcome)
    requires Closed(t) && After(t, es).Some? && Forks(t, After(t, es).value) && Plausible(o) && !o.Connected?
    ensures var s := After(t, es).value;
            var f, s' := s.stack[0], RunTop(t, s, o);
            && s'.reqs[f.req].completions == [Status(FailureCode(o))]
            && (forall i | 0 <= i <= f.depth :: s'.reqs[f.req].frames[i].phase == Leaving)
            && (Coroutines.Replies(Coroutines.ReplyStatus(FailureCode(o))) <==> !o.NoProcess?)
            && (At(s, f).name in s'.live <==> o.LateFailure?)
  {
    var s := After(t, es).value;
    var f := s.stack[0];
    RunInv(t, es);
    UplinkHeld(t, s);
    RunTopDoes(t, s, o);
    assert RequestInv(t, s.reqs[f.req]);
    assert Alive(At(s, f).phase);
    assert s.reqs[f.req].completions == [];
    var s1 := s.(stack := s.stack[1..]);
    SpawnFails(s1, f, o);
    assert RunTop(t, s, o) == Spawn(s1, f, o);
    hide Spawn, Inv, RequestInv;
  }
}
