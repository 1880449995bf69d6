/**
  The lifecycle tables as the daemon keeps them: the queues and the live table
  are updated in place while coroutine frames run, and a token destructor runs
  the next waiter before it returns.  Every method is proved against the step
  of the state machine that it performs.
 */
module EntityRuntime {
  import opened Uplinks
  import opened Lifecycle
  import opened LifecycleInvariant
  import opened LifecycleSteps
  import opened LifecycleSafety
  import opened Cascade

  const ENOENT := 2

  class Runtime {
    var queues: map<Name, Queue>
    var live: set<Name>
    var reqs: seq<Request>
    var stack: seq<Ref>
    var log: Log

    function Model(): State
      reads this
    {
      State(queues, live, reqs, stack, log)
    }

    constructor ()
      ensures Model() == Initial
    {
      queues, live, reqs, stack := map[], {}, [], [];
      log := Log(map[], map[], multiset{}, multiset{}, multiset{});
    }

    /** `queue_awaitable::await_ready` */
    method AwaitReady(n: Name) returns (ready: bool)
      ensures ready <==> !QueueOf(Model(), n).held
    {
      ready := n !in queues || !queues[n].held;
    }

    /** `queue_awaitable::await_suspend`, reached only when the name is held. */
    method AwaitSuspend(n: Name, f: Ref)
      requires QueueOf(Model(), n).held
      modifies this`queues
      ensures var q := old(QueueOf(Model(), n));
              Model() == SetQueue(old(Model()), n, Queue(true, q.waiting + [f]))
    {
      var q := queues[n];
      assert q.held;
      queues := queues[n := q.(waiting := q.waiting + [f])];
    }

    /** `queue_awaitable::await_resume`: takes the token. */
    method AwaitResume(n: Name, f: Ref)
      requires !QueueOf(Model(), n).held
      modifies this`queues, this`log
      ensures var q := old(QueueOf(Model(), n));
              Model() == LogGrant(SetQueue(old(Model()), n, Queue(true, q.waiting)), n, f)
    {
      var q := if n in queues then queues[n] else Queue(false, []);
      assert !q.held;
      queues := queues[n := q.(held := true)];
      var g := if n in log.granted then log.granted[n] else [];
      log := log.(granted := log.granted[n := g + [f]]);
    }

    method MoveTo(f: Ref, p: Phase)
      requires Valid(Model(), f)
      modifies this`reqs
      ensures Model() == SetPhase(old(Model()), f, p)
    {
      var r := reqs[f.req];
      reqs := reqs[f.req := r.(frames := r.frames[f.depth := r.frames[f.depth].(phase := p)])];
    }

    /** `co_await enqueue()` */
    method EnqueueFrame(f: Ref)
      requires Valid(Model(), f)
      modifies this`queues, this`reqs, this`stack, this`log
      ensures Model() == Enqueue(old(Model()), f)
    {
      var n := reqs[f.req].frames[f.depth].name;
      var a := if n in log.arrived then log.arrived[n] else [];
      log := log.(arrived := log.arrived[n := a + [f]]);
      var ready := AwaitReady(n);
      if ready {
        AwaitResume(n, f);
        MoveTo(f, Granted);
        stack := [f] + stack;
      } else {
        AwaitSuspend(n, f);
      }
    }

    /** `~queue_token`: the flag is cleared and the head of the queue takes the token before anything else runs. */
    method ReleaseToken(n: Name)
      requires QueueOf(Model(), n).held
      requires var q := QueueOf(Model(), n); q.waiting != [] ==> Valid(Model(), q.waiting[0])
      modifies this`queues, this`reqs, this`stack, this`log
      ensures Model() == Release(old(Model()), n)
    {
      var q := queues[n];
      assert q.held;
      queues := queues[n := q.(held := false)];
      if q.waiting != [] {
        var w := q.waiting[0];
        queues := queues[n := Queue(false, q.waiting[1..])];
        AwaitResume(n, w);
        MoveTo(w, Granted);
        stack := [w] + stack;
      }
    }

    /** `co_return unit` */
    method CompleteWithUnit(f: Ref)
      requires Valid(Model(), f)
      modifies this`reqs, this`stack
      ensures Model() == ReturnUnit(old(Model()), f)
    {
      MoveTo(f, Leaving);
      if f.depth == 0 {
        var r := reqs[f.req];
        reqs := reqs[f.req := r.(completions := r.completions + [Done])];
        stack := [f] + stack;
      } else {
        var parent := Ref(f.req, f.depth - 1);
        MoveTo(parent, Resumed);
        stack := [parent, f] + stack;
      }
    }

    /** `co_return` of an error: the root answers and the ancestors are condemned, outermost first. */
    method CompleteWithError(f: Ref, c: Completion)
      requires Valid(Model(), f)
      modifies this`reqs, this`stack
      ensures Model() == Fail(old(Model()), f, c)
    {
      var r := reqs[f.req];
      var frames := r.frames;
      var doomed: seq<Ref> := [];
      var i := 0;
      while i <= f.depth
        invariant i <= f.depth + 1 <= |r.frames|
        invariant frames == Condemn(r.frames, i)
        invariant doomed == Outermost(f.req, i)
        decreases f.depth + 1 - i
      {
        frames := frames[i := frames[i].(phase := Leaving)];
        doomed := doomed + [Ref(f.req, i)];
        i := i + 1;
      }
      reqs := reqs[f.req := r.(frames := frames, completions := r.completions + [c])];
      stack := doomed + stack;
    }

    /** `entity::start` from `socketpair` on. */
    method SpawnProcess(f: Ref, o: SpawnOutcome)
      requires Valid(Model(), f)
      modifies this`reqs, this`stack, this`live, this`log
      ensures Model() == Spawn(old(Model()), f, o)
    {
      var n := reqs[f.req].frames[f.depth].name;
      match o {
        case NoProcess(errno) =>
          CompleteWithError(f, Status(errno));
        case NoBus(code) =>
          log := log.(spawned := log.spawned + multiset{n}, orphaned := log.orphaned + multiset{n});
          CompleteWithError(f, Status(code));
        case LateFailure(code) =>
          log := log.(spawned := log.spawned + multiset{n});
          live := live + {n};
          CompleteWithError(f, Status(code));
        case Connected =>
          log := log.(spawned := log.spawned + multiset{n});
          live := live + {n};
          MoveTo(f, Setup(0));
      }
    }

    /** The bodies of `entity::start` and `entity::stop` once they have the token. */
    method RunBody(t: Topology, f: Ref, o: SpawnOutcome)
      requires Valid(Model(), f) && f.depth + 1 == |reqs[f.req].frames|
      modifies this
      ensures Model() == Body(t, old(Model()), f, o)
    {
      var n := reqs[f.req].frames[f.depth].name;
      if reqs[f.req].op == Start {
        if n in live {
          CompleteWithUnit(f);
        } else if n in t && t[n].uplink.Some? {
          MoveTo(f, AwaitUplink);
          var r := reqs[f.req];
          reqs := reqs[f.req := r.(frames := r.frames + [Frame(t[n].uplink.value, Queued)])];
          EnqueueFrame(Ref(f.req, f.depth + 1));
        } else {
          SpawnProcess(f, o);
        }
      } else if n !in live {
        CompleteWithError(f, Error);
      } else {
        MoveTo(f, Stopping(0));
      }
    }

    /** Runs the frame on top of the call stack up to its next suspension, completion or call. */
    method RunFrame(t: Topology, o: SpawnOutcome)
      requires Closed(t) && Inv(t, Model()) && stack != []
      modifies this
      ensures CanRun(old(Model())) && Model() == RunTop(t, old(Model()), o)
      ensures Inv(t, Model())
    {
      ghost var s := Model();
      Pop(t, s);
      RunTopInv(t, s, o);
      var f := stack[0];
      assert FrameOk(s, f);
      hide Inv, Body, Spawn;
      stack := stack[1..];
      var Frame(n, p) := reqs[f.req].frames[f.depth];
      if p == Granted {
        RunBody(t, f, o);
      } else if p == Resumed {
        SpawnProcess(f, o);
      } else {
        MoveTo(f, Gone);
        ReleaseToken(n);
      }
    }

    /** `controller::start` and `controller::stop`: an unknown entity is answered at once. */
    method Receive(t: Topology, op: Op, n: Name) returns (answer: Option<Completion>)
      requires Closed(t) && Inv(t, Model()) && stack == []
      modifies this`queues, this`reqs, this`stack, this`log
      ensures Inv(t, Model())
      ensures answer == if n in t then None else Some(Status(-2))
      ensures Model() == if n in t then Arrive(old(Model()), op, n) else old(Model())
    {
      if n !in t {
        return Some(Status(-ENOENT));
      }
      answer := None;
      ArriveInv(t, Model(), op, n);
      hide Inv;
      var f := Ref(|reqs|, 0);
      reqs := reqs + [Request(op, [Frame(n, Queued)], [])];
      EnqueueFrame(f);
    }

    /** A method reply or a signal resumes a suspended frame. */
    method OnReply(t: Topology, f: Ref, a: Answer)
      requires Closed(t) && Inv(t, Model()) && stack == []
      requires Valid(Model(), f) && Suspended(At(Model(), f).phase)
      modifies this`reqs, this`stack, this`live, this`log
      ensures Model() == HandleReply(t, old(Model()), f, a) && Inv(t, Model())
    {
      HandleReplyInv(t, Model(), f, a);
      hide Inv;
      var Frame(n, p) := reqs[f.req].frames[f.depth];
      if a.Refused? {
        CompleteWithError(f, a.completion);
      } else if p.Setup? && n in t && p.stage + 1 < Stages(t[n]) {
        MoveTo(f, Setup(p.stage + 1));
      } else if p == Stopping(0) {
        log := log.(reaped := log.reaped + multiset{n});
        live := live - {n};
        MoveTo(f, Stopping(1));
      } else if p == Stopping(1) {
        MoveTo(f, Stopping(2));
      } else {
        CompleteWithUnit(f);
      }
    }

    /**
      What dropping a token sets off: frames run until the call stack is empty, and it does get empty.
      The result is that of the cascade with the outcomes that the system had in store.
     */
    method Drain(t: Topology, ghost rank: Rank, oracle: nat -> SpawnOutcome) returns (ghost len: nat)
      requires Closed(t) && Ranked(t, rank) && Inv(t, Model())
      modifies this
      ensures Cascaded(t, old(Model()), Outcomes(oracle, len)) == Some(Model())
      ensures stack == [] && Inv(t, Model())
      ensures old(live) <= live
    {
      var i := 0;
      CascadedNone(t, Model(), oracle);
      while stack != []
        invariant Inv(t, Model())
        invariant old(live) <= live
        invariant Cascaded(t, old(Model()), Outcomes(oracle, i)) == Some(Model())
        decreases TotalWeight(rank, reqs)
      {
        hide Inv, RunTop, Cascaded, Outcomes, TotalWeight;
        RunTopWeight(t, rank, Model(), oracle(i));
        RunTopDoes(t, Model(), oracle(i));
        CascadedLast(t, old(Model()), oracle, i);
        RunFrame(t, oracle(i));
        i := i + 1;
      }
      len := i;
    }
  }
}
