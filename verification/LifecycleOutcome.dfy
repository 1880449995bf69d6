/**
  What a successful reply to a Start or Stop request means.
 */
module LifecycleOutcome {
  import opened Uplinks
  import opened Lifecycle
  import opened LifecycleInvariant
  import opened LifecycleSteps
  import opened LifecycleSafety

  /** A frame stays as it is, or is handed its token. */
  ghost predicate Kept(f: Frame, f': Frame)
  {
    f' == f || (f.phase == Queued && f' == Frame(f.name, Granted))
  }

  ghost predicate RequestKept(r: Request, r': Request)
  {
    r'.op == r.op && r'.completions == r.completions && |r'.frames| == |r.frames|
    && forall i | 0 <= i < |r.frames| :: Kept(r.frames[i], r'.frames[i])
  }

  /** Requests other than `r` are kept. */
  ghost predicate OthersKept(s: State, s': State, r: nat)
  {
    |s'.reqs| == |s.reqs| && forall q | 0 <= q < |s.reqs| && q != r :: RequestKept(s.reqs[q], s'.reqs[q])
  }

  lemma {:induction false} BodyOthers(t: Topology, s: State, f: Ref, o: SpawnOutcome)
    requires Valid(s, f) && f.depth + 1 == |s.reqs[f.req].frames|
    ensures OthersKept(s, Body(t, s, f, o), f.req) && OthersKept(s, Spawn(s, f, o), f.req)
  {
  }

  lemma {:induction false} SpawnOthers(s: State, f: Ref, o: SpawnOutcome)
    requires Valid(s, f)
    ensures OthersKept(s, Spawn(s, f, o), f.req)
  {
  }

  /** The frame at depth `d` is gone; the rest of the request is kept. */
  ghost predicate FrameGone(r: Request, r': Request, d: nat)
    requires d < |r.frames|
  {
    && r'.completions == r.completions && r'.op == r.op && |r'.frames| == |r.frames|
    && r'.frames[d] == Frame(r.frames[d].name, Gone)
    && forall i | 0 <= i < |r.frames| && i != d :: Kept(r.frames[i], r'.frames[i])
  }

  lemma {:induction false} DestroyOthers(s: State, f: Ref)
    requires Valid(s, f) && At(s, f).phase == Leaving && NameOk(s, At(s, f).name)
    ensures OthersKept(s, Destroy(s, f), f.req)
    ensures FrameGone(s.reqs[f.req], Destroy(s, f).reqs[f.req], f.depth)
  {
  }

  lemma {:induction false} RunTopDestroys(t: Topology, s: State, o: SpawnOutcome)
    requires Inv(t, s) && s.stack != [] && Valid(s, s.stack[0]) && At(s, s.stack[0]).phase == Leaving
    ensures CanRun(s) && OthersKept(s, RunTop(t, s, o), s.stack[0].req)
    ensures FrameGone(s.reqs[s.stack[0].req], RunTop(t, s, o).reqs[s.stack[0].req], s.stack[0].depth)
  {
    Pop(t, s);
    var f := s.stack[0];
    var s1 := s.(stack := s.stack[1..]);
    assert NameOk(s1, At(s1, f).name);
    hide Inv, Running, NameOk, Destroy, FrameGone;
    DestroyOthers(s1, f);
  }

  /** The frame on top of the call stack changes its own request; others are at most handed a token. */
  lemma {:induction false} RunTopOthers(t: Topology, s: State, o: SpawnOutcome)
    requires Inv(t, s) && s.stack != []
    ensures CanRun(s) && OthersKept(s, RunTop(t, s, o), s.stack[0].req)
  {
    Pop(t, s);
    var f := s.stack[0];
    var s1 := s.(stack := s.stack[1..]);
    assert NameOk(s1, At(s1, f).name);
    hide Inv, Running, NameOk, Body, Spawn, Destroy;
    match At(s, f).phase {
      case Granted => BodyOthers(t, s1, f, o);
      case Resumed => SpawnOthers(s1, f, o);
      case Leaving => DestroyOthers(s1, f);
    }
  }

  lemma {:induction false} ReplyOthers(t: Topology, s: State, f: Ref, a: Answer)
    requires Valid(s, f)
    ensures OthersKept(s, HandleReply(t, s, f, a), f.req)
  {
  }

  lemma {:induction false} ArriveOthers(s: State, op: Op, n: Name)
    ensures |Arrive(s, op, n).reqs| == |s.reqs| + 1
    ensures forall r | 0 <= r < |s.reqs| :: Arrive(s, op, n).reqs[r] == s.reqs[r]
  {
  }

  /** The request `r` completes with success in this step. */
  ghost predicate Succeeds(s: State, s': State, r: nat)
  {
    r < |s.reqs| && r < |s'.reqs| && s.reqs[r].completions == [] && s'.reqs[r].completions == [Done]
  }

  ghost predicate AsAsked(s: State, s': State, r: nat)
    requires r < |s.reqs|
  {
    s.reqs[r].frames != [] &&
    var n := s.reqs[r].frames[0].name;
    if s.reqs[r].op == Start then n in s'.live else n !in s'.live
  }

  lemma {:induction false} OthersDoNotSucceed(s: State, s': State, q: nat, r: nat)
    requires OthersKept(s, s', q) && Succeeds(s, s', r)
    ensures r == q
  {
  }

  /** Only returning from an outermost frame is a success. */
  lemma {:induction false} FailIsNoSuccess(s: State, s1: State, f: Ref, c: Completion)
    requires Valid(s, f) && s1.reqs == s.reqs && c != Done
    ensures !Succeeds(s, Fail(s1, f, c), f.req)
  {
    var cs := s.reqs[f.req].completions;
    assert (cs + [c])[|cs|] == c;
  }

  lemma {:induction false} OutermostSucceeds(s: State, s1: State, f: Ref, p: Phase)
    requires Valid(s, f) && s1.reqs == s.reqs
    ensures Succeeds(s, ReturnUnit(s1, f), f.req) ==> f.depth == 0
    ensures !Succeeds(s, SetPhase(s1, f, p), f.req)
  {
  }

  lemma {:induction false} SpawnNeverSucceeds(s: State, f: Ref, o: SpawnOutcome)
    requires Valid(s, f)
    ensures !Succeeds(s, Spawn(s, f, o), f.req)
  {
    var n := At(s, f).name;
    var up := s.(log := s.log.(spawned := s.log.spawned + multiset{n}), live := s.live + {n});
    var lost := s.(log := s.log.(spawned := s.log.spawned + multiset{n}, orphaned := s.log.orphaned + multiset{n}));
    hide Fail, SetPhase, Succeeds;
    match o {
      case NoProcess(errno) => FailIsNoSuccess(s, s, f, Status(errno));
      case NoBus(code) => FailIsNoSuccess(s, lost, f, Status(code));
      case LateFailure(code) => FailIsNoSuccess(s, up, f, Status(code));
      case Connected => OutermostSucceeds(s, up, f, Setup(0));
    }
  }

  lemma {:induction false} StartUplinkNeverSucceeds(s: State, f: Ref, u: Name)
    requires Valid(s, f) && f.depth + 1 == |s.reqs[f.req].frames|
    ensures !Succeeds(s, StartUplink(s, f, u), f.req)
  {
  }

  lemma {:induction false} BodySucceeds(t: Topology, s: State, f: Ref, o: SpawnOutcome)
    requires Valid(s, f) && f.depth + 1 == |s.reqs[f.req].frames| && Succeeds(s, Body(t, s, f, o), f.req)
    ensures f.depth == 0 && s.reqs[f.req].op == Start && At(s, f).name in Body(t, s, f, o).live
  {
    var n := At(s, f).name;
    BodyDoes(t, s, f, o);
    hide Fail, SetPhase, ReturnUnit, Spawn, StartUplink, Succeeds, SpawnEffect;
    SpawnNeverSucceeds(s, f, o);
    FailIsNoSuccess(s, s, f, Error);
    OutermostSucceeds(s, s, f, Stopping(0));
    if n in t && t[n].uplink.Some? { StartUplinkNeverSucceeds(s, f, t[n].uplink.value); }
  }

  lemma {:induction false} ReplySucceeds(t: Topology, s: State, f: Ref, a: Answer)
    requires Valid(s, f) && LiveFrame(s.live, At(s, f)) && Suspended(At(s, f).phase)
    requires a.Refused? ==> MayRefuse(At(s, f).phase, a.completion)
    requires (At(s, f).phase.Setup? ==> s.reqs[f.req].op == Start) && (At(s, f).phase.Stopping? ==> s.reqs[f.req].op == Stop)
    requires Succeeds(s, HandleReply(t, s, f, a), f.req)
    ensures f.depth == 0 && AsAsked(s, HandleReply(t, s, f, a), f.req)
  {
    var Frame(n, p) := At(s, f);
    ReplyDoes(t, s, f, a);
    hide Fail, SetPhase, ReturnUnit, Succeeds;
    if a.Refused? {
      FailIsNoSuccess(s, s, f, a.completion);
    } else if p == Stopping(0) {
      OutermostSucceeds(s, ReapAndErase(s, n), f, Stopping(1));
    } else {
      OutermostSucceeds(s, s, f, Stopping(2));
      if p.Setup? { OutermostSucceeds(s, s, f, Setup(p.stage + 1)); }
    }
  }

  lemma {:induction false} RunSucceeds(t: Topology, s: State, o: SpawnOutcome, r: nat)
    requires Inv(t, s) && CanRun(s) && Succeeds(s, RunTop(t, s, o), r)
    ensures AsAsked(s, RunTop(t, s, o), r)
  {
    Pop(t, s);
    var f := s.stack[0];
    var s1, s' := s.(stack := s.stack[1..]), RunTop(t, s, o);
    assert NameOk(s1, At(s1, f).name);
    hide Inv, Running, NameOk;
    match At(s, f).phase {
      case Granted =>
        BodyOthers(t, s1, f, o);
        OthersDoNotSucceed(s1, s', f.req, r);
        hide Body;
        BodySucceeds(t, s1, f, o);
      case Resumed =>
        SpawnOthers(s1, f, o);
        OthersDoNotSucceed(s1, s', f.req, r);
        SpawnNeverSucceeds(s1, f, o);
      case Leaving =>
        DestroyOthers(s1, f);
        OthersDoNotSucceed(s1, s', f.req, r);
    }
  }

  /**
    After any run: when a Start is answered with success its entity is live, and when a Stop is, its
    entity is not.
   */
  lemma {:induction false} SuccessMeans(t: Topology, es: seq<Event>, e: Event, r: nat)
    requires Closed(t) && After(t, es).Some? && Enabled(t, After(t, es).value, e)
    requires Succeeds(After(t, es).value, Next(t, After(t, es).value, e), r)
    ensures AsAsked(After(t, es).value, Next(t, After(t, es).value, e), r)
  {
    var s := After(t, es).value;
    RunInv(t, es);
    match e {
      case StartRequest(n) => ArriveOthers(s, Start, n);
      case StopRequest(n) => ArriveOthers(s, Stop, n);
      case Run(o) =>
        hide RunTop;
        RunSucceeds(t, s, o, r);
      case Reply(f, a) =>
        assert RequestInv(t, s.reqs[f.req]) && LiveFrame(s.live, At(s, f));
        hide Inv, HandleReply;
        ReplyOthers(t, s, f, a);
        OthersDoNotSucceed(s, HandleReply(t, s, f, a), f.req, r);
        ReplySucceeds(t, s, f, a);
    }
  }
}
