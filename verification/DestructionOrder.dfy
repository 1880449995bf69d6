/**
  An error completion destroys the frames of its request outermost first, even
  though each destruction may hand a token to another request that then runs.
 */
module DestructionOrder {
  import opened Uplinks
  import opened Lifecycle
  import opened LifecycleInvariant
  import opened LifecycleSteps
  import opened LifecycleSafety
  import opened LifecycleOutcome
  import opened Cascade

  /** The frame that completes with an error in this step, if one does. */
  ghost function Failing(t: Topology, s: State, e: Event): Option<Ref>
    requires Enabled(t, s, e)
  {
    match e
    case StartRequest(_) => None
    case StopRequest(_) => None
    case Reply(f, a) => if a.Refused? then Some(f) else None
    case Run(o) =>
      var f := s.stack[0];
      if Forks(t, s) then (if o.Connected? then None else Some(f))
      else if At(s, f).phase == Granted && s.reqs[f.req].op == Stop && At(s, f).name !in s.live then Some(f)
      else None
  }

  /** Of the frames of `f`'s request down to `f`, the first `j` are gone and the others are still to go. */
  ghost predicate GoneUpTo(s: State, f: Ref, j: nat)
  {
    && Valid(s, f) && j <= f.depth + 1
    && forall i | 0 <= i <= f.depth :: s.reqs[f.req].frames[i].phase == if i < j then Gone else Leaving
  }

  function Between(r: nat, j: nat, k: nat): (q: seq<Ref>)
    requires j <= k
    ensures |q| == k - j && forall i | 0 <= i < |q| :: q[i] == Ref(r, j + i)
  {
    seq(k - j, i requires 0 <= i < k - j => Ref(r, j + i))
  }

  /** The frames still to go are on the call stack in this order, with whatever runs now above them. */
  ghost predicate Going(s: State, f: Ref, j: nat, above: seq<Ref>, below: seq<Ref>)
  {
    GoneUpTo(s, f, j) && s.stack == above + Between(f.req, j, f.depth + 1) + below
  }

  // ----- The stack below the running frame is left alone -------------------

  ghost predicate Pushes(s: State, s': State)
  {
    |s'.stack| >= |s.stack| && s'.stack[|s'.stack| - |s.stack|..] == s.stack
  }

  lemma {:induction false} PushSome(s: State, s': State, pushed: seq<Ref>)
    requires s'.stack == pushed + s.stack
    ensures Pushes(s, s')
  {
  }

  lemma {:induction false} SpawnPushes(s: State, f: Ref, o: SpawnOutcome)
    requires Valid(s, f)
    ensures Pushes(s, Spawn(s, f, o))
  {
    PushSome(s, Spawn(s, f, o), if o.Connected? then [] else Outermost(f.req, f.depth + 1));
  }

  lemma {:induction false} BodyPushes(t: Topology, s: State, f: Ref, o: SpawnOutcome)
    requires Valid(s, f) && f.depth + 1 == |s.reqs[f.req].frames|
    ensures Pushes(s, Body(t, s, f, o))
  {
    var n := At(s, f).name;
    if s.reqs[f.req].op == Start {
      if n in s.live {
        PushSome(s, ReturnUnit(s, f), if f.depth == 0 then [f] else [Ref(f.req, f.depth - 1), f]);
      } else if n in t && t[n].uplink.Some? {
        var u := t[n].uplink.value;
        PushSome(s, StartUplink(s, f, u), if QueueOf(s, u).held then [] else [Child(f)]);
      } else {
        SpawnPushes(s, f, o);
      }
    } else {
      PushSome(s, Fail(s, f, Error), Outermost(f.req, f.depth + 1));
    }
  }

  lemma {:induction false} DestroyPushes(s: State, f: Ref)
    requires Valid(s, f) && NameOk(s, At(s, f).name)
    ensures Pushes(s, Destroy(s, f))
  {
    DestroyStackIs(s, f);
  }

  lemma {:induction false} RunTopPushes(t: Topology, s: State, o: SpawnOutcome)
    requires Inv(t, s) && s.stack != []
    ensures CanRun(s) && Pushes(s.(stack := s.stack[1..]), RunTop(t, s, o))
  {
    Pop(t, s);
    var f := s.stack[0];
    var s1 := s.(stack := s.stack[1..]);
    assert NameOk(s1, At(s1, f).name);
    hide Inv, Running, NameOk, Pushes, Body, Spawn, Destroy;
    match At(s, f).phase {
      case Granted => BodyPushes(t, s1, f, o);
      case Resumed => SpawnPushes(s1, f, o);
      case Leaving => DestroyPushes(s1, f);
    }
  }

  // ----- The frames that go ------------------------------------------------

  /** While another frame runs, the frames that are to go stay as they are. */
  lemma {:induction false} OthersLeaveChain(t: Topology, s: State, o: SpawnOutcome, f: Ref, j: nat)
    requires Inv(t, s) && s.stack != [] && GoneUpTo(s, f, j)
    requires !(s.stack[0].req == f.req && s.stack[0].depth <= f.depth)
    ensures CanRun(s) && GoneUpTo(RunTop(t, s, o), f, j)
  {
    hide RunTop, CanRun, GoneUpTo, RequestInv;
    RunTopOthers(t, s, o);
    if s.stack[0].req == f.req {
      SameRequestLeavesChain(t, s, o, f, j);
    } else {
      hide Inv;
      KeptChain(s, RunTop(t, s, o), s.stack[0].req, f, j);
    }
  }

  /** A deeper frame of the same request has nothing left to do but to go. */
  lemma {:induction false} SameRequestLeavesChain(t: Topology, s: State, o: SpawnOutcome, f: Ref, j: nat)
    requires Inv(t, s) && s.stack != [] && GoneUpTo(s, f, j) && s.stack[0].req == f.req && s.stack[0].depth > f.depth
    ensures CanRun(s) && GoneUpTo(RunTop(t, s, o), f, j)
  {
    assert Valid(s, s.stack[0]) && Active(At(s, s.stack[0]).phase);
    DeeperLeaves(t, s, f, j, s.stack[0]);
    hide Inv, RunTop, CanRun;
    RunTopDestroys(t, s, o);
  }

  lemma {:induction false} DeeperLeaves(t: Topology, s: State, f: Ref, j: nat, g: Ref)
    requires Inv(t, s) && GoneUpTo(s, f, j) && Valid(s, g) && g.req == f.req && g.depth > f.depth && Active(At(s, g).phase)
    ensures At(s, g).phase == Leaving
  {
    assert RequestInv(t, s.reqs[f.req]);
    hide Inv;
    assert s.reqs[f.req].frames[0].phase != AwaitUplink;
  }

  lemma {:induction false} KeptChain(s: State, s': State, r: nat, f: Ref, j: nat)
    requires OthersKept(s, s', r) && GoneUpTo(s, f, j) && f.req != r
    ensures GoneUpTo(s', f, j)
  {
    assert RequestKept(s.reqs[f.req], s'.reqs[f.req]);
  }

  /** When the next of them is on top, it alone goes. */
  lemma {:induction false} NextGoes(t: Topology, s: State, o: SpawnOutcome, f: Ref, j: nat)
    requires Inv(t, s) && s.stack != [] && GoneUpTo(s, f, j) && j <= f.depth && s.stack[0] == Ref(f.req, j)
    ensures CanRun(s) && GoneUpTo(RunTop(t, s, o), f, j + 1)
  {
    hide Inv, RunTop, CanRun;
    RunTopDestroys(t, s, o);
  }

  lemma {:induction false} StackOnce(t: Topology, s: State, f: Ref, j: nat, above: seq<Ref>, below: seq<Ref>)
    requires Inv(t, s) && Going(s, f, j, above, below) && s.stack != [] && (above != [] || j == f.depth + 1)
    ensures !(s.stack[0].req == f.req && s.stack[0].depth <= f.depth)
  {
    assert Distinct(s.stack) && Valid(s, s.stack[0]) && Active(At(s, s.stack[0]).phase);
    hide Inv;
    forall i | j <= i <= f.depth ensures s.stack[0] != Ref(f.req, i) {
      assert s.stack[|above| + (i - j)] == Between(f.req, j, f.depth + 1)[i - j];
    }
  }

  lemma {:induction false} StackSplit(t: Topology, s: State, o: SpawnOutcome) returns (pushed: seq<Ref>)
    requires Inv(t, s) && s.stack != []
    ensures CanRun(s) && RunTop(t, s, o).stack == pushed + s.stack[1..]
  {
    hide Inv, RunTop, CanRun;
    RunTopPushes(t, s, o);
    pushed := RunTop(t, s, o).stack[..|RunTop(t, s, o).stack| - |s.stack[1..]|];
  }

  /** One step of the cascade: nothing or exactly the next frame goes. */
  lemma {:induction false} GoingNext(
      t: Topology, s: State, o: SpawnOutcome, f: Ref, j: nat, above: seq<Ref>, below: seq<Ref>)
      returns (j': nat, above': seq<Ref>, below': seq<Ref>)
    requires Inv(t, s) && s.stack != [] && Going(s, f, j, above, below)
    ensures CanRun(s) && j <= j' <= j + 1 && Going(RunTop(t, s, o), f, j', above', below')
  {
    hide Inv, RunTop, CanRun;
    var pushed := StackSplit(t, s, o);
    var chain := Between(f.req, j, f.depth + 1);
    if above != [] || j == f.depth + 1 {
      StackOnce(t, s, f, j, above, below);
      OthersLeaveChain(t, s, o, f, j);
      hide GoneUpTo;
      j' := j;
      if above != [] {
        above', below' := pushed + above[1..], below;
        Above(pushed, above, chain, below);
      } else {
        above', below' := pushed, below[1..];
        assert chain == [] && s.stack == below;
        assert pushed + below[1..] == pushed + [] + below[1..];
      }
    } else {
      assert s.stack == chain + below && s.stack[0] == chain[0];
      NextGoes(t, s, o, f, j);
      hide GoneUpTo;
      j', above', below' := j + 1, pushed, below;
      assert chain[1..] == Between(f.req, j + 1, f.depth + 1);
      assert (chain + below)[1..] == chain[1..] + below;
      assert pushed + (chain[1..] + below) == pushed + chain[1..] + below;
    }
  }

  lemma {:induction false} Above(pushed: seq<Ref>, above: seq<Ref>, chain: seq<Ref>, below: seq<Ref>)
    requires above != []
    ensures pushed + (above + chain + below)[1..] == (pushed + above[1..]) + chain + below
  {
  }

  // ----- The step that fails -----------------------------------------------

  lemma {:induction false} FailGoes(s: State, f: Ref, c: Completion)
    requires Valid(s, f)
    ensures Going(Fail(s, f, c), f, 0, [], s.stack)
  {
    assert Outermost(f.req, f.depth + 1) == Between(f.req, 0, f.depth + 1);
    assert [] + Between(f.req, 0, f.depth + 1) == Between(f.req, 0, f.depth + 1);
  }

  lemma {:induction false} SpawnGoes(s: State, f: Ref, o: SpawnOutcome)
    requires Valid(s, f) && !o.Connected?
    ensures Going(Spawn(s, f, o), f, 0, [], s.stack)
  {
    var n := At(s, f).name;
    var up := s.(log := s.log.(spawned := s.log.spawned + multiset{n}), live := s.live + {n});
    var lost := s.(log := s.log.(spawned := s.log.spawned + multiset{n}, orphaned := s.log.orphaned + multiset{n}));
    hide Fail, Going;
    match o {
      case NoProcess(errno) => FailGoes(s, f, Status(errno));
      case NoBus(code) => FailGoes(lost, f, Status(code));
      case LateFailure(code) => FailGoes(up, f, Status(code));
    }
  }

  lemma {:induction false} FailingGoes(t: Topology, s: State, e: Event, f: Ref) returns (below: seq<Ref>)
    requires Enabled(t, s, e) && Failing(t, s, e) == Some(f)
    ensures Going(Next(t, s, e), f, 0, [], below)
  {
    match e {
      case Reply(_, a) =>
        below := s.stack;
        FailGoes(s, f, a.completion);
      case Run(o) =>
        var s1 := s.(stack := s.stack[1..]);
        below := s1.stack;
        hide Going;
        if Forks(t, s) { SpawnGoes(s1, f, o); } else { FailGoes(s1, f, Error); }
    }
  }

  // ----- Whole cascades ----------------------------------------------------

  /** How many frames are gone after each step: one more or as many, from `from` on. */
  ghost predicate OneByOne(js: seq<nat>, from: nat)
  {
    js != [] && js[0] == from && forall k | 0 < k < |js| :: js[k - 1] <= js[k] <= js[k - 1] + 1
  }

  ghost predicate GoneAlong(t: Topology, s: State, os: seq<SpawnOutcome>, f: Ref, js: seq<nat>)
  {
    |js| == |os| + 1 && forall k | 0 <= k <= |os| :: GoneAfter(t, s, os[..k], f, js[k])
  }

  ghost predicate GoneAfter(t: Topology, s: State, os: seq<SpawnOutcome>, f: Ref, j: nat)
  {
    Cascaded(t, s, os).Some? && GoneUpTo(Cascaded(t, s, os).value, f, j)
  }

  lemma {:induction false} Follow(
      t: Topology, s: State, os: seq<SpawnOutcome>, f: Ref, j: nat, above: seq<Ref>, below: seq<Ref>)
      returns (js: seq<nat>)
    requires Closed(t) && Inv(t, s) && Going(s, f, j, above, below) && Cascaded(t, s, os).Some?
    ensures OneByOne(js, j) && GoneAlong(t, s, os, f, js) && Inv(t, Cascaded(t, s, os).value)
    decreases |os|
  {
    hide Inv, RunTop, GoneUpTo, CanRun, Between, GoneAlong, OneByOne;
    if os == [] {
      js := [j];
      NothingYet(t, s, f, j);
    } else {
      var j', above', below' := GoingNext(t, s, os[0], f, j, above, below);
      RunTopInv(t, s, os[0]);
      var rest := Follow(t, RunTop(t, s, os[0]), os[1..], f, j', above', below');
      js := [j] + rest;
      GoneBefore(t, s, os, f, j, rest);
      OneMore(j, j', rest);
    }
  }

  lemma {:induction false} NothingYet(t: Topology, s: State, f: Ref, j: nat)
    requires GoneUpTo(s, f, j)
    ensures OneByOne([j], j) && GoneAlong(t, s, [], f, [j])
  {
    hide GoneUpTo;
    assert GoneAfter(t, s, [], f, j);
  }

  lemma {:induction false} OneMore(j: nat, j': nat, js: seq<nat>)
    requires OneByOne(js, j') && j <= j' <= j + 1
    ensures OneByOne([j] + js, j)
  {
    assert forall k | 0 < k < |[j] + js| :: ([j] + js)[k] == js[k - 1];
  }

  lemma {:induction false} GoneBefore(t: Topology, s: State, os: seq<SpawnOutcome>, f: Ref, j: nat, js: seq<nat>)
    requires os != [] && s.stack != [] && CanRun(s) && GoneUpTo(s, f, j) && GoneAlong(t, RunTop(t, s, os[0]), os[1..], f, js)
    ensures GoneAlong(t, s, os, f, [j] + js)
  {
    hide RunTop, GoneUpTo, CanRun;
    forall k | 0 <= k <= |os| ensures GoneAfter(t, s, os[..k], f, ([j] + js)[k]) {
      if k == 0 {
        assert os[..0] == [];
      } else {
        assert os[..k][0] == os[0] && os[..k][1..] == os[1..][..k - 1];
        assert GoneAfter(t, RunTop(t, s, os[0]), os[1..][..k - 1], f, js[k - 1]);
      }
    }
  }

  lemma {:induction false} IdleAllGone(t: Topology, s: State, f: Ref, j: nat)
    requires Inv(t, s) && GoneUpTo(s, f, j) && s.stack == []
    ensures j == f.depth + 1
  {
    var g := Ref(f.req, j);
    assert Valid(s, g) ==> !Active(At(s, g).phase);
  }

  /**
    After any run, a frame `f` completes with an error.  The request has completed once, and along
    every cascade that follows, whatever the resumed requests do, the frames from the outermost one
    down to `f` go one by one, outermost first, each once; when the call stack is empty all are gone.
   */
  lemma {:induction false} ErrorDestroysOutermostFirst(
      t: Topology, es: seq<Event>, e: Event, os: seq<SpawnOutcome>, f: Ref)
      returns (js: seq<nat>)
    requires Closed(t) && After(t, es).Some? && Enabled(t, After(t, es).value, e)
    requires Failing(t, After(t, es).value, e) == Some(f)
    requires Cascaded(t, Next(t, After(t, es).value, e), os).Some?
    ensures var s := Next(t, After(t, es).value, e);
            && Valid(s, f) && |s.reqs[f.req].completions| == 1
            && OneByOne(js, 0) && GoneAlong(t, s, os, f, js)
            && (Cascaded(t, s, os).value.stack == [] ==> js[|os|] == f.depth + 1)
  {
    var s0 := After(t, es).value;
    RunInv(t, es);
    NextInv(t, s0, e);
    var s := Next(t, s0, e);
    var below := FailingGoes(t, s0, e, f);
    assert RequestInv(t, s.reqs[f.req]);
    hide Inv, Next, Enabled, After;
    js := Follow(t, s, os, f, 0, [], below);
    assert os[..|os|] == os;
    if Cascaded(t, s, os).value.stack == [] { IdleAllGone(t, Cascaded(t, s, os).value, f, js[|os|]); }
  }

  /**
    What a request that fails is answered with: the answer of the environment, an error for a Stop of
    an entity that is not live, or the code of the system call that failed.
   */
  lemma {:induction false} FailureAnswer(t: Topology, es: seq<Event>, e: Event, f: Ref)
    requires Closed(t) && After(t, es).Some? && Enabled(t, After(t, es).value, e)
    requires Failing(t, After(t, es).value, e) == Some(f)
    ensures var s := After(t, es).value;
            var r := Next(t, s, e).reqs[f.req];
            match e
            case Reply(_, a) => a.Refused? && r.completions == [a.completion]
            case Run(NoProcess(errno)) =>
              r.completions == (if s.reqs[f.req].op == Start then [Status(errno)] else [Error])
            case Run(NoBus(code)) =>
              r.completions == (if s.reqs[f.req].op == Start then [Status(code)] else [Error])
            case Run(LateFailure(code)) =>
              r.completions == (if s.reqs[f.req].op == Start then [Status(code)] else [Error])
            case Run(Connected) => s.reqs[f.req].op == Stop && At(s, f).name !in s.live && r.completions == [Error]
            case _ => false
  {
    var s := After(t, es).value;
    RunInv(t, es);
    NotYetCompleted(t, s, e, f);
    GrantedIsLast(t, s, f);
    hide Inv, After;
    match e {
      case Reply(_, a) => FailAnswers(s, f, a.completion);
      case Run(o) =>
        var s1 := s.(stack := s.stack[1..]);
        if Forks(t, s) { SpawnFails(s1, f, o); } else { FailAnswers(s1, f, Error); }
        hide Fail, Spawn;
    }
  }

  lemma {:induction false} FailAnswers(s: State, f: Ref, c: Completion)
    requires Valid(s, f)
    ensures Fail(s, f, c).reqs[f.req].completions == s.reqs[f.req].completions + [c]
  {
  }

  lemma {:induction false} NotYetCompleted(t: Topology, s: State, e: Event, f: Ref)
    requires Inv(t, s) && Enabled(t, s, e) && Failing(t, s, e) == Some(f)
    ensures Valid(s, f) && s.reqs[f.req].completions == []
  {
    assert RequestInv(t, s.reqs[f.req]);
    OnlyOne(s.reqs[f.req].op, s.reqs[f.req].frames, f.depth);
    hide Inv;
  }
}
