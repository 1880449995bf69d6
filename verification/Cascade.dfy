/**
  Dropping a token resumes waiters, which may drop or queue for other tokens,
  all on the same call stack.  With ending uplink chains such a cascade ends.
 */
module Cascade {
  import opened Uplinks
  import opened Lifecycle
  import opened LifecycleInvariant
  import opened LifecycleSteps

  // ----- A bound on the work left ------------------------------------------

  ghost function NameRank(rank: Rank, n: Name): nat
  {
    if n in rank then rank[n] else 0
  }

  /** How many steps a frame can still cause before it suspends or is gone. */
  ghost function Weight(rank: Rank, f: Frame): nat
  {
    match f.phase
    case Queued => 5 * NameRank(rank, f.name) + 6
    case Granted => 5 * NameRank(rank, f.name) + 5
    case AwaitUplink => 3
    case Resumed => 2
    case Leaving => 1
    case _ => 0
  }

  ghost function FramesWeight(rank: Rank, fs: seq<Frame>): nat
  {
    if fs == [] then 0 else Weight(rank, fs[0]) + FramesWeight(rank, fs[1..])
  }

  ghost function TotalWeight(rank: Rank, rs: seq<Request>): nat
  {
    if rs == [] then 0 else FramesWeight(rank, rs[0].frames) + TotalWeight(rank, rs[1..])
  }

  lemma {:induction false} FramesUpdate(rank: Rank, fs: seq<Frame>, i: nat, f: Frame)
    requires i < |fs|
    ensures FramesWeight(rank, fs[i := f]) + Weight(rank, fs[i]) == FramesWeight(rank, fs) + Weight(rank, f)
    decreases |fs|
  {
    if i == 0 {
      assert fs[i := f][1..] == fs[1..];
    } else {
      FramesUpdate(rank, fs[1..], i - 1, f);
      assert fs[i := f][1..] == fs[1..][i - 1 := f];
    }
  }

  lemma {:induction false} FramesAppend(rank: Rank, fs: seq<Frame>, f: Frame)
    ensures FramesWeight(rank, fs + [f]) == FramesWeight(rank, fs) + Weight(rank, f)
    decreases |fs|
  {
    if fs == [] {
      assert fs + [f] == [f];
    } else {
      FramesAppend(rank, fs[1..], f);
      assert (fs + [f])[1..] == fs[1..] + [f];
    }
  }

  lemma {:induction false} TotalUpdate(rank: Rank, rs: seq<Request>, i: nat, r: Request)
    requires i < |rs|
    ensures TotalWeight(rank, rs[i := r]) + FramesWeight(rank, rs[i].frames)
            == TotalWeight(rank, rs) + FramesWeight(rank, r.frames)
    decreases |rs|
  {
    if i == 0 {
      assert rs[i := r][1..] == rs[1..];
    } else {
      TotalUpdate(rank, rs[1..], i - 1, r);
      assert rs[i := r][1..] == rs[1..][i - 1 := r];
    }
  }

  lemma {:induction false} CondemnWeight(rank: Rank, fs: seq<Frame>, count: nat)
    requires 0 < count <= |fs|
    requires forall i | 0 <= i < count :: Weight(rank, fs[i]) >= 1
    ensures FramesWeight(rank, Condemn(fs, count)) + Weight(rank, fs[count - 1]) <= FramesWeight(rank, fs) + 1
    decreases count
  {
    var c := Condemn(fs, count);
    assert c[1..] == Condemn(fs[1..], count - 1);
    if count == 1 {
      assert c[1..] == fs[1..];
    } else {
      CondemnWeight(rank, fs[1..], count - 1);
    }
  }

  lemma {:induction false} SetPhaseWeight(rank: Rank, s: State, f: Ref, p: Phase)
    requires Valid(s, f)
    ensures TotalWeight(rank, SetPhase(s, f, p).reqs) + Weight(rank, At(s, f))
            == TotalWeight(rank, s.reqs) + Weight(rank, Frame(At(s, f).name, p))
  {
    var r := s.reqs[f.req];
    var fs := r.frames[f.depth := r.frames[f.depth].(phase := p)];
    FramesUpdate(rank, r.frames, f.depth, r.frames[f.depth].(phase := p));
    TotalUpdate(rank, s.reqs, f.req, r.(frames := fs));
  }

  lemma {:induction false} CompleteWeight(rank: Rank, s: State, r: nat, c: Completion)
    requires r < |s.reqs|
    ensures TotalWeight(rank, Complete(s, r, c).reqs) == TotalWeight(rank, s.reqs)
  {
    TotalUpdate(rank, s.reqs, r, s.reqs[r].(completions := s.reqs[r].completions + [c]));
  }

  lemma {:induction false} FailWeight(rank: Rank, s: State, f: Ref, c: Completion)
    requires Valid(s, f) && Weight(rank, At(s, f)) >= 1
    requires forall g: Ref | Valid(s, g) && g.req == f.req && g.depth < f.depth :: At(s, g).phase == AwaitUplink
    ensures TotalWeight(rank, Fail(s, f, c).reqs) + Weight(rank, At(s, f)) <= TotalWeight(rank, s.reqs) + 1
  {
    var r := s.reqs[f.req];
    forall i | 0 <= i < f.depth + 1 ensures Weight(rank, r.frames[i]) >= 1 {
      assert r.frames[i] == At(s, Ref(f.req, i));
    }
    CondemnWeight(rank, r.frames, f.depth + 1);
    TotalUpdate(rank, s.reqs, f.req,
                r.(frames := Condemn(r.frames, f.depth + 1), completions := r.completions + [c]));
  }

  lemma {:induction false} ReturnUnitWeight(rank: Rank, s: State, f: Ref)
    requires Valid(s, f) && At(s, f).phase == Granted
    requires forall g: Ref | Valid(s, g) && Child(g) == f :: At(s, g).phase == AwaitUplink
    ensures TotalWeight(rank, ReturnUnit(s, f).reqs) < TotalWeight(rank, s.reqs)
  {
    var s1 := SetPhase(s, f, Leaving);
    SetPhaseFrames(s, f, Leaving);
    SetPhaseWeight(rank, s, f, Leaving);
    if f.depth == 0 {
      CompleteWeight(rank, s1, f.req, Done);
    } else {
      var parent := Ref(f.req, f.depth - 1);
      assert Child(parent) == f;
      SetPhaseWeight(rank, s1, parent, Resumed);
    }
  }

  lemma {:induction false} SpawnWeight(rank: Rank, s: State, f: Ref, o: SpawnOutcome)
    requires Valid(s, f) && (At(s, f).phase == Granted || At(s, f).phase == Resumed)
    requires forall g: Ref | Valid(s, g) && g.req == f.req && g.depth < f.depth :: At(s, g).phase == AwaitUplink
    ensures TotalWeight(rank, Spawn(s, f, o).reqs) < TotalWeight(rank, s.reqs)
  {
    var n := At(s, f).name;
    var up := s.(log := s.log.(spawned := s.log.spawned + multiset{n}), live := s.live + {n});
    var lost := s.(log := s.log.(spawned := s.log.spawned + multiset{n}, orphaned := s.log.orphaned + multiset{n}));
    SameRequests(s, up);
    SameRequests(s, lost);
    match o {
      case NoProcess(errno) => FailWeight(rank, s, f, Status(errno));
      case NoBus(code) => FailWeight(rank, lost, f, Status(code));
      case LateFailure(code) => FailWeight(rank, up, f, Status(code));
      case Connected => SetPhaseWeight(rank, up, f, Setup(0));
    }
  }

  lemma {:induction false} WithChildWeight(rank: Rank, s: State, f: Ref, u: Name)
    requires Valid(s, f) && At(s, f).phase == Granted
    requires NameRank(rank, u) < NameRank(rank, At(s, f).name)
    ensures TotalWeight(rank, WithChild(s, f, u).reqs) < TotalWeight(rank, s.reqs)
  {
    var s1 := SetPhase(s, f, AwaitUplink);
    SetPhaseWeight(rank, s, f, AwaitUplink);
    var r := s1.reqs[f.req];
    FramesAppend(rank, r.frames, Frame(u, Queued));
    TotalUpdate(rank, s1.reqs, f.req, r.(frames := r.frames + [Frame(u, Queued)]));
  }

  lemma {:induction false} EnqueueWeight(rank: Rank, s: State, f: Ref)
    requires Valid(s, f) && At(s, f).phase == Queued
    ensures TotalWeight(rank, Enqueue(s, f).reqs) <= TotalWeight(rank, s.reqs)
  {
    SetPhaseWeight(rank, s, f, Granted);
    assert Enqueue(s, f).reqs == s.reqs || Enqueue(s, f).reqs == SetPhase(s, f, Granted).reqs;
  }

  lemma {:induction false} StartUplinkWeight(rank: Rank, s: State, f: Ref, u: Name)
    requires Valid(s, f) && f.depth + 1 == |s.reqs[f.req].frames| && At(s, f).phase == Granted
    requires NameRank(rank, u) < NameRank(rank, At(s, f).name)
    ensures TotalWeight(rank, StartUplink(s, f, u).reqs) < TotalWeight(rank, s.reqs)
  {
    WithChildWeight(rank, s, f, u);
    WithChildFrames(s, f, u);
    EnqueueWeight(rank, WithChild(s, f, u), Child(f));
    assert StartUplink(s, f, u) == Enqueue(WithChild(s, f, u), Child(f));
  }

  lemma {:induction false} DestroyWeight(rank: Rank, s: State, f: Ref)
    requires Valid(s, f) && At(s, f).phase == Leaving && NameOk(s, At(s, f).name)
    ensures TotalWeight(rank, Destroy(s, f).reqs) < TotalWeight(rank, s.reqs)
  {
    var s1 := SetPhase(s, f, Gone);
    SetPhaseFrames(s, f, Gone);
    SetPhaseWeight(rank, s, f, Gone);
    var w := QueueOf(s, At(s, f).name).waiting;
    if w != [] {
      SetPhaseWeight(rank, s1, w[0], Granted);
      assert Destroy(s, f).reqs == SetPhase(s1, w[0], Granted).reqs;
    }
  }

  lemma {:induction false} BodyWeight(t: Topology, rank: Rank, s: State, f: Ref, o: SpawnOutcome)
    requires Ranked(t, rank) && ChainInv(t, s) && Valid(s, f)
    requires At(s, f).phase == Granted && f.depth + 1 == |s.reqs[f.req].frames|
    ensures TotalWeight(rank, Body(t, s, f, o).reqs) < TotalWeight(rank, s.reqs)
  {
    ParentAwaits(t, s, f);
    hide ChainInv, SetPhase, Fail, ReturnUnit, StartUplink, Spawn;
    var n := At(s, f).name;
    if s.reqs[f.req].op == Start {
      if n in s.live {
        ReturnUnitWeight(rank, s, f);
      } else if n in t && t[n].uplink.Some? {
        StartUplinkWeight(rank, s, f, t[n].uplink.value);
      } else {
        SpawnWeight(rank, s, f, o);
      }
    } else if n !in s.live {
      FailWeight(rank, s, f, Error);
    } else {
      SetPhaseWeight(rank, s, f, Stopping(0));
    }
  }

  /** Every step on the call stack uses up some of the work left. */
  lemma {:induction false} RunTopWeight(t: Topology, rank: Rank, s: State, o: SpawnOutcome)
    requires Ranked(t, rank) && Inv(t, s) && s.stack != []
    ensures CanRun(s) && TotalWeight(rank, RunTop(t, s, o).reqs) < TotalWeight(rank, s.reqs)
  {
    Pop(t, s);
    var f := s.stack[0];
    var s1 := s.(stack := s.stack[1..]);
    PopBelow(s);
    assert NameOk(s1, At(s1, f).name);
    ParentsOfActive(t, s1, f);
    hide QueueInv, ChainInv, Below, LiveInv, Body, Spawn, Destroy, StackInv;
    match At(s, f).phase {
      case Granted => BodyWeight(t, rank, s1, f, o);
      case Resumed => SpawnWeight(rank, s1, f, o);
      case Leaving => DestroyWeight(rank, s1, f);
    }
  }

  lemma {:induction false} ParentsOfActive(t: Topology, s: State, f: Ref)
    requires ChainInv(t, s) && Valid(s, f)
    ensures Alive(At(s, f).phase) ==>
      forall g: Ref | Valid(s, g) && g.req == f.req && g.depth < f.depth :: At(s, g).phase == AwaitUplink
  {
    if Alive(At(s, f).phase) { ParentAwaits(t, s, f); }
  }

  // ----- Cascades ----------------------------------------------------------

  /** Running the call stack for as many steps as there are outcomes. */
  ghost function Cascaded(t: Topology, s: State, os: seq<SpawnOutcome>): Option<State>
    decreases |os|
  {
    if os == [] then Some(s)
    else if s.stack != [] && CanRun(s) then Cascaded(t, RunTop(t, s, os[0]), os[1..])
    else None
  }

  /** No cascade is longer than the work it starts with. */
  lemma {:induction false} CascadeEnds(t: Topology, rank: Rank, s: State, os: seq<SpawnOutcome>)
    requires Closed(t) && Ranked(t, rank) && Inv(t, s) && Cascaded(t, s, os).Some?
    ensures |os| <= TotalWeight(rank, s.reqs)
    ensures Inv(t, Cascaded(t, s, os).value)
    decreases |os|
  {
    if os != [] {
      RunTopInv(t, s, os[0]);
      RunTopWeight(t, rank, s, os[0]);
      hide Inv;
      CascadeEnds(t, rank, RunTop(t, s, os[0]), os[1..]);
    }
  }

  /** The first outcomes that the system has in store. */
  ghost function Outcomes(oracle: nat -> SpawnOutcome, k: nat): (os: seq<SpawnOutcome>)
    ensures |os| == k && forall i | 0 <= i < k :: os[i] == oracle(i)
  {
    seq(k, (i: nat) => oracle(i))
  }

  lemma {:induction false} CascadedNone(t: Topology, s: State, oracle: nat -> SpawnOutcome)
    ensures Cascaded(t, s, Outcomes(oracle, 0)) == Some(s)
  {
    assert Outcomes(oracle, 0) == [];
  }

  lemma {:induction false} CascadedFirst(t: Topology, s: State, oracle: nat -> SpawnOutcome, k: nat)
    requires s.stack != [] && CanRun(s)
    ensures Cascaded(t, s, Outcomes(oracle, k + 1)) ==
            Cascaded(t, RunTop(t, s, oracle(0)), Outcomes((i: nat) => oracle(i + 1), k))
  {
    hide RunTop, CanRun;
    assert Outcomes(oracle, k + 1)[1..] == Outcomes((i: nat) => oracle(i + 1), k);
  }

  /** Whatever the system calls return, a cascade comes to an end: the call stack gets empty. */
  lemma {:induction false} CascadeFinishes(t: Topology, rank: Rank, s: State, oracle: nat -> SpawnOutcome)
      returns (len: nat)
    requires Closed(t) && Ranked(t, rank) && Inv(t, s)
    ensures Cascaded(t, s, Outcomes(oracle, len)).Some? && Cascaded(t, s, Outcomes(oracle, len)).value.stack == []
    decreases TotalWeight(rank, s.reqs)
  {
    hide Inv, TotalWeight, RunTop, CanRun, Cascaded, Outcomes;
    CascadedNone(t, s, oracle);
    if s.stack == [] {
      len := 0;
    } else {
      var o := oracle(0);
      RunTopInv(t, s, o);
      RunTopWeight(t, rank, s, o);
      var rest := CascadeFinishes(t, rank, RunTop(t, s, o), (i: nat) => oracle(i + 1));
      len := rest + 1;
      CascadedFirst(t, s, oracle, rest);
    }
  }

  /** A cascade goes on where it was. */
  lemma {:induction false} CascadedConcat(t: Topology, s: State, a: seq<SpawnOutcome>, b: seq<SpawnOutcome>)
    ensures Cascaded(t, s, a + b) ==
            match Cascaded(t, s, a) case None => None case Some(s') => Cascaded(t, s', b)
    decreases |a|
  {
    hide RunTop, CanRun;
    if a == [] {
      assert a + b == b;
    } else {
      assert (a + b)[0] == a[0] && (a + b)[1..] == a[1..] + b;
      if s.stack != [] && CanRun(s) { CascadedConcat(t, RunTop(t, s, a[0]), a[1..], b); }
    }
  }

  lemma {:induction false} CascadedLast(t: Topology, s: State, oracle: nat -> SpawnOutcome, k: nat)
    requires Cascaded(t, s, Outcomes(oracle, k)).Some?
    ensures var s' := Cascaded(t, s, Outcomes(oracle, k)).value;
            s'.stack != [] && CanRun(s') ==> Cascaded(t, s, Outcomes(oracle, k + 1)) == Some(RunTop(t, s', oracle(k)))
  {
    var s' := Cascaded(t, s, Outcomes(oracle, k)).value;
    hide RunTop, CanRun;
    assert Outcomes(oracle, k + 1) == Outcomes(oracle, k) + [oracle(k)];
    CascadedConcat(t, s, Outcomes(oracle, k), [oracle(k)]);
    assert [oracle(k)][1..] == [];
    if s'.stack != [] && CanRun(s') { assert Cascaded(t, RunTop(t, s', oracle(k)), []) == Some(RunTop(t, s', oracle(k))); }
  }
}
