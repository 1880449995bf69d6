/**
  The Starts that a cascade on a live entity lets finish do so successfully.
 */
module CascadeDone {
  import opened Uplinks
  import opened Lifecycle
  import opened LifecycleInvariant
  import opened LifecycleSteps
  import opened Cascade
  import opened CascadeOrder
  import opened LifecycleOutcome

  /** A Start of `n` that waits or has been handed the token, or that has succeeded. */
  ghost predicate Fine(s: State, r: nat, n: Name)
  {
    && r < |s.reqs| && s.reqs[r].op == Start && s.reqs[r].frames != [] && s.reqs[r].frames[0].name == n
    && (s.reqs[r].completions == [] ==> s.reqs[r].frames[0].phase == Queued || s.reqs[r].frames[0].phase == Granted)
    && (s.reqs[r].completions != [] ==>
          s.reqs[r].completions == [Done] && !Alive(s.reqs[r].frames[0].phase))
  }

  lemma {:induction false} OthersFine(s: State, s': State, q: nat, r: nat, n: Name)
    requires OthersKept(s, s', q) && Fine(s, r, n) && r != q
    ensures Fine(s', r, n)
  {
    assert RequestKept(s.reqs[r], s'.reqs[r]);
  }

  /** In the request of a fine Start, only its own frame can be about to run; otherwise frames are destroyed. */
  lemma {:induction false} FineTop(t: Topology, s: State, f: Ref, n: Name)
    requires ChainInv(t, s) && Valid(s, f) && Active(At(s, f).phase) && Fine(s, f.req, n)
    ensures At(s, f).phase == Leaving || (At(s, f).phase == Granted && f.depth == 0 && s.reqs[f.req].completions == [])
  {
    assert RequestInv(t, s.reqs[f.req]);
  }

  lemma {:induction false} FineNext(t: Topology, s: State, o: SpawnOutcome, r: nat, n: Name)
    requires Inv(t, s) && s.stack != [] && n in s.live && Fine(s, r, n)
    ensures CanRun(s) && Fine(RunTop(t, s, o), r, n)
  {
    hide RunTop, CanRun, Fine;
    RunTopOthers(t, s, o);
    if s.stack[0].req == r {
      FineOwn(t, s, o, n);
    } else {
      hide Inv;
      OthersFine(s, RunTop(t, s, o), s.stack[0].req, r, n);
    }
  }

  lemma {:induction false} FineOwn(t: Topology, s: State, o: SpawnOutcome, n: Name)
    requires Inv(t, s) && s.stack != [] && n in s.live && Fine(s, s.stack[0].req, n)
    ensures CanRun(s) && Fine(RunTop(t, s, o), s.stack[0].req, n)
  {
    Pop(t, s);
    var f := s.stack[0];
    var s1 := s.(stack := s.stack[1..]);
    FineTop(t, s, f, n);
    if At(s, f).phase == Leaving {
      hide RunTop, CanRun;
      RunTopDestroys(t, s, o);
    } else {
      GrantedIsLast(t, s1, f);
      hide Inv, Running, Body;
      FineBody(t, s1, f, o, n);
    }
  }

  lemma {:induction false} FineBody(t: Topology, s: State, f: Ref, o: SpawnOutcome, n: Name)
    requires Valid(s, f) && f.depth == 0 && |s.reqs[f.req].frames| == 1 && At(s, f).phase == Granted
    requires Fine(s, f.req, n) && s.reqs[f.req].completions == [] && n in s.live
    ensures Fine(Body(t, s, f, o), f.req, n)
  {
  }

  lemma {:induction false} CascadeFine(t: Topology, s: State, os: seq<SpawnOutcome>, r: nat, n: Name)
    requires Closed(t) && Inv(t, s) && LiveQueue(t, s, n) && Cascaded(t, s, os).Some? && Fine(s, r, n)
    ensures Fine(Cascaded(t, s, os).value, r, n)
    decreases |os|
  {
    if os != [] {
      RunTopInv(t, s, os[0]);
      LiveQueueNext(t, s, os[0], n);
      FineNext(t, s, os[0], r, n);
      hide Inv, LiveQueue, Fine, RunTop, CanRun;
      CascadeFine(t, RunTop(t, s, os[0]), os[1..], r, n);
    }
  }

  lemma {:induction false} QueuedFine(t: Topology, s: State, n: Name, w: Ref)
    requires Inv(t, s) && w in QueueOf(s, n).waiting && w.depth == 0
    ensures Valid(s, w) && (s.reqs[w.req].op == Start ==> Fine(s, w.req, n))
  {
    assert NameOk(s, n);
    assert RequestInv(t, s.reqs[w.req]);
    hide Inv;
  }

  /**
    A frame drops its token of the live entity `n`: once the cascade has ended, every request to start
    `n` that waited in front of the first Stop has completed once, successfully.
   */
  lemma {:induction false} LiveQueueSucceeds(t: Topology, es: seq<Event>, os: seq<SpawnOutcome>, n: Name, k: nat, i: nat)
    requires Closed(t) && After(t, es).Some?
    requires var s := After(t, es).value;
             && s.stack != [] && Valid(s, s.stack[0]) && At(s, s.stack[0]) == Frame(n, Leaving)
             && n in s.live && StartsInFront(s, n, k)
             && Cascaded(t, s, os).Some? && Cascaded(t, s, os).value.stack == []
    requires i < k && QueueOf(After(t, es).value, n).waiting[i].depth == 0
    ensures var r := QueueOf(After(t, es).value, n).waiting[i].req;
            var s' := Cascaded(t, After(t, es).value, os).value;
            r < |s'.reqs| && s'.reqs[r].completions == [Done]
  {
    var s := After(t, es).value;
    var w := QueueOf(s, n).waiting[i];
    LiveQueueDrains(t, es, os, n, k);
    RunInv(t, es);
    RunGrantsPast(t, es, n);
    LeavingOwner(t, s, n);
    QueuedFine(t, s, n, w);
    assert Valid(s, w) && s.reqs[w.req].op == Start;
    hide Inv, After, Cascaded, NoSetup, GrantsPast, StartsInFront;
    CascadeFine(t, s, os, w.req, n);
  }

  /**
    A frame drops its token of the live entity `n`, and every uplink chain ends.  Whatever the system
    calls return, the cascade comes to an end; then no process has been forked for `n`, every Start
    queued in front of the first Stop has been granted the token, in arrival order, and is gone, and
    the requests among them have completed once, successfully.
   */
  lemma {:induction false} LiveQueueFinishes(
      t: Topology, es: seq<Event>, oracle: nat -> SpawnOutcome, n: Name, k: nat)
      returns (len: nat)
    requires Closed(t) && AllChainsEnd(t) && After(t, es).Some?
    requires var s := After(t, es).value;
             && s.stack != [] && Valid(s, s.stack[0]) && At(s, s.stack[0]) == Frame(n, Leaving)
             && n in s.live && StartsInFront(s, n, k)
    ensures var s := After(t, es).value;
            var end := Cascaded(t, s, Outcomes(oracle, len));
            var w := QueueOf(s, n).waiting;
            && end.Some? && end.value.stack == []
            && n in end.value.live && end.value.log.spawned[n] == s.log.spawned[n]
            && GrantedTo(s, n) + w[..k] <= GrantedTo(end.value, n)
            && (forall i | 0 <= i < k :: Valid(end.value, w[i]) && At(end.value, w[i]).phase == Gone)
            && (forall i | 0 <= i < k && w[i].depth == 0 :: end.value.reqs[w[i].req].completions == [Done])
  {
    var s := After(t, es).value;
    RunInv(t, es);
    RankedIffAllChainsEnd(t);
    hide Inv, After, Cascaded;
    len := CascadeFinishes(t, RankOf(t), s, oracle);
    var os := Outcomes(oracle, len);
    LiveQueueDrains(t, es, os, n, k);
    var w := QueueOf(s, n).waiting;
    forall i | 0 <= i < k && w[i].depth == 0 ensures Cascaded(t, s, os).value.reqs[w[i].req].completions == [Done] {
      LiveQueueSucceeds(t, es, os, n, k, i);
    }
  }
}
