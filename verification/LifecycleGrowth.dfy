/**
  Commits add entities while requests are in flight.  As they never alter an
  existing entity, a run over a growing configuration is a run over the last one,
  so every property of runs over one topology covers it.
 */
module LifecycleGrowth {
  import opened Uplinks
  import opened Lifecycle
  import opened LifecycleInvariant
  import opened LifecycleSteps

  ghost predicate Extends(t: Topology, t': Topology)
  {
    forall n | n in t :: n in t' && t'[n] == t[n]
  }

  lemma {:induction false} NextGrows(t: Topology, t': Topology, s: State, e: Event)
    requires Inv(t, s) && Extends(t, t') && Enabled(t, s, e)
    ensures Enabled(t', s, e) && Next(t', s, e) == Next(t, s, e)
  {
    match e {
      case StartRequest(n) =>
      case StopRequest(n) =>
      case Reply(f, a) => GrantedIsLast(t, s, f);
      case Run(o) => GrantedIsLast(t, s, s.stack[0]);
    }
  }

  lemma {:induction false} AfterGrows(t: Topology, t': Topology, es: seq<Event>)
    requires Closed(t) && Extends(t, t') && After(t, es).Some?
    ensures After(t', es) == After(t, es)
    decreases |es|
  {
    if es != [] {
      var last := |es| - 1;
      AfterGrows(t, t', es[..last]);
      RunInv(t, es[..last]);
      hide Inv, Enabled, Next;
      NextGrows(t, t', After(t, es[..last]).value, es[last]);
    }
  }

  /** The state after the events when event `i` happens under configuration `ts[i]`. */
  ghost function GrownAfter(ts: seq<Topology>, es: seq<Event>): Option<State>
    requires |ts| == |es|
    decreases |es|
  {
    if es == [] then Some(Initial)
    else
      var last := |es| - 1;
      match GrownAfter(ts[..last], es[..last])
      case None => None
      case Some(s) => if Enabled(ts[last], s, es[last]) then Some(Next(ts[last], s, es[last])) else None
  }

  ghost predicate Growing(ts: seq<Topology>)
  {
    && (forall i | 0 <= i < |ts| :: Closed(ts[i]))
    && (forall i, j | 0 <= i < j < |ts| :: Extends(ts[i], ts[j]))
  }

  /** A run over a growing configuration is a run over the final one. */
  lemma {:induction false} GrowingRunIsRun(ts: seq<Topology>, es: seq<Event>)
    requires |ts| == |es| > 0 && Growing(ts) && GrownAfter(ts, es).Some?
    ensures After(ts[|ts| - 1], es) == GrownAfter(ts, es)
    decreases |es|
  {
    var last := |es| - 1;
    var t := ts[last];
    assert Growing(ts[..last]) by {
      assert forall i | 0 <= i < last :: ts[..last][i] == ts[i];
    }
    if last > 0 {
      hide Enabled, Next;
      GrowingRunIsRun(ts[..last], es[..last]);
      assert Extends(ts[last - 1], t);
      AfterGrows(ts[last - 1], t, es[..last]);
    }
  }
}
