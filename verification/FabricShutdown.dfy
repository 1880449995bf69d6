/**
  Shutting down a node that no other started node is below restores exactly the
  tables of the others.
 */
module FabricShutdown {
  import opened Uplinks
  import opened Kernel
  import opened Setup
  import opened Undo
  import opened Fabric
  import opened FabricSetup

  ghost predicate NoneBelow(f: Fabric, rank: Rank, a: Name, order: seq<Name>)
    requires Sound(f, rank)
  {
    forall i | 0 <= i < |order| :: a !in Chain(f, rank, order[i])
  }

  lemma {:induction false} PlanNotBelow(f: Fabric, rank: Rank, a: Name, y: Name)
    requires Sound(f, rank) && y in f.nodes
    ensures a !in Chain(f, rank, y) ==> NotBelow(a, (y, PlanFor(f, rank, y)))
  {
    var c := Chain(f, rank, y);
    ChainLinks(f, rank, y);
    assert UplinkAt(f, c, 0);
    assert c[0] == y && c[1] == f.nodes[y].uplink;
    if a !in c && IsSwitch(f, y) {
      var hops := HopsTo(f, rank, y);
      forall i | 0 <= i < |hops| ensures hops[i].dev.owner != a {
        assert UplinkAt(f, c, i + 1);
        assert hops[i] == HopAt(f, c, i);
        assert hops[i].dev.owner == c[i + 1];
      }
    }
  }

  /** Nodes that are not below `a` can start without it. */
  lemma {:induction false} StartWithout(f: Fabric, rank: Rank, a: Name, on: set<Name>, post: seq<Name>)
    requires Sound(f, rank) && UplinkFirst(f, on + {a}, post) && NoneBelow(f, rank, a, post)
    ensures UplinkFirst(f, on, post)
    decreases |post|
  {
    if post != [] {
      var x := post[0];
      assert a !in Chain(f, rank, x);
      ChainLinks(f, rank, x);
      assert UplinkAt(f, Chain(f, rank, x), 0);
      assert f.nodes[x].uplink == Chain(f, rank, x)[1];
      assert on + {a} + {x} == (on + {x}) + {a};
      hide Chain;
      StartWithout(f, rank, a, on + {x}, post[1..]);
    }
  }

  lemma {:induction false} NodesOf(f: Fabric, on: set<Name>, order: seq<Name>)
    requires UplinkFirst(f, on, order)
    ensures forall i | 0 <= i < |order| :: order[i] in f.nodes && order[i] !in on
    decreases |order|
  {
    if order != [] { NodesOf(f, on + {order[0]}, order[1..]); }
  }

  /**
    Start `pre`, then `a`, then `post`, none of it below `a`; shut `a` down.  Every cleanup succeeds
    and the devices, addresses and routes left are exactly those of the other nodes.
   */
  lemma {:induction false} ShutdownExact(f: Fabric, rank: Rank, pre: seq<Name>, a: Name, post: seq<Name>)
    requires Sound(f, rank) && UplinkFirst(f, {}, pre) && UplinkFirst(f, Named(pre), [a] + post)
    requires NoneBelow(f, rank, a, post)
    ensures a in f.nodes && forall i | 0 <= i < |pre| :: pre[i] in f.nodes
    ensures forall i | 0 <= i < |post| :: post[i] in f.nodes
    ensures var s0 := ExecAll(Setups(Plans(f, rank, pre)), TopOnly(f.top));
            && s0.Some?
            && var own := NetworkActions(a, PlanFor(f, rank, a));
               var s := ExecAll(Does(own) + Setups(Plans(f, rank, post)), s0.value);
            && s.Some? && AllSucceed(s.value, Undos(own))
            && Tables(f, rank, Named(pre) + Named(post), RunUndo(s.value, Undos(own)))
  {
    var on := Named(pre);
    FabricSetUp(f, rank, pre);
    var s0 := ExecAll(Setups(Plans(f, rank, pre)), TopOnly(f.top)).value;
    assert WellFormed(TopOnly(f.top));
    ExecAllWellFormed(Setups(Plans(f, rank, pre)), TopOnly(f.top));
    NodesOf(f, on, [a] + post);
    assert ([a] + post)[0] == a && ([a] + post)[1..] == post;
    assert forall i | 0 <= i < |post| :: post[i] == ([a] + post)[i + 1];
    assert UplinkFirst(f, on + {a}, post);
    assert a !in s0.mounts;
    StartWithout(f, rank, a, on, post);
    ShutdownFrom(f, rank, on, a, post, s0);
  }

  lemma {:induction false} ShutdownFrom(f: Fabric, rank: Rank, on: set<Name>, a: Name, post: seq<Name>, s0: State)
    requires Sound(f, rank) && UpClosed(f, on) && Tables(f, rank, on, s0) && WellFormed(s0) && a !in s0.mounts
    requires a in f.nodes && a !in on && (f.nodes[a].uplink == f.top || f.nodes[a].uplink in on)
    requires UplinkFirst(f, on + {a}, post) && UplinkFirst(f, on, post) && NoneBelow(f, rank, a, post)
    requires forall i | 0 <= i < |post| :: post[i] in f.nodes
    ensures var own := NetworkActions(a, PlanFor(f, rank, a));
            var s := ExecAll(Does(own) + Setups(Plans(f, rank, post)), s0);
            && s.Some? && AllSucceed(s.value, Undos(own))
            && Tables(f, rank, on + Named(post), RunUndo(s.value, Undos(own)))
  {
    var plan, es := PlanFor(f, rank, a), Plans(f, rank, post);
    forall i | 0 <= i < |es| ensures NotBelow(a, es[i]) { PlanNotBelow(f, rank, a, post[i]); }
    hide Tables, Exec, NetworkActions, Does, PlanFor, Sound, UpClosed, Plans, Setups, UplinkFirst, WellFormed, NotBelow;
    NodeSetUp(f, rank, on, a, s0);
    var s1 := ExecAll(Does(NetworkActions(a, plan)), s0).value;
    SetUpFrom(f, rank, on + {a}, post, s1);
    SetUpFrom(f, rank, on, post, s0);
    ExecConcat(Does(NetworkActions(a, plan)), Setups(es), s0);
    UndoIndependence(a, plan, es, s0);
  }
}
