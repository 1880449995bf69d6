/**
  Committing transactions: the operations of a transaction are applied to a copy
  of the running configuration, which replaces it only if all of them succeed.
 */
module Commits {
  import opened Uplinks
  import opened JsonTree
  import opened ConfigModel
  import opened ConfigInvariant
  import opened ConfigAdd
  import opened LifecycleGrowth

  const EACCES := 13
  const ENOSYS := 38

  datatype Operation =
    | AddEntity(name: string, parameters: seq<Parameter>)
    | SetParameters(name: string, modification: seq<Parameter>)
    | DeleteEntity(name: string)

  datatype Applied = Committed(tree: Tree) | Failed(errno: int) | Crashed

  /** The visitor of `transactions::commit`. */
  function ApplyOne(order: Order, parse: Parser, tree: Tree, op: Operation): Applied
  {
    match op
    case AddEntity(name, ps) =>
      if name in tree then Failed(EEXIST)
      else
        var r := Add(order, parse, true, tree, name, ps);
        (match r.outcome
         case Added => Committed(r.tree)
         case Refused(errno) => Failed(errno)
         case Terminated => Crashed)
    case _ => Failed(ENOSYS)
  }

  function ApplyAll(order: Order, parse: Parser, tree: Tree, ops: seq<Operation>): Applied
    decreases |ops|
  {
    if ops == [] then Committed(tree)
    else
      match ApplyOne(order, parse, tree, ops[0])
      case Committed(tree') => ApplyAll(order, parse, tree', ops[1..])
      case other => other
  }

  lemma {:induction false} ApplyConcat(order: Order, parse: Parser, tree: Tree, a: seq<Operation>, b: seq<Operation>)
    ensures ApplyAll(order, parse, tree, a + b) ==
      match ApplyAll(order, parse, tree, a)
      case Committed(tree') => ApplyAll(order, parse, tree', b)
      case other => other
    decreases |a|
  {
    if a == [] {
      assert a + b == b;
    } else {
      assert (a + b)[0] == a[0] && (a + b)[1..] == a[1..] + b;
      match ApplyOne(order, parse, tree, a[0]) {
        case Committed(tree1) => ApplyConcat(order, parse, tree1, a[1..], b);
        case _ =>
      }
    }
  }

  // ----- What a commit keeps -----------------------------------------------

  /** Existing entries stay as they are; an empty default entry may be claimed. */
  ghost predicate Unaltered(tree: Tree, tree': Tree)
  {
    && tree.Keys <= tree'.Keys
    && (forall n | n in tree && n != DEFAULT_NETNS :: tree'[n] == tree[n])
    && (DEFAULT_NETNS in tree && !tree[DEFAULT_NETNS].Null? ==> tree'[DEFAULT_NETNS] == tree[DEFAULT_NETNS])
    && (DEFAULT_NETNS in tree && tree[DEFAULT_NETNS].Null? ==>
          tree'[DEFAULT_NETNS].Null? || tree'[DEFAULT_NETNS].Str?)
  }

  lemma {:induction false} UnalteredTrans(a: Tree, b: Tree, c: Tree)
    requires Unaltered(a, b) && Unaltered(b, c)
    ensures Unaltered(a, c)
  {
  }

  lemma {:induction false} GrownUnaltered(tree: Tree, name: string, e: Json)
    requires name !in tree && Admissible(tree, name, e)
    ensures Unaltered(tree, Grown(tree, name, e))
  {
    if ClaimsDefault(e) {
      assert KeyAdmissible(tree[name := CodedEntity(e)], name, "default");
    }
  }

  lemma {:induction false} ApplyOneKeeps(order: Order, parse: Parser, tree: Tree, op: Operation)
    requires IsOrder(order) && Good(tree) && ApplyOne(order, parse, tree, op).Committed?
    ensures var tree' := ApplyOne(order, parse, tree, op).tree; Good(tree') && Unaltered(tree, tree')
  {
    AddExact(order, parse, tree, op.name, op.parameters);
    AddGood(order, parse, tree, op.name, op.parameters);
    GrownUnaltered(tree, op.name, Built(parse, op.parameters).tree);
  }

  /** A commit keeps the configuration good and alters no existing entity. */
  lemma {:induction false} CommitKeeps(order: Order, parse: Parser, tree: Tree, ops: seq<Operation>)
    requires IsOrder(order) && Good(tree) && ApplyAll(order, parse, tree, ops).Committed?
    ensures var tree' := ApplyAll(order, parse, tree, ops).tree; Good(tree') && Unaltered(tree, tree')
    decreases |ops|
  {
    if ops != [] {
      ApplyOneKeeps(order, parse, tree, ops[0]);
      var tree1 := ApplyOne(order, parse, tree, ops[0]).tree;
      hide ApplyOne, Good, IsOrder;
      CommitKeeps(order, parse, tree1, ops[1..]);
      UnalteredTrans(tree, tree1, ApplyAll(order, parse, tree, ops).tree);
    }
  }

  // ----- The topology of a configuration -----------------------------------

  function UplinkOf(e: Json): Option<Name>
  {
    if "uplink" in NetOf(e) && NetOf(e)["uplink"].Str? then Some(NetOf(e)["uplink"].s) else None
  }

  function ComponentCount(e: Json): nat
  {
    if e.Obj? then |e.fields| else 0
  }

  /** The configuration as the lifecycle sees it. */
  function TopologyOf(tree: Tree): Topology
  {
    map n | n in tree :: Entity(UplinkOf(tree[n]), ComponentCount(tree[n]))
  }

  lemma {:induction false} GoodClosed(tree: Tree)
    requires Good(tree)
    ensures Closed(TopologyOf(tree))
  {
    var t := TopologyOf(tree);
    forall n | n in t && t[n].uplink.Some? ensures t[n].uplink.value in t {
      assert NetOf(tree[n]) == Net(tree, n);
      assert n != METADATA;
      assert EntryOk(tree, n);
      assert KeyOk(tree, n, "uplink");
    }
  }

  lemma {:induction false} UnalteredExtends(tree: Tree, tree': Tree)
    requires Unaltered(tree, tree')
    ensures Extends(TopologyOf(tree), TopologyOf(tree'))
  {
  }

  // ----- Chains over commits -----------------------------------------------

  ghost predicate NamesItself(t: Topology, n: Name)
  {
    n in t && t[n].uplink == Some(n)
  }

  /** The chain from `n` ends, or runs into an entity that names itself as uplink. */
  ghost predicate Settles(t: Topology, n: Name)
  {
    exists k: nat :: Walk(t, n, k).None? || NamesItself(t, Walk(t, n, k).value)
  }

  lemma {:induction false} WalkExtends(t: Topology, t': Topology, n: Name, k: nat)
    requires Closed(t) && Extends(t, t') && n in t
    ensures Walk(t', n, k) == Walk(t, n, k)
    decreases k
  {
    if k > 0 && t[n].uplink.Some? {
      WalkExtends(t, t', t[n].uplink.value, k - 1);
    }
  }

  lemma {:induction false} SettlesExtends(t: Topology, t': Topology, n: Name)
    requires Closed(t) && Extends(t, t') && n in t && Settles(t, n)
    ensures Settles(t', n)
  {
    var k: nat :| Walk(t, n, k).None? || NamesItself(t, Walk(t, n, k).value);
    WalkExtends(t, t', n, k);
  }

  /** A new entity whose uplink is an older one, or itself, settles if the older ones do. */
  lemma {:induction false} NewSettles(t: Topology, t': Topology, n: Name)
    requires Closed(t) && Extends(t, t') && n in t'
    requires forall m | m in t :: Settles(t, m)
    requires t'[n].uplink.Some? ==> t'[n].uplink.value in t || t'[n].uplink.value == n
    ensures Settles(t', n)
  {
    if t'[n].uplink.None? {
      assert Walk(t', n, 1).None?;
    } else if t'[n].uplink.value == n {
      assert Walk(t', n, 0) == Some(n);
    } else {
      var u := t'[n].uplink.value;
      SettlesExtends(t, t', u);
      var k: nat :| Walk(t', u, k).None? || NamesItself(t', Walk(t', u, k).value);
      WalkStep(t', n, k);
    }
  }

  lemma {:induction false} GrownUplink(tree: Tree, name: string, e: Json, n: string)
    requires Good(tree) && name !in tree && Admissible(tree, name, e)
    requires n in Grown(tree, name, e) && n !in tree
    ensures var t := TopologyOf(Grown(tree, name, e));
            t[n].uplink.Some? ==> t[n].uplink.value in tree || t[n].uplink.value == n
  {
    var g := Grown(tree, name, e);
    if n == name && g[n] == CodedEntity(e) && UplinkOf(CodedEntity(e)).Some? {
      var base := tree[name := CodedEntity(e)];
      assert "uplink" in NetOf(e);
      assert KeyAdmissible(base, name, "uplink");
      assert Net(base, name) == NetOf(CodedEntity(e));
    }
  }

  lemma {:induction false} ApplyOneSettles(order: Order, parse: Parser, tree: Tree, op: Operation)
    requires IsOrder(order) && Good(tree) && ApplyOne(order, parse, tree, op).Committed?
    requires forall n | n in tree :: Settles(TopologyOf(tree), n)
    ensures var tree' := ApplyOne(order, parse, tree, op).tree; forall n | n in tree' :: Settles(TopologyOf(tree'), n)
  {
    var tree' := ApplyOne(order, parse, tree, op).tree;
    var e := Built(parse, op.parameters).tree;
    AddExact(order, parse, tree, op.name, op.parameters);
    GrownUnaltered(tree, op.name, e);
    UnalteredExtends(tree, tree');
    GoodClosed(tree);
    hide ApplyOne, IsOrder, Settles;
    var t, t' := TopologyOf(tree), TopologyOf(tree');
    forall n | n in tree' ensures Settles(t', n) {
      if n in tree {
        SettlesExtends(t, t', n);
      } else {
        GrownUplink(tree, op.name, e, n);
        NewSettles(t, t', n);
      }
    }
  }

  lemma {:induction false} CommitSettles(order: Order, parse: Parser, tree: Tree, ops: seq<Operation>)
    requires IsOrder(order) && Good(tree) && ApplyAll(order, parse, tree, ops).Committed?
    requires forall n | n in tree :: Settles(TopologyOf(tree), n)
    ensures var tree' := ApplyAll(order, parse, tree, ops).tree; forall n | n in tree' :: Settles(TopologyOf(tree'), n)
    decreases |ops|
  {
    if ops != [] {
      ApplyOneSettles(order, parse, tree, ops[0]);
      ApplyOneKeeps(order, parse, tree, ops[0]);
      hide ApplyOne, Good, IsOrder, Settles;
      CommitSettles(order, parse, ApplyOne(order, parse, tree, ops[0]).tree, ops[1..]);
    }
  }

  lemma {:induction false} SelfNamingWalk(t: Topology, n: Name, k: nat)
    requires NamesItself(t, n)
    ensures Walk(t, n, k) == Some(n)
    decreases k
  {
    if k > 0 { SelfNamingWalk(t, n, k - 1); }
  }

  /**
    From a configuration whose chains all end, after any commits every chain still ends or runs into
    an entity naming itself; so all chains end exactly when no entity names itself.
   */
  lemma {:induction false} ChainsOverCommits(order: Order, parse: Parser, tree: Tree, ops: seq<Operation>)
    requires IsOrder(order) && Good(tree) && AllChainsEnd(TopologyOf(tree))
    requires ApplyAll(order, parse, tree, ops).Committed?
    ensures var t' := TopologyOf(ApplyAll(order, parse, tree, ops).tree);
            && (forall n | n in t' :: Settles(t', n))
            && (AllChainsEnd(t') <==> forall n | n in t' :: !NamesItself(t', n))
  {
    var tree' := ApplyAll(order, parse, tree, ops).tree;
    forall n | n in tree ensures Settles(TopologyOf(tree), n) {
      assert ChainEnds(TopologyOf(tree), n);
    }
    CommitSettles(order, parse, tree, ops);
    hide ApplyAll, Good, IsOrder;
    var t' := TopologyOf(tree');
    if AllChainsEnd(t') {
      forall n | n in t' ensures !NamesItself(t', n) {
        assert ChainEnds(t', n);
        var k: nat :| Walk(t', n, k).None?;
        if NamesItself(t', n) { SelfNamingWalk(t', n, k); }
      }
    }
    if forall n | n in t' :: !NamesItself(t', n) {
      forall n | n in t' ensures ChainEnds(t', n) {
        assert Settles(t', n);
        var k: nat :| Walk(t', n, k).None? || NamesItself(t', Walk(t', n, k).value);
      }
    }
  }
}
