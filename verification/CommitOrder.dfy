/**
  Independent transactions can be committed in either order.
 */
module CommitOrder {
  import opened Uplinks
  import opened JsonTree
  import opened ConfigModel
  import opened ConfigInvariant
  import opened ConfigAdd
  import opened Commits

  /** Different names, neither the uplink of the other, and not both claim the default. */
  ghost predicate IndependentEntities(a: string, ea: Json, b: string, eb: Json)
  {
    && a != b && UplinkOf(ea) != Some(b) && UplinkOf(eb) != Some(a)
    && !(ClaimsDefault(ea) && ClaimsDefault(eb))
  }

  ghost predicate Independent(parse: Parser, p: Operation, q: Operation)
  {
    && p.AddEntity? && q.AddEntity?
    && (Built(parse, p.parameters).Placed? && Built(parse, q.parameters).Placed? ==>
          IndependentEntities(p.name, Built(parse, p.parameters).tree, q.name, Built(parse, q.parameters).tree))
  }

  /** Two trees agree on what the admission of `name` looks at. */
  ghost predicate SameView(s: Tree, t: Tree, name: string, key: string)
  {
    && Net(s, name) == Net(t, name)
    && (key == "default" ==> Get(s, DEFAULT_NETNS) == Get(t, DEFAULT_NETNS))
    && (key == "uplink" && Get(Net(s, name), "uplink").Str? ==>
          var u := Get(Net(s, name), "uplink").s;
          (HasNet(s, u) <==> HasNet(t, u)) && Net(s, u) == Net(t, u))
  }

  lemma {:induction false} SameViewAdmits(s: Tree, t: Tree, name: string, key: string)
    requires SameView(s, t, name, key)
    ensures KeyAdmissible(s, name, key) <==> KeyAdmissible(t, name, key)
  {
  }

  /** If `b` is admissible after `a`, it is admissible without it. */
  lemma {:induction false} AdmissibleBefore(tree: Tree, a: string, ea: Json, b: string, eb: Json)
    requires a !in tree && Admissible(tree, a, ea)
    requires b !in Grown(tree, a, ea) && Admissible(Grown(tree, a, ea), b, eb)
    requires IndependentEntities(a, ea, b, eb)
    ensures b !in tree && Admissible(tree, b, eb)
    ensures ClaimsDefault(eb) ==> a != DEFAULT_NETNS
  {
    var after := Grown(tree, a, ea)[b := CodedEntity(eb)];
    var before := tree[b := CodedEntity(eb)];
    forall k | k in NetOf(eb) ensures KeyAdmissible(before, b, k) {
      assert KeyAdmissible(after, b, k);
      assert Net(after, b) == Net(before, b) == NetOf(CodedEntity(eb));
      if k == "uplink" || k == "default" {
        hide Admissible;
        if ClaimsDefault(ea) { assert after[DEFAULT_NETNS] == Str(a); }
        assert SameView(after, before, b, k);
        SameViewAdmits(after, before, b, k);
      }
    }
    if ClaimsDefault(eb) {
      assert KeyAdmissible(after, b, "default");
    }
  }

  /** An independent entity does not change what the parameters of `a` are checked against. */
  lemma {:induction false} ViewPast(tree: Tree, a: string, ea: Json, b: string, eb: Json, k: string)
    requires a !in tree && b !in tree && IndependentEntities(a, ea, b, eb) && k in NetOf(ea)
    requires (ClaimsDefault(eb) ==> a != DEFAULT_NETNS) && (ClaimsDefault(ea) ==> b != DEFAULT_NETNS)
    requires ClaimsDefault(eb) ==> KeyAdmissible(tree[b := CodedEntity(eb)], b, "default")
    ensures SameView(Grown(tree, b, eb)[a := CodedEntity(ea)], tree[a := CodedEntity(ea)], a, k)
  {
    var after, before := Grown(tree, b, eb)[a := CodedEntity(ea)], tree[a := CodedEntity(ea)];
    assert Net(after, a) == Net(before, a) == NetOf(CodedEntity(ea));
  }

  /** And then `a` is admissible after `b`. */
  lemma {:induction false} AdmissibleAfter(tree: Tree, a: string, ea: Json, b: string, eb: Json)
    requires a !in tree && Admissible(tree, a, ea)
    requires b !in Grown(tree, a, ea) && Admissible(tree, b, eb)
    requires IndependentEntities(a, ea, b, eb) && (ClaimsDefault(eb) ==> a != DEFAULT_NETNS)
    ensures a !in Grown(tree, b, eb) && Admissible(Grown(tree, b, eb), a, ea)
  {
    var after := Grown(tree, b, eb)[a := CodedEntity(ea)];
    var before := tree[a := CodedEntity(ea)];
    if ClaimsDefault(eb) { assert KeyAdmissible(tree[b := CodedEntity(eb)], b, "default"); }
    assert a !in Grown(tree, b, eb);
    hide KeyAdmissible, SameView;
    forall k | k in NetOf(ea) ensures KeyAdmissible(after, a, k) {
      assert KeyAdmissible(before, a, k);
      ViewPast(tree, a, ea, b, eb, k);
      SameViewAdmits(after, before, a, k);
    }
  }

  lemma {:induction false} GrownCommutes(tree: Tree, a: string, ea: Json, b: string, eb: Json)
    requires IndependentEntities(a, ea, b, eb) && a !in tree && b !in tree
    requires ClaimsDefault(eb) ==> a != DEFAULT_NETNS
    requires ClaimsDefault(ea) ==> b != DEFAULT_NETNS
    ensures Grown(Grown(tree, a, ea), b, eb) == Grown(Grown(tree, b, eb), a, ea)
  {
  }

  lemma {:induction false} SwapTwo(order: Order, parse: Parser, tree: Tree, p: Operation, q: Operation)
    requires IsOrder(order) && Good(tree) && Independent(parse, p, q)
    requires ApplyAll(order, parse, tree, [p, q]).Committed?
    ensures ApplyAll(order, parse, tree, [q, p]) == ApplyAll(order, parse, tree, [p, q])
  {
    assert [p, q][1..] == [q] && [q, p][1..] == [p] && [p][1..] == [] && [q][1..] == [];
    var a, b := p.name, q.name;
    var ea, eb := Built(parse, p.parameters).tree, Built(parse, q.parameters).tree;
    var treeA := Grown(tree, a, ea);
    AddExact(order, parse, tree, a, p.parameters);
    AddGood(order, parse, tree, a, p.parameters);
    AddExact(order, parse, treeA, b, q.parameters);
    hide Add, Good, Grown, Admissible, IsOrder;
    AdmissibleBefore(tree, a, ea, b, eb);
    AddExact(order, parse, tree, b, q.parameters);
    AddGood(order, parse, tree, b, q.parameters);
    AdmissibleAfter(tree, a, ea, b, eb);
    AddExact(order, parse, Grown(tree, b, eb), a, p.parameters);
    ClaimBlocks(tree, a, ea, b);
    GrownCommutes(tree, a, ea, b, eb);
  }

  lemma {:induction false} ClaimBlocks(tree: Tree, a: string, ea: Json, b: string)
    requires b !in Grown(tree, a, ea)
    ensures ClaimsDefault(ea) ==> b != DEFAULT_NETNS
  {
  }

  ghost predicate AllIndependent(parse: Parser, ps: seq<Operation>, qs: seq<Operation>)
  {
    forall i, j | 0 <= i < |ps| && 0 <= j < |qs| :: Independent(parse, ps[i], qs[j])
  }

  lemma {:induction false} IndependentTail(parse: Parser, ps: seq<Operation>, qs: seq<Operation>)
    requires AllIndependent(parse, ps, qs)
    ensures ps != [] ==> AllIndependent(parse, ps[1..], qs) && AllIndependent(parse, [ps[0]], qs)
    ensures qs != [] ==> AllIndependent(parse, ps, qs[1..])
  {
    if ps != [] {
      assert forall i | 0 <= i < |ps[1..]| :: ps[1..][i] == ps[i + 1];
      assert [ps[0]][0] == ps[0];
    }
    if qs != [] {
      assert forall i | 0 <= i < |qs[1..]| :: qs[1..][i] == qs[i + 1];
    }
  }

  /** `q` first, then `rest` and `p` in either order. */
  lemma {:induction false} MoveBehindOne(order: Order, parse: Parser, tree: Tree, p: Operation, q: Operation, rest: seq<Operation>)
    requires IsOrder(order) && Good(tree) && Independent(parse, p, q)
    requires ApplyAll(order, parse, tree, [p] + ([q] + rest)).Committed?
    ensures ApplyAll(order, parse, tree, [q] + ([p] + rest)) == ApplyAll(order, parse, tree, [p] + ([q] + rest))
  {
    hide ApplyAll, Good, IsOrder, Independent;
    assert [p] + ([q] + rest) == [p, q] + rest;
    assert [q] + ([p] + rest) == [q, p] + rest;
    ApplyConcat(order, parse, tree, [p, q], rest);
    ApplyConcat(order, parse, tree, [q, p], rest);
    SwapTwo(order, parse, tree, p, q);
  }

  /** One operation moves behind a whole transaction. */
  lemma {:induction false} MoveBehind(order: Order, parse: Parser, tree: Tree, p: Operation, qs: seq<Operation>)
    requires IsOrder(order) && Good(tree) && AllIndependent(parse, [p], qs)
    requires ApplyAll(order, parse, tree, [p] + qs).Committed?
    ensures ApplyAll(order, parse, tree, qs + [p]) == ApplyAll(order, parse, tree, [p] + qs)
    decreases |qs|
  {
    hide ApplyAll, Good, IsOrder, Independent;
    if qs == [] {
      assert [p] + qs == qs + [p];
    } else {
      var q, rest := qs[0], qs[1..];
      assert Independent(parse, [p][0], qs[0]);
      IndependentTail(parse, [p], qs);
      hide AllIndependent;
      assert qs == [q] + rest;
      MoveBehindOne(order, parse, tree, p, q, rest);
      ApplyConcat(order, parse, tree, [q], [p] + rest);
      CommitKeeps(order, parse, tree, [q]);
      MoveBehind(order, parse, ApplyAll(order, parse, tree, [q]).tree, p, rest);
      ApplyConcat(order, parse, tree, [q], rest + [p]);
      assert qs + [p] == [q] + (rest + [p]);
    }
  }

  /** Independent transactions commute: if one order succeeds so does the other, with the same result. */
  lemma {:induction false} IndependentCommitsCommute(
      order: Order, parse: Parser, tree: Tree, ps: seq<Operation>, qs: seq<Operation>)
    requires IsOrder(order) && Good(tree) && AllIndependent(parse, ps, qs)
    requires ApplyAll(order, parse, tree, ps + qs).Committed?
    ensures ApplyAll(order, parse, tree, qs + ps) == ApplyAll(order, parse, tree, ps + qs)
    decreases |ps|
  {
    hide Good, IsOrder, ApplyAll, AllIndependent;
    if ps == [] {
      assert ps + qs == qs + ps;
    } else {
      var p, rest := ps[0], ps[1..];
      IndependentTail(parse, ps, qs);
      assert ps + qs == [p] + (rest + qs);
      ApplyConcat(order, parse, tree, [p], rest + qs);
      CommitKeeps(order, parse, tree, [p]);
      IndependentCommitsCommute(order, parse, ApplyAll(order, parse, tree, [p]).tree, rest, qs);
      ApplyConcat(order, parse, tree, [p], qs + rest);
      FirstThenRest(order, parse, tree, p, qs, rest);
      assert qs + ps == qs + ([p] + rest);
    }
  }

  lemma {:induction false} FirstThenRest(order: Order, parse: Parser, tree: Tree, p: Operation, qs: seq<Operation>, rest: seq<Operation>)
    requires IsOrder(order) && Good(tree) && AllIndependent(parse, [p], qs)
    requires ApplyAll(order, parse, tree, [p] + (qs + rest)).Committed?
    ensures ApplyAll(order, parse, tree, qs + ([p] + rest)) == ApplyAll(order, parse, tree, [p] + (qs + rest))
  {
    hide Good, IsOrder, ApplyAll, AllIndependent;
    assert [p] + (qs + rest) == ([p] + qs) + rest;
    assert qs + ([p] + rest) == (qs + [p]) + rest;
    ApplyConcat(order, parse, tree, [p] + qs, rest);
    MoveBehind(order, parse, tree, p, qs);
    ApplyConcat(order, parse, tree, qs + [p], rest);
  }
}
