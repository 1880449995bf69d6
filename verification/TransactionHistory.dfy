/**
  What a transaction holds, told from the calls alone: the operations that its
  owner or root appended since it was opened, in the order of the calls.
 */
module TransactionHistory {
  import opened ConfigModel
  import opened ConfigInvariant
  import opened ConfigAdd
  import opened ConfigMeaning
  import opened Commits
  import opened Transactions

  /** The operations of the permitted Append calls for `id`, in call order. */
  function Appended(cs: seq<Call>, id: Id, owner: nat): seq<Operation>
    decreases |cs|
  {
    if cs == [] then []
    else
      (if cs[0].Append? && cs[0].id == id && (cs[0].uid == owner || cs[0].uid == 0) then [cs[0].op] else [])
      + Appended(cs[1..], id, owner)
  }

  /** The call ends the transaction: a permitted Discard, or a Commit that succeeds. */
  ghost predicate Ends(order: Order, parse: Parser, m: Manager, c: Call, id: Id, owner: nat)
  {
    && c.id == id && (c.Discard? || c.Commit?) && (c.uid == owner || c.uid == 0)
    && (c.Commit? ==> Serve(order, parse, m, c).1 == Success)
  }

  /** Call `k` opened the transaction for `owner`, and no later call ended it. */
  ghost predicate OpenSince(order: Order, parse: Parser, loaded: Tree, cs: seq<Call>, id: Id, k: nat, owner: nat)
  {
    && k < |cs| && cs[k] == New(id, owner)
    && id !in After(order, parse, loaded, cs[..k]).table
    && forall j | k < j < |cs| :: !Ends(order, parse, After(order, parse, loaded, cs[..j]), cs[j], id, owner)
  }

  function After(order: Order, parse: Parser, loaded: Tree, cs: seq<Call>): Manager
  {
    ServeAll(order, parse, Manager(loaded, map[], []), cs)
  }

  lemma {:induction false} AppendedLast(cs: seq<Call>, c: Call, id: Id, owner: nat)
    ensures Appended(cs + [c], id, owner) ==
            Appended(cs, id, owner) + if c.Append? && c.id == id && (c.uid == owner || c.uid == 0) then [c.op] else []
    decreases |cs|
  {
    if cs == [] {
      assert cs + [c] == [c] && [c][1..] == [];
    } else {
      var rest := cs[1..];
      assert (cs + [c])[0] == cs[0] && (cs + [c])[1..] == rest + [c];
      AppendedLast(rest, c, id, owner);
    }
  }

  /** What one call does to an open transaction. */
  lemma {:induction false} ServeOpen(order: Order, parse: Parser, m: Manager, c: Call, id: Id)
    requires id in m.table
    ensures var t, m' := m.table[id], Serve(order, parse, m, c).0;
            && (id in m'.table <==> !Ends(order, parse, m, c, id, t.owner))
            && (id in m'.table ==> m'.table[id] == Transaction(t.owner, t.operations +
                  if c.Append? && c.id == id && (c.uid == t.owner || c.uid == 0) then [c.op] else []))
  {
    var t := m.table[id];
    hide ApplyAll;
    assert t.operations + [] == t.operations;
  }

  lemma {:induction false} ServeClosed(order: Order, parse: Parser, m: Manager, c: Call, id: Id)
    requires id !in m.table
    ensures var m' := Serve(order, parse, m, c).0;
            && (id in m'.table <==> c.New? && c.id == id)
            && (id in m'.table ==> m'.table[id] == Transaction(c.uid, []))
  {
    hide ApplyAll;
  }

  lemma {:induction false} AfterLast(order: Order, parse: Parser, loaded: Tree, cs: seq<Call>)
    requires cs != []
    ensures After(order, parse, loaded, cs) == Serve(order, parse, After(order, parse, loaded, cs[..|cs| - 1]), cs[|cs| - 1]).0
  {
  }

  /** Open since an earlier call, and still so: the last call does not end it. */
  lemma {:induction false} OpenSinceLast(order: Order, parse: Parser, loaded: Tree, cs: seq<Call>, id: Id, k: nat, owner: nat)
    requires cs != [] && k < |cs| - 1
    ensures var last := |cs| - 1;
            OpenSince(order, parse, loaded, cs, id, k, owner) <==>
              && OpenSince(order, parse, loaded, cs[..last], id, k, owner)
              && !Ends(order, parse, After(order, parse, loaded, cs[..last]), cs[last], id, owner)
  {
    hide After, Ends;
    var last := |cs| - 1;
    assert cs[..last][..k] == cs[..k];
    forall j | k < j < last ensures cs[..last][j] == cs[j] && cs[..last][..j] == cs[..j] {}
  }

  lemma {:induction false} OpenedNow(order: Order, parse: Parser, loaded: Tree, cs: seq<Call>, id: Id, k: nat, owner: nat)
    requires OpenSince(order, parse, loaded, cs, id, k, owner) && k == |cs| - 1
    ensures cs[k] == New(id, owner) && id !in After(order, parse, loaded, cs[..k]).table
  {
  }

  lemma {:induction false} OpeningNow(order: Order, parse: Parser, loaded: Tree, cs: seq<Call>, id: Id)
    requires cs != [] && cs[|cs| - 1].New? && cs[|cs| - 1].id == id
    requires id !in After(order, parse, loaded, cs[..|cs| - 1]).table
    ensures OpenSince(order, parse, loaded, cs, id, |cs| - 1, cs[|cs| - 1].uid)
  {
  }

  lemma {:induction false} OpenedBefore(order: Order, parse: Parser, loaded: Tree, cs: seq<Call>, id: Id, k: nat, owner: nat)
    requires OpenSince(order, parse, loaded, cs, id, k, owner)
    ensures k < |cs|
  {
  }

  lemma {:induction false} AppendedSince(cs: seq<Call>, k: nat, id: Id, owner: nat)
    requires k < |cs|
    ensures var last := |cs| - 1;
            Appended(cs[k + 1..], id, owner) ==
              if k == last then []
              else Appended(cs[..last][k + 1..], id, owner) +
                   if cs[last].Append? && cs[last].id == id && (cs[last].uid == owner || cs[last].uid == 0) then [cs[last].op] else []
  {
    var last := |cs| - 1;
    if k < last {
      assert cs[k + 1..] == cs[..last][k + 1..] + [cs[last]];
      AppendedLast(cs[..last][k + 1..], cs[last], id, owner);
    }
  }

  /** What has been opened and not ended holds what was appended since. */
  lemma {:induction false} OpenHolds(order: Order, parse: Parser, loaded: Tree, cs: seq<Call>, id: Id, k: nat, owner: nat)
    requires OpenSince(order, parse, loaded, cs, id, k, owner)
    ensures var m := After(order, parse, loaded, cs);
            k < |cs| && id in m.table && m.table[id] == Transaction(owner, Appended(cs[k + 1..], id, owner))
    decreases |cs|
  {
    hide After, Serve, Ends, Appended, OpenSince;
    OpenedBefore(order, parse, loaded, cs, id, k, owner);
    var last := |cs| - 1;
    var init, c := cs[..last], cs[last];
    var m0 := After(order, parse, loaded, init);
    AfterLast(order, parse, loaded, cs);
    if k < last {
      OpenSinceLast(order, parse, loaded, cs, id, k, owner);
      OpenHolds(order, parse, loaded, init, id, k, owner);
      ServeOpen(order, parse, m0, c, id);
      AppendedSince(cs, k, id, owner);
    } else {
      OpenedNow(order, parse, loaded, cs, id, k, owner);
      ServeClosed(order, parse, m0, c, id);
      AppendedSince(cs, k, id, owner);
    }
  }

  lemma {:induction false} OpenHasOrigin(order: Order, parse: Parser, loaded: Tree, cs: seq<Call>, id: Id)
      returns (k: nat, owner: nat)
    requires id in After(order, parse, loaded, cs).table
    ensures OpenSince(order, parse, loaded, cs, id, k, owner)
    decreases |cs|
  {
    var last := |cs| - 1;
    var init, c := cs[..last], cs[last];
    var m0 := After(order, parse, loaded, init);
    AfterLast(order, parse, loaded, cs);
    hide After, Serve, Ends, Appended, OpenSince;
    if id in m0.table {
      k, owner := OpenHasOrigin(order, parse, loaded, init, id);
      OpenHolds(order, parse, loaded, init, id, k, owner);
      ServeOpen(order, parse, m0, c, id);
      OpenSinceLast(order, parse, loaded, cs, id, k, owner);
    } else {
      ServeClosed(order, parse, m0, c, id);
      OpeningNow(order, parse, loaded, cs, id);
      k, owner := last, c.uid;
    }
  }

  /**
    A transaction is open exactly if some call opened it and none has ended it since, and then its
    operations are those that were appended by permitted calls since, in call order.
   */
  lemma {:induction false} HoldsWhatWasAppended(order: Order, parse: Parser, loaded: Tree, cs: seq<Call>, id: Id)
    ensures var m := After(order, parse, loaded, cs);
            && (id in m.table ==> exists k: nat, owner: nat :: OpenSince(order, parse, loaded, cs, id, k, owner))
            && (forall k: nat, owner: nat | OpenSince(order, parse, loaded, cs, id, k, owner) ::
                  k < |cs| && id in m.table && m.table[id] == Transaction(owner, Appended(cs[k + 1..], id, owner)))
  {
    hide After, OpenSince, Appended;
    var m := After(order, parse, loaded, cs);
    if id in m.table {
      var k, owner := OpenHasOrigin(order, parse, loaded, cs, id);
    }
    forall k: nat, owner: nat | OpenSince(order, parse, loaded, cs, id, k, owner)
      ensures k < |cs| && id in m.table && m.table[id] == Transaction(owner, Appended(cs[k + 1..], id, owner))
    {
      OpenHolds(order, parse, loaded, cs, id, k, owner);
    }
  }

  /**
    Committing an open transaction, by its owner or root, applies exactly those operations in that
    order to the running configuration: all of them and the transaction is gone, or none and it stays.
   */
  lemma {:induction false} CommitAppliesAppended(
      order: Order, parse: Parser, loaded: Tree, cs: seq<Call>, id: Id, k: nat, owner: nat, uid: nat)
    requires OpenSince(order, parse, loaded, cs, id, k, owner) && (uid == owner || uid == 0)
    ensures var m := After(order, parse, loaded, cs);
            var r := Serve(order, parse, m, Commit(id, uid));
            match ApplyAll(order, parse, m.running, Appended(cs[k + 1..], id, owner))
            case Committed(tree) => r.1 == Success && r.0.running == tree && r.0.table == m.table - {id}
            case Failed(errno) => r == (m, Errno(errno))
            case Crashed => r == (m, Dead)
  {
    hide ApplyAll, After, OpenSince;
    OpenHolds(order, parse, loaded, cs, id, k, owner);
  }

  /**
    The outcome of one operation in a valid configuration: an entity that exists, one that is not
    acceptable and an operation that is not an addition are refused with their own error numbers.
   */
  lemma {:induction false} OperationOutcome(order: Order, parse: Parser, tree: Tree, op: Operation)
    requires IsOrder(order) && Good(tree)
    ensures op.SetParameters? || op.DeleteEntity? ==> ApplyOne(order, parse, tree, op) == Failed(38)
    ensures op.AddEntity? && op.name in tree ==> ApplyOne(order, parse, tree, op) == Failed(17)
    ensures op.AddEntity? && op.name !in tree ==>
      match Built(parse, op.parameters)
      case Throws => ApplyOne(order, parse, tree, op) == Crashed
      case Placed(e) =>
        if Acceptable(tree, op.name, e) then
          ApplyOne(order, parse, tree, op).Committed? && OnlyAdded(tree, ApplyOne(order, parse, tree, op).tree, op.name, e)
        else ApplyOne(order, parse, tree, op) == Failed(22)
      case _ => ApplyOne(order, parse, tree, op) == Failed(22)
  {
    if op.AddEntity? {
      hide Good, IsOrder, Add, Built, Acceptable, OnlyAdded;
      AddOutcome(order, parse, true, tree, op.name, op.parameters);
    }
  }
}
