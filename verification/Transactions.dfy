/**
  The transaction manager: opening, filling, committing and discarding
  transactions, and what holds over any sequence of such requests.
 */
module Transactions {
  import opened Uplinks
  import opened ConfigModel
  import opened ConfigInvariant
  import opened ConfigStore
  import opened Commits
  import opened LifecycleGrowth
  import opened Lifecycle
  import opened Deadlock
  import opened ConfigInputs
  import Tokens

  type Id = Tokens.Id

  datatype Transaction = Transaction(owner: nat, operations: seq<Operation>)

  datatype Status = Success | Errno(code: int) | Dead

  datatype Manager = Manager(running: Tree, table: map<Id, Transaction>, committed: seq<seq<Operation>>)

  datatype Call =
    | New(id: Id, uid: nat)
    | Append(id: Id, uid: nat, op: Operation)
    | Commit(id: Id, uid: nat)
    | Discard(id: Id, uid: nat)

  /** The owner of a transaction and root may touch it. */
  predicate MayTouch(t: Transaction, uid: nat)
  {
    uid == t.owner || uid == 0
  }

  // ----- What each call does -----------------------------------------------

  function Serve(order: Order, parse: Parser, m: Manager, c: Call): (Manager, Status)
  {
    match c
    case New(id, uid) =>  // a token that is in use is drawn again
      if id in m.table then (m, Success) else (m.(table := m.table[id := Transaction(uid, [])]), Success)
    case Append(id, uid, op) =>
      if id !in m.table then (m, Errno(EINVAL))
      else if !MayTouch(m.table[id], uid) then (m, Errno(EACCES))
      else
        var t := m.table[id];
        (m.(table := m.table[id := t.(operations := t.operations + [op])]), Success)
    case Commit(id, uid) =>
      if id !in m.table then (m, Errno(EINVAL))
      else if !MayTouch(m.table[id], uid) then (m, Errno(EACCES))
      else
        var ops := m.table[id].operations;
        (match ApplyAll(order, parse, m.running, ops)
         case Committed(tree) => (Manager(tree, m.table - {id}, m.committed + [ops]), Success)
         case Failed(errno) => (m, Errno(errno))
         case Crashed => (m, Dead))
    case Discard(id, uid) =>
      if id !in m.table then (m, Errno(EINVAL))
      else if !MayTouch(m.table[id], uid) then (m, Errno(EACCES))
      else (m.(table := m.table - {id}), Success)
  }

  function ServeAll(order: Order, parse: Parser, m: Manager, cs: seq<Call>): Manager
    decreases |cs|
  {
    if cs == [] then m
    else
      var last := |cs| - 1;
      Serve(order, parse, ServeAll(order, parse, m, cs[..last]), cs[last]).0
  }

  function Flatten(log: seq<seq<Operation>>): seq<Operation>
  {
    if log == [] then [] else Flatten(log[..|log| - 1]) + log[|log| - 1]
  }

  /** The transaction that a call commits, if it commits one. */
  function CommittedBy(order: Order, parse: Parser, m: Manager, c: Call): Option<seq<Operation>>
  {
    if c.Commit? && c.id in m.table && MayTouch(m.table[c.id], c.uid)
       && ApplyAll(order, parse, m.running, m.table[c.id].operations).Committed?
    then Some(m.table[c.id].operations) else None
  }

  /** Only its owner and root change, commit or discard a transaction; others are denied access. */
  lemma {:induction false} OnlyOwnersTouch(order: Order, parse: Parser, m: Manager, c: Call, id: Id)
    requires id in m.table && !(c.id == id && (c.uid == m.table[id].owner || c.uid == 0))
    ensures var m' := Serve(order, parse, m, c).0; id in m'.table && m'.table[id] == m.table[id]
    ensures !c.New? && c.id == id ==> Serve(order, parse, m, c) == (m, Errno(13))
  {
  }

  /** A token that is not open is answered with an error, and nothing changes. */
  lemma {:induction false} UnknownToken(order: Order, parse: Parser, m: Manager, c: Call)
    requires !c.New? && c.id !in m.table
    ensures Serve(order, parse, m, c) == (m, Errno(22))
  {
  }

  /** A call either commits a whole transaction or leaves the running configuration alone. */
  lemma {:induction false} ServeCommits(order: Order, parse: Parser, m: Manager, c: Call)
    ensures var m' := Serve(order, parse, m, c).0;
            match CommittedBy(order, parse, m, c)
            case None => m'.running == m.running && m'.committed == m.committed
            case Some(ops) =>
              && ApplyAll(order, parse, m.running, ops) == Committed(m'.running)
              && m'.committed == m.committed + [ops]
              && m'.table == m.table - {c.id}
    ensures c.Commit? && Serve(order, parse, m, c).1 != Success ==> Serve(order, parse, m, c).0 == m
    ensures c.Commit? ==> (Serve(order, parse, m, c).1 == Success <==> CommittedBy(order, parse, m, c).Some?)
  {
  }

  /**
    At any time the running configuration is the loaded one with the committed transactions applied
    whole, in commit order; it is good, and nothing that was loaded has been altered.
   */
  lemma {:induction false} CommitsAreSerial(order: Order, parse: Parser, loaded: Tree, cs: seq<Call>)
    requires IsOrder(order) && Good(loaded)
    ensures var m := ServeAll(order, parse, Manager(loaded, map[], []), cs);
            && ApplyAll(order, parse, loaded, Flatten(m.committed)) == Committed(m.running)
            && Good(m.running) && Unaltered(loaded, m.running)
    decreases |cs|
  {
    hide ApplyAll, IsOrder, Good, Serve, Unaltered, CommittedBy;
    var m0 := Manager(loaded, map[], []);
    if cs == [] {
      EmptyCommit(order, parse, loaded);
    } else {
      var last := |cs| - 1;
      var m := ServeAll(order, parse, m0, cs[..last]);
      CommitsAreSerial(order, parse, loaded, cs[..last]);
      ServeCommits(order, parse, m, cs[last]);
      var m' := Serve(order, parse, m, cs[last]).0;
      match CommittedBy(order, parse, m, cs[last]) {
        case None =>
        case Some(ops) =>
          assert m'.committed[..|m'.committed| - 1] == m.committed;
          ApplyConcat(order, parse, loaded, Flatten(m.committed), ops);
          CommitKeeps(order, parse, m.running, ops);
          UnalteredTrans(loaded, m.running, m'.running);
      }
    }
  }

  lemma {:induction false} EmptyCommit(order: Order, parse: Parser, tree: Tree)
    ensures ApplyAll(order, parse, tree, []) == Committed(tree) && Unaltered(tree, tree)
  {
  }

  /** What a configuration holds stays, so the topology only grows from one moment to a later one. */
  lemma {:induction false} RunningGrows(order: Order, parse: Parser, loaded: Tree, cs: seq<Call>, k: nat)
    requires IsOrder(order) && Good(loaded) && k <= |cs|
    ensures var early := ServeAll(order, parse, Manager(loaded, map[], []), cs[..k]).running;
            var late := ServeAll(order, parse, Manager(loaded, map[], []), cs).running;
            Unaltered(early, late) && Extends(TopologyOf(early), TopologyOf(late)) && Closed(TopologyOf(early))
    decreases |cs|
  {
    hide Good, IsOrder, TopologyOf, ApplyAll, Unaltered, Serve, CommittedBy;
    var m0 := Manager(loaded, map[], []);
    var early := ServeAll(order, parse, m0, cs[..k]).running;
    CommitsAreSerial(order, parse, loaded, cs[..k]);
    GoodClosed(early);
    if k == |cs| {
      assert cs[..k] == cs;
      EmptyCommit(order, parse, early);
    } else {
      var last := |cs| - 1;
      RunningGrows(order, parse, loaded, cs[..last], k);
      assert cs[..last][..k] == cs[..k];
      var mid := ServeAll(order, parse, m0, cs[..last]);
      CommitsAreSerial(order, parse, loaded, cs[..last]);
      ServeCommits(order, parse, mid, cs[last]);
      match CommittedBy(order, parse, mid, cs[last]) {
        case None =>
        case Some(ops) =>
          CommitKeeps(order, parse, mid.running, ops);
          UnalteredTrans(early, mid.running, ServeAll(order, parse, m0, cs).running);
      }
    }
    UnalteredExtends(early, ServeAll(order, parse, m0, cs).running);
  }

  /**
    Over any run of transaction calls from a loaded file whose uplink chains end: the lifecycle
    protocol over the running configuration is deadlock free, in every reachable state, exactly
    when no committed entity names itself as its uplink.
   */
  lemma {:induction false} DeadlockFreeOverCommits(order: Order, parse: Parser, file: Tree, cs: seq<Call>)
    requires IsOrder(order) && Load(order, file).Some? && AllChainsEnd(TopologyOf(Load(order, file).value))
    ensures var m := ServeAll(order, parse, Manager(Load(order, file).value, map[], []), cs);
            var t := TopologyOf(m.running);
            (forall s: State | Reachable(t, s) :: DeadlockFree(s)) <==> (forall n | n in t :: !NamesItself(t, n))
  {
    var loaded := Load(order, file).value;
    LoadGood(order, file);
    hide Load, IsOrder;
    var m := ServeAll(order, parse, Manager(loaded, map[], []), cs);
    CommitsAreSerial(order, parse, loaded, cs);
    hide ServeAll;
    ChainsOverCommits(order, parse, loaded, Flatten(m.committed));
    GoodClosed(m.running);
    DeadlockFreeIffChainsEnd(TopologyOf(m.running));
  }

  /** A transaction that adds one entity, its own uplink. */
  function SelfUplinkCalls(id: Id, uid: nat, name: string): seq<Call>
  {
    [New(id, uid), Append(id, uid, AddEntity(name, SelfUplink(name))), Commit(id, uid)]
  }

  lemma {:induction false} ServeLast(order: Order, parse: Parser, m: Manager, cs: seq<Call>, c: Call)
    ensures ServeAll(order, parse, m, cs + [c]) == Serve(order, parse, ServeAll(order, parse, m, cs), c).0
  {
    hide Serve;
    assert (cs + [c])[..|cs|] == cs && (cs + [c])[|cs|] == c;
  }

  lemma {:induction false} ServeNone(order: Order, parse: Parser, m: Manager)
    ensures ServeAll(order, parse, m, []) == m
  {
  }

  lemma {:induction false} OneCommit(order: Order, parse: Parser, tree: Tree, id: Id, uid: nat, op: Operation)
    requires ApplyOne(order, parse, tree, op).Committed?
    ensures Serve(order, parse, Manager(tree, map[id := Transaction(uid, [op])], []), Commit(id, uid)).0.running ==
            ApplyOne(order, parse, tree, op).tree
  {
    hide ApplyOne;
    assert [op][1..] == [];
    assert ApplyAll(order, parse, tree, [op]) == ApplyOne(order, parse, tree, op);
  }

  /** A transaction of one operation that succeeds. */
  lemma {:induction false} OneOperation(order: Order, parse: Parser, tree: Tree, id: Id, uid: nat, op: Operation)
    requires ApplyOne(order, parse, tree, op).Committed?
    ensures ServeAll(order, parse, Manager(tree, map[], []), [New(id, uid), Append(id, uid, op), Commit(id, uid)]).running ==
            ApplyOne(order, parse, tree, op).tree
  {
    var m0, a, b, c := Manager(tree, map[], []), New(id, uid), Append(id, uid, op), Commit(id, uid);
    var m1 := Manager(tree, map[id := Transaction(uid, [])], []);
    var m2 := Manager(tree, map[id := Transaction(uid, [op])], []);
    OneCommit(order, parse, tree, id, uid, op);
    assert Serve(order, parse, m0, a).0 == m1;
    assert Serve(order, parse, m1, b).0 == m2 by { assert [] + [op] == [op]; }
    hide Serve, ServeAll, ApplyOne;
    ServeNone(order, parse, m0);
    ServeLast(order, parse, m0, [], a);
    assert [] + [a] == [a];
    ServeLast(order, parse, m0, [a], b);
    assert [a] + [b] == [a, b];
    ServeLast(order, parse, m0, [a, b], c);
    assert [a, b] + [c] == [a, b, c];
  }

  lemma {:induction false} SelfUplinkCommits(order: Order, parse: Parser, tree: Tree, id: Id, uid: nat, name: string)
    requires IsOrder(order) && Good(tree) && name !in tree && parse("switch").None? && parse(name).None?
    ensures ServeAll(order, parse, Manager(tree, map[], []), SelfUplinkCalls(id, uid, name)).running ==
            Add(order, parse, true, tree, name, SelfUplink(name)).tree
  {
    SelfUplinkAccepted(order, parse, tree, name);
    hide Good, IsOrder, Add, SelfUplink, TopologyOf, Serve;
    OneOperation(order, parse, tree, id, uid, AddEntity(name, SelfUplink(name)));
  }

  /** From any loaded file whose chains end, that one transaction is committed, and then a deadlock is reachable. */
  lemma {:induction false} SelfUplinkDeadlocks(order: Order, parse: Parser, file: Tree, id: Id, uid: nat, name: string)
    requires IsOrder(order) && Load(order, file).Some? && AllChainsEnd(TopologyOf(Load(order, file).value))
    requires name !in Load(order, file).value && parse("switch").None? && parse(name).None?
    ensures var m := ServeAll(order, parse, Manager(Load(order, file).value, map[], []), SelfUplinkCalls(id, uid, name));
            var t := TopologyOf(m.running);
            NamesItself(t, name) && exists s: State :: Reachable(t, s) && !DeadlockFree(s)
  {
    var loaded := Load(order, file).value;
    LoadGood(order, file);
    SelfUplinkAccepted(order, parse, loaded, name);
    SelfUplinkCommits(order, parse, loaded, id, uid, name);
    hide Load, IsOrder, Good, ServeAll, SelfUplinkCalls, Add, TopologyOf, DeadlockFree, Reachable;
    DeadlockFreeOverCommits(order, parse, file, SelfUplinkCalls(id, uid, name));
    var m := ServeAll(order, parse, Manager(loaded, map[], []), SelfUplinkCalls(id, uid, name));
    assert NamesItself(TopologyOf(m.running), name);
  }

  // ----- The object --------------------------------------------------------

  class TransactionManager {
    const running: Config
    var table: map<Id, Transaction>
    ghost var committed: seq<seq<Operation>>

    ghost predicate Ready()
      reads this, running
    {
      running.mutable
    }

    ghost function View(): Manager
      reads this, running
    {
      Manager(running.tree, table, committed)
    }

    /** The running configuration starts as a copy of the saved one. */
    constructor (saved: Config)
      ensures Ready() && fresh(running) && View() == Manager(saved.tree, map[], [])
      ensures running.order == saved.order && running.parse == saved.parse
    {
      var copy := new Config.Copy(saved);
      running := copy;
      table := map[];
      committed := [];
    }

    /** `New`, with the id that the generator loop came up with. */
    method Open(id: Id, uid: nat)
      requires id !in table
      modifies this`table
      ensures View() == Serve(running.order, running.parse, old(View()), New(id, uid)).0
    {
      table := table[id := Transaction(uid, [])];
    }

    /** `Transaction.Add` */
    method AppendOperation(id: Id, uid: nat, op: Operation) returns (status: Status)
      modifies this`table
      ensures (View(), status) == Serve(running.order, running.parse, old(View()), Append(id, uid, op))
    {
      if id !in table {
        return Errno(EINVAL);
      }
      var t := table[id];
      if uid != t.owner && uid != 0 {
        return Errno(EACCES);
      }
      table := table[id := t.(operations := t.operations + [op])];
      status := Success;
    }

    /** `Commit`: the operations run on a copy that replaces the running configuration at the end. */
    method CommitTransaction(id: Id, uid: nat) returns (status: Status)
      requires Ready()
      modifies this`table, this`committed, running`tree
      ensures Ready()
      ensures (View(), status) == Serve(running.order, running.parse, old(View()), Commit(id, uid))
    {
      if id !in table {
        return Errno(EINVAL);
      }
      if uid != table[id].owner && uid != 0 {
        return Errno(EACCES);
      }
      var copy := new Config.Copy(running);
      var ops := table[id].operations;
      var i := 0;
      while i < |ops|
        invariant i <= |ops| && fresh(copy) && copy.mutable
        invariant copy.order == running.order && copy.parse == running.parse
        invariant View() == old(View())
        invariant ApplyAll(running.order, running.parse, running.tree, ops)
               == ApplyAll(running.order, running.parse, copy.tree, ops[i..])
      {
        assert ops[i..][0] == ops[i] && ops[i..][1..] == ops[i + 1..];
        match ops[i] {
          case AddEntity(name, ps) =>
            var existing := copy.TryGet(name);
            if existing.Some? {
              return Errno(EEXIST);
            }
            var outcome := copy.AddEntity(name, ps);
            match outcome {
              case Added =>
              case Refused(errno) => return Errno(errno);
              case Terminated => return Dead;
            }
          case SetParameters(_, _) => return Errno(ENOSYS);
          case DeleteEntity(_) => return Errno(ENOSYS);
        }
        i := i + 1;
      }
      running.Assign(copy);
      table := table - {id};
      committed := committed + [ops];
      status := Success;
    }

    /** `Discard` */
    method DiscardTransaction(id: Id, uid: nat) returns (status: Status)
      modifies this`table
      ensures (View(), status) == Serve(running.order, running.parse, old(View()), Discard(id, uid))
    {
      if id !in table {
        return Errno(EINVAL);
      }
      if uid != table[id].owner && uid != 0 {
        return Errno(EACCES);
      }
      table := table - {id};
      status := Success;
    }
  }
}
