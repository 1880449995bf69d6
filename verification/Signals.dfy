/**
  One-shot signal callbacks: a loop over a vector whose entries are cleared
  before they are called and put back if they did not match.
 */
module Signals {
  import opened Uplinks

  /** A callback matches every signal, or those whose chosen argument equals its key. */
  datatype Callback = Callback(id: nat, key: Option<string>)

  predicate Matches(c: Callback, arg: string)
  {
    c.key.None? || c.key.value == arg
  }

  // ----- The list the vector stands for ------------------------------------

  /** The entries that are not cleared, in registration order. */
  function Live(entries: seq<Option<Callback>>): (r: seq<Callback>)
    decreases |entries|
  {
    if entries == [] then []
    else (if entries[0].Some? then [entries[0].value] else []) + Live(entries[1..])
  }

  /** The first callback that matches. */
  function FirstMatch(live: seq<Callback>, arg: string): (r: Option<nat>)
    ensures r.Some? ==> r.value < |live| && Matches(live[r.value], arg)
    ensures r.Some? ==> forall j | 0 <= j < r.value :: !Matches(live[j], arg)
    ensures r.None? ==> forall c | c in live :: !Matches(c, arg)
    decreases |live|
  {
    if live == [] then None
    else if Matches(live[0], arg) then Some(0)
    else
      match FirstMatch(live[1..], arg)
      case None => None
      case Some(i) => Some(i + 1)
  }

  /** Callbacks registered with these keys, numbered from `id`. */
  function Numbered(id: nat, keys: seq<Option<string>>): (r: seq<Callback>)
    ensures |r| == |keys| && forall i | 0 <= i < |r| :: r[i] == Callback(id + i, keys[i])
  {
    seq(|keys|, i requires 0 <= i < |keys| => Callback(id + i, keys[i]))
  }

  lemma {:induction false} LiveConcat(a: seq<Option<Callback>>, b: seq<Option<Callback>>)
    ensures Live(a + b) == Live(a) + Live(b)
    decreases |a|
  {
    if a == [] {
      assert a + b == b;
    } else {
      assert (a + b)[0] == a[0] && (a + b)[1..] == a[1..] + b;
      LiveConcat(a[1..], b);
    }
  }

  lemma {:induction false} LiveOne(e: Option<Callback>)
    ensures Live([e]) == if e.Some? then [e.value] else []
  {
    assert [e][1..] == [];
  }

  lemma {:induction false} TakenOut(a: seq<Callback>, c: Callback, b: seq<Callback>)
    ensures var l := a + ([c] + b); l[|a|] == c && l[..|a|] == a && l[|a| + 1..] == b && a + ([] + b) == l[..|a|] + l[|a| + 1..]
  {
    assert [] + b == b;
  }

  /** Clearing an entry takes one callback out of the list; where it was is where the entries before it end. */
  lemma {:induction false} LiveCleared(entries: seq<Option<Callback>>, i: nat)
    requires i < |entries| && entries[i].Some?
    ensures var live, k := Live(entries), |Live(entries[..i])|;
            && k < |live| && live[k] == entries[i].value && live[..k] == Live(entries[..i])
            && Live(entries[i := None]) == live[..k] + live[k + 1..]
  {
    var pre, post := entries[..i], entries[i + 1..];
    var c := entries[i].value;
    assert entries == pre + ([Some(c)] + post);
    assert entries[i := None] == pre + ([None] + post);
    hide Live;
    LiveConcat(pre, [Some(c)] + post);
    LiveConcat([Some(c)], post);
    LiveConcat(pre, [None] + post);
    LiveConcat([None], post);
    LiveOne(Some(c));
    LiveOne(None);
    TakenOut(Live(pre), c, Live(post));
  }

  lemma {:induction false} FirstMatchIs(live: seq<Callback>, arg: string, k: nat)
    requires k < |live| && Matches(live[k], arg) && forall c | c in live[..k] :: !Matches(c, arg)
    ensures FirstMatch(live, arg) == Some(k)
  {
    var r := FirstMatch(live, arg);
    assert live[k] in live;
  }

  lemma {:induction false} NoMatch(live: seq<Callback>, arg: string)
    requires forall c | c in live :: !Matches(c, arg)
    ensures FirstMatch(live, arg) == None
  {
  }

  /** What a resumed coroutine does to the subscription: it registers callbacks, or ends and destroys it. */
  datatype Resumed = Registers(keys: seq<Option<string>>) | DestroysSubscription

  /** A signal has been delivered, from one list of callbacks to the next, or to none if the subscription is gone. */
  ghost predicate Delivered(live: seq<Callback>, next: nat, arg: string, resumed: Resumed,
                            fired: Option<Callback>, live': Option<seq<Callback>>, next': nat)
  {
    match FirstMatch(live, arg)
    case None => fired == None && live' == Some(live) && next' == next
    case Some(k) =>
      && fired == Some(live[k])
      && match resumed
         case Registers(keys) =>
           next' == next + |keys| && live' == Some(live[..k] + live[k + 1..] + Numbered(next, keys))
         case DestroysSubscription => live' == None
  }

  /**
    In terms of keys: the callback that fires has no key or the signal's argument as its key, and all
    before it have another key; nothing fires exactly if every callback has another key.
   */
  ghost predicate FirstWithKey(live: seq<Callback>, arg: string, fired: Option<Callback>)
  {
    && (fired.None? <==> forall c | c in live :: c.key.Some? && c.key.value != arg)
    && (fired.Some? ==>
          && (fired.value.key == None || fired.value.key == Some(arg))
          && exists k :: 0 <= k < |live| && live[k] == fired.value && forall j | 0 <= j < k :: live[j].key.Some? && live[j].key.value != arg)
  }

  lemma {:induction false} DeliveredByKey(live: seq<Callback>, next: nat, arg: string, resumed: Resumed,
                                          fired: Option<Callback>, live': Option<seq<Callback>>, next': nat)
    requires Delivered(live, next, arg, resumed, fired, live', next')
    ensures FirstWithKey(live, arg, fired)
  {
    var r := FirstMatch(live, arg);
    if r.Some? {
      assert live[r.value] in live;
      assert forall j | 0 <= j < r.value :: live[j].key.Some? && live[j].key.value != arg;
    }
  }

  // ----- The vector, in place ----------------------------------------------

  class Subscription {
    /** The vector; None once the subscription has been destroyed, and then it must not be touched. */
    var entries: Option<seq<Option<Callback>>>
    var next: nat

    constructor ()
      ensures entries == Some([]) && next == 0
    {
      entries, next := Some([]), 0;
    }

    ghost function Callbacks(): Option<seq<Callback>>
      reads this
    {
      if entries.Some? then Some(Live(entries.value)) else None
    }

    /** `match`: the awaiting coroutine is appended. */
    method Match(key: Option<string>)
      requires entries.Some?
      modifies this
      ensures entries == Some(old(entries).value + [Some(Callback(old(next), key))]) && next == old(next) + 1
      ensures Callbacks() == Some(old(Callbacks()).value + [Callback(old(next), key)])
    {
      LiveConcat(entries.value, [Some(Callback(next, key))]);
      LiveOne(Some(Callback(next, key)));
      entries := Some(entries.value + [Some(Callback(next, key))]);
      next := next + 1;
    }

    /** The resumed coroutine, as far as the subscription is concerned. */
    method Continue(resumed: Resumed)
      requires entries.Some?
      modifies this
      ensures resumed.DestroysSubscription? ==> Callbacks() == None
      ensures resumed.Registers? ==> Callbacks() == Some(old(Callbacks()).value + Numbered(old(next), resumed.keys))
      ensures resumed.Registers? ==> next == old(next) + |resumed.keys|
    {
      if resumed.DestroysSubscription? {
        entries := None;
        return;
      }
      var keys := resumed.keys;
      var i := 0;
      while i < |keys|
        invariant i <= |keys| && next == old(next) + i && entries.Some?
        invariant Callbacks().value == old(Callbacks()).value + Numbered(old(next), keys[..i])
      {
        assert Numbered(old(next), keys[..i + 1]) == Numbered(old(next), keys[..i]) + [Callback(next, keys[i])];
        Match(keys[i]);
        i := i + 1;
      }
      assert keys[..i] == keys;
    }

    /**
      The dispatch loop.  The signal goes to the first live callback that matches, which is taken out;
      every other entry stays, and what the resumed coroutine registers comes last.  The coroutine may
      destroy the subscription: after a match the loop does not touch it.
     */
    method Dispatch(arg: string, resumed: Resumed) returns (fired: Option<Callback>)
      requires entries.Some?
      modifies this
      ensures Delivered(old(Callbacks()).value, old(next), arg, resumed, fired, Callbacks(), next)
      ensures FirstWithKey(old(Callbacks()).value, arg, fired)
      ensures fired.None? ==> entries == old(entries)
    {
      ghost var before := entries.value;
      var end := |entries.value|;
      var i := 0;
      while i < end
        invariant i <= end && entries.Some? && entries.value == before && next == old(next)
        invariant forall c | c in Live(before[..i]) :: !Matches(c, arg)
      {
        var elem := entries.value[i];
        assert before[..i + 1] == before[..i] + [elem];
        LiveConcat(before[..i], [elem]);
        LiveOne(elem);
        if elem.Some? {
          LiveCleared(before, i);
          entries := Some(entries.value[i := None]);
          if Matches(elem.value, arg) {
            ghost var k := |Live(before[..i])|;
            FirstMatchIs(Live(before), arg, k);
            hide Live, FirstMatch, Matches, FirstWithKey;
            ghost var live := Live(before);
            Continue(resumed);
            DeliveredByKey(live, old(next), arg, resumed, elem, Callbacks(), next);
            return elem;
          }
          entries := Some(entries.value[i := elem]);
        }
        i := i + 1;
      }
      assert before[..end] == before;
      NoMatch(Live(before), arg);
      fired := None;
      DeliveredByKey(Live(before), old(next), arg, resumed, fired, Callbacks(), next);
    }
  }

  // ----- Runs --------------------------------------------------------------

  datatype Event = Register(key: Option<string>) | Signal(arg: string, keys: seq<Option<string>>)

  datatype State = State(live: seq<Callback>, next: nat, fired: seq<Callback>)

  function Step(s: State, e: Event): State
  {
    match e
    case Register(key) => s.(live := s.live + [Callback(s.next, key)], next := s.next + 1)
    case Signal(arg, keys) =>
      match FirstMatch(s.live, arg)
      case None => s
      case Some(k) =>
        State(s.live[..k] + s.live[k + 1..] + Numbered(s.next, keys), s.next + |keys|, s.fired + [s.live[k]])
  }

  /**
    The loop over the vector does what the step on the list does, and a callback fires exactly if one
    matches; the same one fires if the coroutine it resumes destroys the subscription.
   */
  lemma {:induction false} DeliveredIsStep(s: State, arg: string, resumed: Resumed,
                                           fired: Option<Callback>, live': Option<seq<Callback>>, next': nat)
    requires Delivered(s.live, s.next, arg, resumed, fired, live', next')
    ensures fired.Some? <==> exists c :: c in s.live && Matches(c, arg)
    ensures live'.None? <==> fired.Some? && resumed.DestroysSubscription?
    ensures var keys := if resumed.Registers? then resumed.keys else [];
            var s' := Step(s, Signal(arg, keys));
            && s'.fired == s.fired + (if fired.Some? then [fired.value] else [])
            && (live'.Some? ==> s' == State(live'.value, next', s'.fired))
  {
    var r := FirstMatch(s.live, arg);
    if r.Some? {
      assert s.live[r.value] in s.live;
    } else {
      assert s.fired + [] == s.fired;
    }
  }

  function After(s: State, es: seq<Event>): State
    decreases |es|
  {
    if es == [] then s else After(Step(s, es[0]), es[1..])
  }

  const Start: State := State([], 0, [])

  /** Each callback ever registered is live or has fired, never both and never twice; live ones are in registration order. */
  ghost predicate Inv(s: State)
  {
    && Sorted(s.live)
    && (forall i, j | 0 <= i < j < |s.fired| :: s.fired[i].id != s.fired[j].id)
    && (forall c | c in s.live :: c.id < s.next)
    && (forall c | c in s.fired :: c.id < s.next)
    && (forall c, d | c in s.live && d in s.fired :: c.id != d.id)
    && (forall id: nat | id < s.next :: Accounted(s, id))
  }

  ghost predicate Accounted(s: State, id: nat)
  {
    (exists c :: c in s.live && c.id == id) || (exists c :: c in s.fired && c.id == id)
  }

  lemma {:induction false} SignalMembers(s: State, arg: string, keys: seq<Option<string>>, k: nat)
    requires FirstMatch(s.live, arg) == Some(k)
    ensures var s' := Step(s, Signal(arg, keys));
            && (forall c :: c in s'.live ==> c in s.live || s.next <= c.id < s'.next)
            && (forall c | c in s.live :: c in s'.live || c in s'.fired)
            && (forall c | c in Numbered(s.next, keys) :: c in s'.live)
            && (forall c :: c in s'.fired <==> c in s.fired || c == s.live[k])
  {
    var s' := Step(s, Signal(arg, keys));
    forall c | c in s.live ensures c in s'.live || c in s'.fired {
      var j :| 0 <= j < |s.live| && s.live[j] == c;
      if j < k {
        assert s.live[..k][j] == c;
      } else if j > k {
        assert s.live[k + 1..][j - k - 1] == c;
      }
    }
  }

  lemma {:induction false} StepInv(s: State, e: Event)
    requires Inv(s)
    ensures Inv(Step(s, e))
  {
    var s' := Step(s, e);
    if e.Signal? {
      if FirstMatch(s.live, e.arg).Some? { SignalInv(s, e.arg, e.keys, FirstMatch(s.live, e.arg).value); }
    } else {
      forall id: nat | id < s'.next ensures Accounted(s', id) {
        if id < s.next {
          assert Accounted(s, id);
        } else {
          assert Callback(id, e.key) in s'.live;
        }
      }
    }
  }

  ghost predicate Sorted(live: seq<Callback>)
  {
    forall i, j | 0 <= i < j < |live| :: live[i].id < live[j].id
  }

  lemma {:induction false} SignalSorted(s: State, k: nat, added: seq<Callback>)
    requires Sorted(s.live) && k < |s.live| && Sorted(added)
    requires (forall c | c in s.live :: c.id < s.next) && (forall c | c in added :: c.id >= s.next)
    ensures Sorted(s.live[..k] + s.live[k + 1..] + added)
  {
    var live' := s.live[..k] + s.live[k + 1..] + added;
    forall i, j | 0 <= i < j < |live'| ensures live'[i].id < live'[j].id {
      LiveAt(s, k, added, i);
      LiveAt(s, k, added, j);
      if i < |s.live| - 1 <= j {
        assert live'[j] in added;
        assert live'[i] in s.live;
      }
    }
  }

  lemma {:induction false} SignalAccounted(s: State, arg: string, keys: seq<Option<string>>, k: nat, id: nat)
    requires Inv(s) && FirstMatch(s.live, arg) == Some(k) && id < s.next + |keys|
    ensures Accounted(Step(s, Signal(arg, keys)), id)
  {
    SignalMembers(s, arg, keys, k);
    if id < s.next {
      assert Accounted(s, id);
    } else {
      var added := Numbered(s.next, keys);
      assert added[id - s.next] in added;
    }
  }

  lemma {:induction false} SignalInv(s: State, arg: string, keys: seq<Option<string>>, k: nat)
    requires Inv(s) && FirstMatch(s.live, arg) == Some(k)
    ensures Inv(Step(s, Signal(arg, keys)))
  {
    var s', added := Step(s, Signal(arg, keys)), Numbered(s.next, keys);
    SignalMembers(s, arg, keys, k);
    assert s.live[k] in s.live;
    SignalSorted(s, k, added);
    assert Sorted(s'.live);
    forall c, d | c in s'.live && d in s'.fired ensures c.id != d.id {
      if c.id < s.next && d == s.live[k] { LiveNotFired(s, k, added, c); }
    }
    forall id: nat | id < s'.next ensures Accounted(s', id) { SignalAccounted(s, arg, keys, k, id); }
  }

  lemma {:induction false} LiveAt(s: State, k: nat, added: seq<Callback>, i: nat)
    requires k < |s.live| && i < |s.live| - 1 + |added|
    ensures var live' := s.live[..k] + s.live[k + 1..] + added;
            live'[i] == if i < k then s.live[i] else if i < |s.live| - 1 then s.live[i + 1] else added[i - (|s.live| - 1)]
  {
  }

  lemma {:induction false} LiveNotFired(s: State, k: nat, added: seq<Callback>, c: Callback)
    requires Inv(s) && k < |s.live| && c in s.live[..k] + s.live[k + 1..] + added && c.id < s.next
    requires forall d | d in added :: d.id >= s.next
    ensures c.id != s.live[k].id
  {
    var live' := s.live[..k] + s.live[k + 1..] + added;
    var i :| 0 <= i < |live'| && live'[i] == c;
    LiveAt(s, k, added, i);
  }

  lemma {:induction false} RunInv(s: State, es: seq<Event>)
    requires Inv(s)
    ensures Inv(After(s, es))
    decreases |es|
  {
    if es != [] {
      StepInv(s, es[0]);
      hide Inv, Step;
      RunInv(Step(s, es[0]), es[1..]);
    }
  }

  lemma {:induction false} EarliestFires(s: State, arg: string, keys: seq<Option<string>>)
    requires Sorted(s.live)
    ensures var s' := Step(s, Signal(arg, keys));
            if exists c :: c in s.live && (c.key == None || c.key == Some(arg)) then
              && |s'.fired| == |s.fired| + 1
              && var c := s'.fired[|s.fired|];
              && c in s.live && (c.key == None || c.key == Some(arg))
              && forall d | d in s.live && (d.key == None || d.key == Some(arg)) :: c.id <= d.id
            else s' == s
  {
    var r := FirstMatch(s.live, arg);
    if r.Some? {
      var c := s.live[r.value];
      assert c in s.live;
      assert Step(s, Signal(arg, keys)).fired == s.fired + [c];
      forall d | d in s.live && (d.key == None || d.key == Some(arg)) ensures c.id <= d.id {
        var j :| 0 <= j < |s.live| && s.live[j] == d;
        assert Matches(d, arg) && j >= r.value;
      }
    }
  }

  /**
    Over any run: no callback fires twice; each one registered is still live or has fired, not both;
    and the next signal goes to the earliest registered live callback that has no key or the signal's
    argument as its key, if there is one.
   */
  lemma {:induction false} OneShot(es: seq<Event>, arg: string, keys: seq<Option<string>>)
    ensures var s := After(Start, es);
            && (forall i, j | 0 <= i < j < |s.fired| :: s.fired[i].id != s.fired[j].id)
            && (forall c, d | c in s.live && d in s.fired :: c.id != d.id)
            && (forall id: nat | id < s.next :: Accounted(s, id))
            && (var s' := Step(s, Signal(arg, keys));
                if exists c :: c in s.live && (c.key == None || c.key == Some(arg)) then
                  && |s'.fired| == |s.fired| + 1
                  && var c := s'.fired[|s.fired|];
                  && c in s.live && (c.key == None || c.key == Some(arg))
                  && forall d | d in s.live && (d.key == None || d.key == Some(arg)) :: c.id <= d.id
                else s' == s)
  {
    var s := After(Start, es);
    assert Inv(Start);
    RunInv(Start, es);
    assert Sorted(s.live);
    hide After, Inv;
    EarliestFires(s, arg, keys);
  }
}
