/**
  Coroutine frames.  A frame answers a message or serves the frame that awaits
  it.  An error completion passes up to the message and destroys every frame on
  the way.  Destroying a frame destroys what it holds, and that can run other
  frames, so other steps may come between two destructions.
 */
module Coroutines {

  type Handle = nat

  /** A root frame answers the message it was made for, which is known by the frame's handle. */
  datatype Payload = Root | Sub(parent: Handle)

  datatype Mode =
    | Running
    | Awaiting   // suspended until a sub-coroutine completes
    | Waiting    // suspended, its handle kept by a queue, a callback list or a pending call
    | Finished   // has returned `unit`; destroyed once its parent gives control back
    | Doomed     // below it or in it an error was returned; about to be destroyed

  datatype Frame = Frame(payload: Payload, mode: Mode)

  datatype Completion = ReplyError(error: string) | ReplyStatus(code: int)

  datatype Reply = Reply(root: Handle, completion: Completion)

  datatype State = State(
    frames: map<Handle, Frame>,
    next: Handle,
    held: seq<Handle>,        // handles kept by queues, callback lists and pending calls
    pending: seq<Handle>,     // completed frames still to be destroyed, in the order of the C++ call stack
    destroyed: seq<Handle>,   // in order
    replies: seq<Reply>)

  const Initial: State := State(map[], 0, [], [], [], [])

  // ----- Chains of frames --------------------------------------------------

  /** The frames above `h`, outermost first. */
  function Ancestors(frames: map<Handle, Frame>, h: Handle): seq<Handle>
    decreases h
  {
    if h in frames && frames[h].payload.Sub? && frames[h].payload.parent < h then
      Ancestors(frames, frames[h].payload.parent) + [frames[h].payload.parent]
    else []
  }

  function Chain(frames: map<Handle, Frame>, h: Handle): seq<Handle>
  {
    Ancestors(frames, h) + [h]
  }

  /** Whether the promise replies: always for an error, only for a negative status. */
  predicate Replies(c: Completion)
  {
    c.ReplyError? || c.code < 0
  }

  function Without(frames: map<Handle, Frame>, hs: seq<Handle>): map<Handle, Frame>
  {
    map h | h in frames && h !in hs :: frames[h]
  }

  // ----- Steps -------------------------------------------------------------

  datatype Event =
    | Call
    | Await(h: Handle)
    | Suspend(h: Handle)
    | Resume(i: nat)
    | ReturnUnit(h: Handle)
    | Destroy
    | Complete(h: Handle, c: Completion)
    | CallFailed(i: nat, c: Completion)

  predicate InMode(s: State, h: Handle, mode: Mode)
  {
    h in s.frames && s.frames[h].mode == mode
  }

  predicate Enabled(s: State, e: Event)
  {
    match e
    case Call => true
    case Await(h) => InMode(s, h, Running)
    case Suspend(h) => InMode(s, h, Running)
    case Resume(i) => i < |s.held|
    case ReturnUnit(h) => InMode(s, h, Running) && s.frames[h].payload.Sub?
    case Destroy => s.pending != [] && s.pending[0] in s.frames
    case Complete(h, _) => InMode(s, h, Running)
    case CallFailed(i, c) => i < |s.held| && c.ReplyStatus?
  }

  function SetMode(s: State, h: Handle, mode: Mode): State
  {
    if h in s.frames then s.(frames := s.frames[h := s.frames[h].(mode := mode)]) else s
  }

  function New(s: State, payload: Payload): State
  {
    s.(frames := s.frames[s.next := Frame(payload, Running)], next := s.next + 1)
  }

  function Take(s: State, i: nat): State
    requires i < |s.held|
  {
    s.(held := s.held[..i] + s.held[i + 1..])
  }

  function WithDoomed(frames: map<Handle, Frame>, hs: seq<Handle>): map<Handle, Frame>
  {
    map h | h in frames :: if h in hs then frames[h].(mode := Doomed) else frames[h]
  }

  function ReplyTo(chain: seq<Handle>, c: Completion): seq<Reply>
    requires chain != []
  {
    if Replies(c) then [Reply(chain[0], c)] else []
  }

  /** An error completion of `h`: one reply at most, and the whole chain is to be destroyed, outermost first. */
  function Failed(s: State, h: Handle, c: Completion): State
  {
    var chain := Chain(s.frames, h);
    s.(frames := WithDoomed(s.frames, chain), pending := chain + s.pending, replies := s.replies + ReplyTo(chain, c))
  }

  /** The same with the destructions done, if they run nothing else. */
  function Completed(s: State, h: Handle, c: Completion): State
  {
    var chain := Chain(s.frames, h);
    s.(frames := Without(s.frames, chain), destroyed := s.destroyed + chain, replies := s.replies + ReplyTo(chain, c))
  }

  function DestroyFirst(s: State): State
    requires s.pending != []
  {
    s.(frames := s.frames - {s.pending[0]}, destroyed := s.destroyed + [s.pending[0]], pending := s.pending[1..])
  }

  function Next(s: State, e: Event): State
    requires Enabled(s, e)
  {
    match e
    case Call => New(s, Root)
    case Await(h) => New(SetMode(s, h, Awaiting), Sub(h))
    case Suspend(h) => SetMode(s.(held := s.held + [h]), h, Waiting)
    case Resume(i) => SetMode(Take(s, i), s.held[i], Running)
    case ReturnUnit(h) =>
      SetMode(SetMode(s.(pending := [h] + s.pending), h, Finished), s.frames[h].payload.parent, Running)
    case Destroy => DestroyFirst(s)
    case Complete(h, c) => Failed(s, h, c)
    case CallFailed(i, c) => Failed(Take(s, i), s.held[i], c)
  }

  /** A run. */
  ghost predicate Run(s: State, es: seq<Event>, s': State)
    decreases |es|
  {
    if es == [] then s' == s else Enabled(s, es[0]) && Run(Next(s, es[0]), es[1..], s')
  }

  // ----- Invariant ---------------------------------------------------------

  /** The frame has not completed. */
  predicate Open(m: Mode)
  {
    m != Finished && m != Doomed
  }

  /** Open frames serve an older frame that awaits them; completed ones are to be destroyed. */
  ghost predicate FrameOk(s: State, h: Handle)
  {
    h in s.frames ==>
      && h < s.next
      && (s.frames[h].payload.Sub? && Open(s.frames[h].mode) ==>
           s.frames[h].payload.parent < h && InMode(s, s.frames[h].payload.parent, Awaiting))
      && (s.frames[h].mode == Waiting <==> h in s.held)
      && (Open(s.frames[h].mode) <==> h !in s.pending)
      && h !in s.destroyed
  }

  /** A frame awaits one sub-coroutine at a time. */
  ghost predicate OneChild(s: State, g: Handle, h: Handle)
  {
    Serves(s, g) && Serves(s, h) && s.frames[g].payload == s.frames[h].payload ==> g == h
  }

  ghost predicate Serves(s: State, h: Handle)
  {
    h in s.frames && s.frames[h].payload.Sub? && Open(s.frames[h].mode)
  }

  ghost predicate NoRepeats(hs: seq<Handle>)
  {
    forall i, j | 0 <= i < j < |hs| :: hs[i] != hs[j]
  }

  ghost predicate RepliesOk(s: State)
  {
    && (forall r | r in s.replies :: r.root < s.next && Replies(r.completion))
    && (forall r | r in s.replies && r.root in s.frames :: s.frames[r.root].mode == Doomed)
    && (forall i, j | 0 <= i < j < |s.replies| :: s.replies[i].root != s.replies[j].root)
  }

  ghost predicate Inv(s: State)
  {
    && (forall h :: FrameOk(s, h))
    && (forall g, h :: OneChild(s, g, h))
    && (forall h | h in s.held :: h in s.frames)
    && (forall h | h in s.pending :: h in s.frames)
    && (forall h | h in s.destroyed :: h < s.next)
    && NoRepeats(s.held) && NoRepeats(s.pending) && NoRepeats(s.destroyed) && RepliesOk(s)
  }

  // ----- The chain of a frame ----------------------------------------------

  /** The frames above an open frame exist and await, each serving the one before; the first is a root. */
  lemma {:induction false} AncestorsOk(s: State, h: Handle)
    requires Inv(s) && h in s.frames && Open(s.frames[h].mode)
    ensures var c := Chain(s.frames, h);
            && (forall i | 0 <= i < |c| - 1 :: InMode(s, c[i], Awaiting))
            && (forall i | 0 < i < |c| :: c[i] in s.frames && s.frames[c[i]].payload == Sub(c[i - 1]) && c[i - 1] < c[i])
            && s.frames[c[0]].payload == Root
            && (forall i | 0 <= i < |c| - 1 :: c[i] < h)
    decreases h
  {
    assert FrameOk(s, h);
    if s.frames[h].payload.Sub? {
      var p := s.frames[h].payload.parent;
      hide Inv;
      AncestorsOk(s, p);
      assert Chain(s.frames, h) == Chain(s.frames, p) + [h];
    }
  }

  lemma {:induction false} ChainDistinct(s: State, h: Handle, i: nat, j: nat)
    requires Inv(s) && h in s.frames && Open(s.frames[h].mode) && i < j < |Chain(s.frames, h)|
    ensures Chain(s.frames, h)[i] < Chain(s.frames, h)[j]
    decreases j
  {
    AncestorsOk(s, h);
    if i < j - 1 { ChainDistinct(s, h, i, j - 1); }
  }

  /** The frames of a chain are open, and kept nowhere but in the last of them. */
  lemma {:induction false} ChainFree(s: State, h: Handle)
    requires Inv(s) && InMode(s, h, Running)
    ensures forall g | g in Chain(s.frames, h) ::
              g in s.frames && Open(s.frames[g].mode) && g !in s.held && g !in s.pending && g !in s.destroyed && g < s.next
    ensures NoRepeats(Chain(s.frames, h))
  {
    var chain := Chain(s.frames, h);
    AncestorsOk(s, h);
    forall i, j | 0 <= i < j < |chain| ensures chain[i] != chain[j] { ChainDistinct(s, h, i, j); }
    forall g | g in chain
      ensures g in s.frames && Open(s.frames[g].mode) && g !in s.held && g !in s.pending && g !in s.destroyed && g < s.next
    {
      assert FrameOk(s, g);
    }
  }

  /** Whoever serves a frame above `h` is on the chain of `h`. */
  lemma {:induction false} ChainClosed(s: State, h: Handle, g: Handle)
    requires Inv(s) && InMode(s, h, Running)
    requires Serves(s, g) && s.frames[g].payload.parent in Chain(s.frames, h)
    ensures g in Chain(s.frames, h)
  {
    var c := Chain(s.frames, h);
    AncestorsOk(s, h);
    assert FrameOk(s, g);
    var i :| 0 <= i < |c| && c[i] == s.frames[g].payload.parent;
    assert i < |c| - 1;
    assert InMode(s, c[i], Awaiting) && s.frames[c[i + 1]].payload == Sub(c[i]);
    assert Serves(s, c[i + 1]);
    assert OneChild(s, g, c[i + 1]);
  }

  // ----- Every step keeps the invariant ------------------------------------

  lemma {:induction false} FailedFrames(s: State, h: Handle, c: Completion, g: Handle)
    requires Inv(s) && InMode(s, h, Running)
    ensures FrameOk(Failed(s, h, c), g)
  {
    var chain, s' := Chain(s.frames, h), Failed(s, h, c);
    ChainFree(s, h);
    assert FrameOk(s, g);
    if Serves(s, g) && g !in chain {
      if s.frames[g].payload.parent in chain { ChainClosed(s, h, g); }
    }
  }

  lemma {:induction false} NoRepeatsConcat(a: seq<Handle>, b: seq<Handle>)
    requires NoRepeats(a) && NoRepeats(b) && forall h | h in a :: h !in b
    ensures NoRepeats(a + b)
  {
    var c := a + b;
    forall i, j | 0 <= i < j < |c| ensures c[i] != c[j] {
      if i < |a| <= j { assert a[i] in a && b[j - |a|] in b; }
    }
  }

  lemma {:induction false} FailedInv(s: State, h: Handle, c: Completion)
    requires Inv(s) && InMode(s, h, Running)
    ensures Inv(Failed(s, h, c))
  {
    var chain, s' := Chain(s.frames, h), Failed(s, h, c);
    ChainFree(s, h);
    forall g ensures FrameOk(s', g) { FailedFrames(s, h, c, g); }
    forall f, g ensures OneChild(s', f, g) { assert OneChild(s, f, g); }
    assert chain[0] in chain;
    hide Chain;
    NoRepeatsConcat(chain, s.pending);
  }

  lemma {:induction false} ResumeInv(s: State, i: nat)
    requires Inv(s) && i < |s.held|
    ensures s.held[i] in s.frames && Inv(SetMode(Take(s, i), s.held[i], Running))
  {
    var h, s' := s.held[i], SetMode(Take(s, i), s.held[i], Running);
    assert FrameOk(s, h);
    assert forall g | g != h :: g in s'.held <==> g in s.held;
    forall g ensures FrameOk(s', g) {
      assert FrameOk(s, g);
    }
    forall f, g ensures OneChild(s', f, g) { assert OneChild(s, f, g); }
  }

  lemma {:induction false} AncestorsByPayload(frames: map<Handle, Frame>, frames': map<Handle, Frame>, h: Handle)
    requires frames.Keys == frames'.Keys && forall g | g in frames :: frames[g].payload == frames'[g].payload
    ensures Ancestors(frames, h) == Ancestors(frames', h)
    decreases h
  {
    if h in frames && frames[h].payload.Sub? && frames[h].payload.parent < h {
      AncestorsByPayload(frames, frames', frames[h].payload.parent);
    }
  }

  /** A failed call is like resuming the frame only to let it fail. */
  lemma {:induction false} CallFailedIs(s: State, i: nat, c: Completion)
    requires Inv(s) && i < |s.held|
    ensures var h, s1 := s.held[i], SetMode(Take(s, i), s.held[i], Running);
            Failed(Take(s, i), h, c) == Failed(s1, h, c) && Completed(Take(s, i), h, c) == Completed(s1, h, c)
  {
    var h, s1 := s.held[i], SetMode(Take(s, i), s.held[i], Running);
    AncestorsByPayload(s.frames, s1.frames, h);
    var chain := Chain(s.frames, h);
    assert h in chain;
    assert Without(s.frames, chain) == Without(s1.frames, chain);
    assert WithDoomed(s.frames, chain) == WithDoomed(s1.frames, chain);
  }

  lemma {:induction false} NewInv(s: State, e: Event)
    requires Inv(s) && Enabled(s, e) && (e.Call? || e.Await?)
    ensures Inv(Next(s, e))
  {
    var s' := Next(s, e);
    forall g ensures FrameOk(s', g) {
      assert FrameOk(s, g) && FrameOk(s, s.next);
      if Serves(s, g) { assert FrameOk(s, s.frames[g].payload.parent); }
      if e.Await? { assert FrameOk(s, e.h); }
    }
    forall f, g ensures OneChild(s', f, g) {
      assert OneChild(s, f, g) && FrameOk(s, f) && FrameOk(s, g);
    }
    forall h | h in s'.held || h in s'.pending ensures h in s'.frames { assert FrameOk(s, h); }
  }

  lemma {:induction false} SuspendInv(s: State, h: Handle)
    requires Inv(s) && InMode(s, h, Running)
    ensures Inv(Next(s, Suspend(h)))
  {
    var s' := Next(s, Suspend(h));
    assert FrameOk(s, h);
    forall g ensures FrameOk(s', g) { assert FrameOk(s, g); }
    forall f, g ensures OneChild(s', f, g) { assert OneChild(s, f, g); }
  }

  lemma {:induction false} ReturnUnitInv(s: State, h: Handle)
    requires Inv(s) && Enabled(s, ReturnUnit(h))
    ensures Inv(Next(s, ReturnUnit(h)))
  {
    var s' := Next(s, ReturnUnit(h));
    assert FrameOk(s, h) && Serves(s, h);
    forall g ensures FrameOk(s', g) { assert FrameOk(s, g) && OneChild(s, h, g); }
    forall f, g ensures OneChild(s', f, g) { assert OneChild(s, f, g); }
  }

  lemma {:induction false} DestroyInv(s: State)
    requires Inv(s) && Enabled(s, Destroy)
    ensures Inv(Next(s, Destroy))
  {
    var h, s' := s.pending[0], Next(s, Destroy);
    assert FrameOk(s, h);
    assert forall g | g != h :: g in s'.pending <==> g in s.pending;
    forall g ensures FrameOk(s', g) { assert FrameOk(s, g); }
    forall f, g ensures OneChild(s', f, g) { assert OneChild(s, f, g); }
    forall g | g in s'.held || g in s'.pending ensures g in s'.frames { assert g in s.frames && FrameOk(s, g); }
  }

  lemma {:induction false} NextInv(s: State, e: Event)
    requires Inv(s) && Enabled(s, e)
    ensures Inv(Next(s, e))
  {
    hide Inv, SetMode, Take, Failed;
    match e {
      case Complete(h, c) => FailedInv(s, h, c);
      case CallFailed(i, c) =>
        ResumeInv(s, i);
        CallFailedIs(s, i, c);
        ResumedRuns(s, i);
        FailedInv(SetMode(Take(s, i), s.held[i], Running), s.held[i], c);
      case Resume(i) => ResumeInv(s, i);
      case Call => NewInv(s, e);
      case Await(_) => NewInv(s, e);
      case Suspend(h) => SuspendInv(s, h);
      case ReturnUnit(h) => ReturnUnitInv(s, h);
      case Destroy => DestroyInv(s);
    }
  }

  lemma {:induction false} ResumedRuns(s: State, i: nat)
    requires i < |s.held| && s.held[i] in s.frames
    ensures InMode(SetMode(Take(s, i), s.held[i], Running), s.held[i], Running)
  {
  }

  lemma {:induction false} RunInv(s: State, es: seq<Event>, s': State)
    requires Inv(s) && Run(s, es, s')
    ensures Inv(s')
    decreases |es|
  {
    if es != [] {
      hide Inv;
      NextInv(s, es[0]);
      RunInv(Next(s, es[0]), es[1..], s');
    }
  }

  /**
    Frame discipline.  After any run, no frame has been destroyed twice, no frame has answered its
    message twice, and every handle kept in a queue, a callback list or a pending call, every frame due
    to be destroyed, and the parent of every frame still to complete, is a frame that exists.
   */
  lemma {:induction false} FrameDiscipline(es: seq<Event>, s: State)
    requires Run(Initial, es, s)
    ensures NoRepeats(s.destroyed) && forall h | h in s.destroyed :: h !in s.frames
    ensures forall i, j | 0 <= i < j < |s.replies| :: s.replies[i].root != s.replies[j].root
    ensures NoRepeats(s.held) && forall h | h in s.held :: InMode(s, h, Waiting)
    ensures NoRepeats(s.pending) && forall h | h in s.pending :: h in s.frames && !Open(s.frames[h].mode)
    ensures forall h | Serves(s, h) :: InMode(s, s.frames[h].payload.parent, Awaiting)
  {
    InitialInv();
    RunInv(Initial, es, s);
    forall h | h in s.destroyed ensures h !in s.frames { assert FrameOk(s, h); }
    forall h | h in s.held ensures InMode(s, h, Waiting) { assert FrameOk(s, h); }
    forall h | h in s.pending ensures h in s.frames && !Open(s.frames[h].mode) { assert FrameOk(s, h); }
    forall h | Serves(s, h) ensures InMode(s, s.frames[h].payload.parent, Awaiting) { assert FrameOk(s, h); }
  }

  // ----- Error completions -------------------------------------------------

  /**
    What an error completion does at once, after any run: the frames from the root down to `h`, none of
    them kept anywhere, are put on top of those to be destroyed, outermost first; no other frame and
    no handle changes; the message at the root is answered exactly if the completion is an error or a
    negative status.
   */
  lemma {:induction false} CompletionEffect(es: seq<Event>, s: State, h: Handle, c: Completion)
    requires Run(Initial, es, s) && InMode(s, h, Running)
    ensures var s', chain := Next(s, Complete(h, c)), Chain(s.frames, h);
            && s'.pending == chain + s.pending && s'.destroyed == s.destroyed && chain[|chain| - 1] == h
            && chain[0] in s.frames && s.frames[chain[0]].payload == Root
            && (forall i | 0 < i < |chain| :: chain[i] in s.frames && s.frames[chain[i]].payload == Sub(chain[i - 1]))
            && (forall i, j | 0 <= i < j < |chain| :: chain[i] < chain[j])
            && (forall g | g in chain :: InMode(s', g, Doomed) && g !in s.destroyed && g !in s.held)
            && (forall g | g in s.frames && g !in chain :: g in s'.frames && s'.frames[g] == s.frames[g])
            && s'.held == s.held
            && (forall r | r in s.replies :: r.root != chain[0])
            && s'.replies == s.replies + if c.ReplyError? || c.code < 0 then [Reply(chain[0], c)] else []
  {
    InitialInv();
    RunInv(Initial, es, s);
    AncestorsOk(s, h);
    ChainFree(s, h);
    var chain := Chain(s.frames, h);
    forall i, j | 0 <= i < j < |chain| ensures chain[i] < chain[j] { ChainDistinct(s, h, i, j); }
    assert chain[0] in chain;
  }

  /** The first `j` of the frames have been destroyed, the others not yet. */
  ghost predicate DestroyedUpTo(s: State, chain: seq<Handle>, j: nat)
  {
    && j <= |chain|
    && (forall i | 0 <= i < j :: chain[i] in s.destroyed && chain[i] !in s.frames)
    && (forall i | j <= i < |chain| :: chain[i] !in s.destroyed && chain[i] in s.frames)
  }

  ghost predicate Due(s: State, chain: seq<Handle>, j: nat, above: seq<Handle>, below: seq<Handle>)
  {
    DestroyedUpTo(s, chain, j) && s.pending == above + chain[j..] + below
  }

  lemma {:induction false} DueNext(
      s: State, e: Event, chain: seq<Handle>, j: nat, above: seq<Handle>, below: seq<Handle>)
      returns (j': nat, above': seq<Handle>, below': seq<Handle>)
    requires Inv(s) && Enabled(s, e) && Due(s, chain, j, above, below) && forall g | g in chain :: g < s.next
    ensures j <= j' <= j + 1 && Due(Next(s, e), chain, j', above', below')
    ensures s.next <= Next(s, e).next
  {
    hide Inv, Next, Enabled, Due;
    NextGrows(s, e);
    if e.Destroy? {
      j', above', below' := DueDestroy(s, chain, j, above, below);
    } else {
      j', below' := j, below;
      above' := DuePush(s, e, chain, j, above, below);
    }
  }

  lemma {:induction false} DuePush(s: State, e: Event, chain: seq<Handle>, j: nat, above: seq<Handle>, below: seq<Handle>)
      returns (above': seq<Handle>)
    requires Enabled(s, e) && !e.Destroy? && Due(s, chain, j, above, below) && forall g | g in chain :: g < s.next
    ensures Due(Next(s, e), chain, j, above', below)
  {
    DestroyedSame(s, e, chain, j);
    PendingPushed(s, e);
    var later := chain[j..];
    hide Next, Enabled, DestroyedUpTo;
    var pushed :| Next(s, e).pending == pushed + s.pending;
    above' := pushed + above;
    Regroup(pushed, above, later, below);
  }

  lemma {:induction false} Regroup(a: seq<Handle>, b: seq<Handle>, c: seq<Handle>, d: seq<Handle>)
    ensures a + (b + c + d) == a + b + c + d
    ensures b != [] ==> (b + c + d)[1..] == b[1..] + c + d
    ensures c != [] ==> ([] + c + d)[1..] == [] + c[1..] + d
    ensures d != [] ==> ([] + [] + d)[1..] == [] + [] + d[1..]
  {
  }

  lemma {:induction false} DueDestroy(s: State, chain: seq<Handle>, j: nat, above: seq<Handle>, below: seq<Handle>)
      returns (j': nat, above': seq<Handle>, below': seq<Handle>)
    requires Inv(s) && Enabled(s, Destroy) && Due(s, chain, j, above, below)
    ensures j <= j' <= j + 1 && Due(Next(s, Destroy), chain, j', above', below')
  {
    DestroyDue(s, chain, j, above, below);
    NextDestroys(s);
    var later := chain[j..];
    assert j < |chain| ==> later[1..] == chain[j + 1..];
    assert j == |chain| ==> later == [];
    hide Inv, Next, Enabled, DestroyedUpTo;
    Regroup([], above, later, below);
    j', above', below' := j, [], below;
    if above != [] {
      above' := above[1..];
    } else if j < |chain| {
      j' := j + 1;
    } else {
      assert [] + [] + below == below;
      below' := below[1..];
    }
  }

  lemma {:induction false} NextDestroys(s: State)
    requires Enabled(s, Destroy)
    ensures s.pending != [] && Next(s, Destroy).pending == s.pending[1..]
  {
  }

  lemma {:induction false} NextGrows(s: State, e: Event)
    requires Enabled(s, e)
    ensures s.next <= Next(s, e).next
  {
  }

  lemma {:induction false} PendingPushed(s: State, e: Event)
    requires Enabled(s, e) && !e.Destroy?
    ensures exists pushed :: Next(s, e).pending == pushed + s.pending
  {
    var s' := Next(s, e);
    match e {
      case Complete(h, c) => assert s'.pending == Chain(s.frames, h) + s.pending;
      case CallFailed(i, c) => assert s'.pending == Chain(s.frames, s.held[i]) + s.pending;
      case ReturnUnit(h) => assert s'.pending == [h] + s.pending;
      case _ => assert s'.pending == [] + s.pending;
    }
  }

  lemma {:induction false} DestroyedSame(s: State, e: Event, chain: seq<Handle>, j: nat)
    requires Enabled(s, e) && !e.Destroy? && DestroyedUpTo(s, chain, j) && forall g | g in chain :: g < s.next
    ensures DestroyedUpTo(Next(s, e), chain, j)
  {
    var s' := Next(s, e);
    assert s'.destroyed == s.destroyed;
    assert forall g: Handle | g < s.next :: g in s'.frames <==> g in s.frames;
    forall i | 0 <= i < |chain| ensures chain[i] in s'.frames <==> chain[i] in s.frames { assert chain[i] in chain; }
  }

  lemma {:induction false} DestroyDue(s: State, chain: seq<Handle>, j: nat, above: seq<Handle>, below: seq<Handle>)
    requires Inv(s) && Enabled(s, Destroy) && Due(s, chain, j, above, below)
    ensures DestroyedUpTo(Next(s, Destroy), chain, if above == [] && j < |chain| then j + 1 else j)
  {
    var s' := Next(s, Destroy);
    var h := s.pending[0];
    forall i | j <= i < |chain| && !(above == [] && i == j) ensures chain[i] != h {
      assert s.pending[|above| + (i - j)] == chain[j..][i - j];
    }
    if above == [] && j < |chain| { assert h == chain[j..][0]; }
    assert forall g | g != h :: g in s'.frames <==> g in s.frames;
    assert forall g | g != h :: g in s'.destroyed <==> g in s.destroyed;
  }

  lemma {:induction false} InitialInv()
    ensures Inv(Initial)
  {
  }

  lemma {:induction false} CompleteDue(s: State, h: Handle, c: Completion)
    requires Inv(s) && InMode(s, h, Running)
    ensures Enabled(s, Complete(h, c))
    ensures var s', chain := Next(s, Complete(h, c)), Chain(s.frames, h);
            Due(s', chain, 0, [], s.pending) && forall g | g in chain :: g < s'.next
  {
    ChainFree(s, h);
    hide Inv;
    var chain := Chain(s.frames, h);
    assert forall i | 0 <= i < |chain| :: chain[i] in chain;
    assert chain[0..] == chain && [] + chain + s.pending == chain + s.pending;
  }

  /**
    An error completion, followed by any steps: at every moment the frames from the root down to the
    failing one have been destroyed up to some point, outermost first, and a step destroys at most the
    next one.
   */
  lemma {:induction false} DestroyedOutermostFirst(es: seq<Event>, s: State, h: Handle, c: Completion, later: seq<Event>, s': State)
      returns (js: seq<nat>)
    requires Run(Initial, es, s) && InMode(s, h, Running) && Run(Next(s, Complete(h, c)), later, s')
    ensures |js| == |later| + 1 && js[0] == 0 && forall k | 0 < k < |js| :: js[k - 1] <= js[k] <= js[k - 1] + 1
    ensures forall k, m | 0 <= k <= |later| && Run(Next(s, Complete(h, c)), later[..k], m) ::
              DestroyedUpTo(m, Chain(s.frames, h), js[k])
    ensures s'.pending == [] ==> js[|later|] == |Chain(s.frames, h)|
  {
    InitialInv();
    hide Inv, Chain, Next, Enabled, Due, DestroyedUpTo;
    RunInv(Initial, es, s);
    CompleteDue(s, h, c);
    var chain, s1 := Chain(s.frames, h), Next(s, Complete(h, c));
    NextInv(s, Complete(h, c));
    js := FollowDue(s1, later, s', chain, 0, [], s.pending);
    assert later[..|later|] == later;
    if s'.pending == [] { NonePending(s', chain, js[|later|]); }
  }

  lemma {:induction false} NonePending(s: State, chain: seq<Handle>, j: nat)
    requires s.pending == [] && DestroyedUpTo(s, chain, j) && PendingOrGone(s, chain)
    ensures j == |chain|
  {
    var g := if j < |chain| then chain[j] else 0;
    assert g in chain || j == |chain|;
  }

  ghost predicate PendingOrGone(s: State, chain: seq<Handle>)
  {
    forall g | g in chain && g in s.frames :: g in s.pending
  }

  lemma {:induction false} FollowDue(
      s: State, es: seq<Event>, s': State, chain: seq<Handle>, j: nat, above: seq<Handle>, below: seq<Handle>)
      returns (js: seq<nat>)
    requires Inv(s) && Run(s, es, s') && Due(s, chain, j, above, below) && forall g | g in chain :: g < s.next
    ensures |js| == |es| + 1 && js[0] == j && forall k | 0 < k < |js| :: js[k - 1] <= js[k] <= js[k - 1] + 1
    ensures forall k, m | 0 <= k <= |es| && Run(s, es[..k], m) :: DestroyedUpTo(m, chain, js[k])
    ensures PendingOrGone(s', chain)
    decreases |es|
  {
    if es == [] {
      js := [j];
      assert DestroyedUpTo(s, chain, j);
      DueIsPending(s, chain, j, above, below);
    } else {
      var j', above', below' := DueNext(s, es[0], chain, j, above, below);
      NextInv(s, es[0]);
      assert DestroyedUpTo(s, chain, j);
      var s1 := Next(s, es[0]);
      hide Inv, Next, Enabled, Due, DestroyedUpTo, PendingOrGone;
      var rest := FollowDue(s1, es[1..], s', chain, j', above', below');
      js := [j] + rest;
      forall k, m | 0 <= k <= |es| && Run(s, es[..k], m) ensures DestroyedUpTo(m, chain, js[k]) {
        if k > 0 {
          assert es[..k][0] == es[0] && es[..k][1..] == es[1..][..k - 1];
          assert Run(s1, es[1..][..k - 1], m);
        } else {
          assert es[..0] == [];
        }
      }
    }
  }

  lemma {:induction false} DueIsPending(s: State, chain: seq<Handle>, j: nat, above: seq<Handle>, below: seq<Handle>)
    requires Due(s, chain, j, above, below)
    ensures PendingOrGone(s, chain)
  {
    forall g | g in chain && g in s.frames ensures g in s.pending {
      var i :| 0 <= i < |chain| && chain[i] == g;
      assert s.pending[|above| + (i - j)] == chain[j..][i - j];
    }
  }

  // ----- Without interference ----------------------------------------------

  function Destructions(n: nat): (es: seq<Event>)
    ensures |es| == n && forall i | 0 <= i < n :: es[i] == Destroy
  {
    seq(n, i => Destroy)
  }

  lemma {:induction false} DestroyRun(s: State, chain: seq<Handle>, below: seq<Handle>)
    requires s.pending == chain + below && NoRepeats(chain) && forall g | g in chain :: g in s.frames
    ensures Run(s, Destructions(|chain|),
                s.(frames := Without(s.frames, chain), destroyed := s.destroyed + chain, pending := below))
    decreases |chain|
  {
    if chain == [] {
      assert Without(s.frames, []) == s.frames && s.destroyed + [] == s.destroyed && [] + below == below;
    } else {
      var h, rest, s1 := chain[0], chain[1..], DestroyFirst(s);
      FirstDestroyed(s, chain, below);
      assert Destructions(|chain|)[1..] == Destructions(|rest|);
      assert Enabled(s, Destroy) && Next(s, Destroy) == s1;
      hide Without, NoRepeats, Enabled, Next;
      DestroyRun(s1, rest, below);
    }
  }

  lemma {:induction false} FirstDestroyed(s: State, chain: seq<Handle>, below: seq<Handle>)
    requires s.pending == chain + below && chain != [] && NoRepeats(chain) && forall g | g in chain :: g in s.frames
    ensures var h, rest, s1 := chain[0], chain[1..], DestroyFirst(s);
            && h in s.frames && s.pending[0] == h && s1.pending == rest + below && NoRepeats(rest)
            && (forall g | g in rest :: g in s1.frames)
            && Without(s1.frames, rest) == Without(s.frames, chain)
            && s1.destroyed + rest == s.destroyed + chain
  {
    var h, rest, s1 := chain[0], chain[1..], DestroyFirst(s);
    assert chain == [h] + rest && h in chain;
    assert forall i | 0 <= i < |rest| :: rest[i] == chain[i + 1];
    assert h !in rest;
    assert forall g :: g in chain <==> g == h || g in rest;
    assert s1.pending == rest + below;
    assert s.destroyed + [h] + rest == s.destroyed + ([h] + rest);
  }

  /** If the destructions run nothing else, they follow at once. */
  lemma {:induction false} CompletedIsRun(s: State, h: Handle, c: Completion)
    requires Inv(s) && InMode(s, h, Running)
    ensures Run(s, [Complete(h, c)] + Destructions(|Chain(s.frames, h)|), Completed(s, h, c))
  {
    var chain, s1 := Chain(s.frames, h), Failed(s, h, c);
    ChainFree(s, h);
    DestroyRun(s1, chain, s.pending);
    assert Without(s1.frames, chain) == Without(s.frames, chain);
    assert ([Complete(h, c)] + Destructions(|chain|))[1..] == Destructions(|chain|);
  }

  // ----- The promise, in place ---------------------------------------------

  class Promises {
    var frames: map<Handle, Frame>
    var next: Handle
    var held: seq<Handle>
    var pending: seq<Handle>
    var destroyed: seq<Handle>
    var replies: seq<Reply>

    function Now(): State
      reads this
    {
      State(frames, next, held, pending, destroyed, replies)
    }

    constructor ()
      ensures Now() == Initial
    {
      frames, next, held, pending, destroyed, replies := map[], 0, [], [], [], [];
    }

    method DestroyFrame(h: Handle)
      requires h in frames
      modifies this
      ensures Now() == old(Now()).(frames := old(frames) - {h}, destroyed := old(destroyed) + [h])
    {
      frames := frames - {h};
      destroyed := destroyed + [h];
    }

    /** `return_value` for errors and statuses: up to the root first, then the parents are destroyed. */
    method ReturnValue(h: Handle, c: Completion)
      requires Inv(Now()) && h in frames && Open(frames[h].mode)
      modifies this
      ensures var s, above := old(Now()), Ancestors(old(frames), h);
              Now() == s.(frames := Without(s.frames, above), destroyed := s.destroyed + above,
                          replies := s.replies + ReplyTo(Chain(s.frames, h), c))
      decreases h
    {
      ghost var s := Now();
      assert FrameOk(s, h);
      if frames[h].payload.Root? {
        if Replies(c) { replies := replies + [Reply(h, c)]; }
        assert Without(s.frames, []) == s.frames;
        return;
      }
      var p := frames[h].payload.parent;
      AncestorsBelow(s.frames, p);
      ReturnValue(p, c);
      assert Without(s.frames, Ancestors(s.frames, p)) - {p} == Without(s.frames, Ancestors(s.frames, h));
      assert s.destroyed + Ancestors(s.frames, p) + [p] == s.destroyed + Ancestors(s.frames, h);
      DestroyFrame(p);
    }

    /** `co_return` of an error or a status; the frame ends after `return_value`. */
    method CoReturn(h: Handle, c: Completion)
      requires Inv(Now()) && h in frames && Open(frames[h].mode)
      modifies this
      ensures Now() == Completed(old(Now()), h, c)
    {
      ghost var s := Now();
      AncestorsBelow(s.frames, h);
      ReturnValue(h, c);
      assert Without(s.frames, Ancestors(s.frames, h)) - {h} == Without(s.frames, Chain(s.frames, h));
      assert s.destroyed + Ancestors(s.frames, h) + [h] == s.destroyed + Chain(s.frames, h);
      DestroyFrame(h);
    }

    /** `yield_value`: a negative code completes the frame, any other lets it run on. */
    method YieldValue(h: Handle, code: int) returns (runsOn: bool)
      requires Inv(Now()) && InMode(Now(), h, Running)
      modifies this
      ensures runsOn <==> code >= 0
      ensures Now() == if runsOn then old(Now()) else Completed(old(Now()), h, ReplyStatus(code))
    {
      if code < 0 {
        CoReturn(h, ReplyStatus(code));
      }
      runsOn := code >= 0;
    }

    /** The end of an asynchronous call: an error reply completes the frame with its negated errno. */
    method OnCallReply(i: nat, error: bool, errno: nat)
      requires Inv(Now()) && i < |held|
      modifies this
      ensures var s := old(Now());
              Now() == if error then Completed(Take(s, i), s.held[i], ReplyStatus(-(errno as int))) else Next(s, Resume(i))
    {
      ResumeInv(Now(), i);
      CallFailedIs(Now(), i, ReplyStatus(-(errno as int)));
      var h := held[i];
      held := held[..i] + held[i + 1..];
      frames := frames[h := frames[h].(mode := Running)];
      if error {
        CoReturn(h, ReplyStatus(-(errno as int)));
      }
    }

    /** `return_value(unit)`: the parent runs on; returning from a root frame is fatal. */
    method CoReturnUnit(h: Handle) returns (fatal: bool)
      requires Inv(Now()) && InMode(Now(), h, Running)
      modifies this
      ensures fatal <==> old(frames)[h].payload.Root?
      ensures Now() == if fatal then old(Now()) else Next(old(Now()), ReturnUnit(h))
    {
      assert FrameOk(Now(), h);
      if frames[h].payload.Root? {
        return true;
      }
      var p := frames[h].payload.parent;
      frames := frames[h := frames[h].(mode := Finished)];
      pending := [h] + pending;
      frames := frames[p := frames[p].(mode := Running)];
      fatal := false;
    }
  }

  lemma {:induction false} AncestorsBelow(frames: map<Handle, Frame>, h: Handle)
    ensures forall g | g in Ancestors(frames, h) :: g < h
    decreases h
  {
    if h in frames && frames[h].payload.Sub? && frames[h].payload.parent < h {
      AncestorsBelow(frames, frames[h].payload.parent);
    }
  }
}
