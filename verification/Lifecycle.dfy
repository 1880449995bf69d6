/**
  The Start and Stop requests of entities as a state machine.

  A request is a chain of coroutine frames: a Start frame for the requested
  name, then one for its uplink, and so on.  The daemon is single threaded, so
  between two suspension points the C++ call stack decides what runs next.
  `State.stack` is that call stack, innermost first: its head is the frame that
  runs now, everything below is a frame that has completed and is still to be
  destroyed.  The environment acts only when the stack is empty.
 */
module Lifecycle {
  import opened Uplinks

  /** A coroutine frame: which request, and how many uplinks above the requested name. */
  datatype Ref = Ref(req: nat, depth: nat)

  datatype Op = Start | Stop

  datatype Phase =
    | Queued                // suspended in the queue of its name
    | Granted               // was handed the token, runs the body next
    | AwaitUplink           // owns the token, suspended on the Start of its uplink
    | Resumed               // owns the token, the Start of its uplink has returned
    | Setup(stage: nat)     // owns the token, the entity is live, waits for an answer
    | Stopping(stage: nat)  // Stop: 0 awaits Shutdown, 1 awaits StopUnit, 2 awaits the job
    | Leaving               // completed, destruction pending, still owns the token
    | Gone                  // destroyed

  datatype Frame = Frame(name: Name, phase: Phase)

  /** How a root coroutine completes. */
  datatype Completion = Done | Error | Status(code: int)

  datatype Request = Request(op: Op, frames: seq<Frame>, completions: seq<Completion>)

  datatype Queue = Queue(held: bool, waiting: seq<Ref>)

  /** What has happened so far; read by the properties only. */
  datatype Log = Log(
    arrived: map<Name, seq<Ref>>,
    granted: map<Name, seq<Ref>>,
    spawned: multiset<Name>,
    reaped: multiset<Name>,
    orphaned: multiset<Name>)

  datatype State = State(
    queues: map<Name, Queue>,
    live: set<Name>,
    reqs: seq<Request>,
    stack: seq<Ref>,
    log: Log)

  /** Outcome of the system calls between the uplink being up and the first suspension. */
  datatype SpawnOutcome =
    | NoProcess(errno: int)   // socketpair or fork failed
    | NoBus(code: int)        // forked, but no sd_bus could be allocated
    | LateFailure(code: int)  // live, but a later bus call failed
    | Connected

  datatype Answer = Ok | Refused(completion: Completion)

  datatype Event =
    | StartRequest(name: Name)
    | StopRequest(name: Name)
    | Reply(frame: Ref, answer: Answer)
    | Run(outcome: SpawnOutcome)

  const Initial := State(map[], {}, [], [], Log(map[], map[], multiset{}, multiset{}, multiset{}))

  // ----- Access ------------------------------------------------------------

  /** `_get_queue_by_name`: a missing queue is free and empty. */
  function QueueOf(s: State, n: Name): Queue
  {
    if n in s.queues then s.queues[n] else Queue(false, [])
  }

  function Arrived(s: State, n: Name): seq<Ref>
  {
    if n in s.log.arrived then s.log.arrived[n] else []
  }

  function GrantedTo(s: State, n: Name): seq<Ref>
  {
    if n in s.log.granted then s.log.granted[n] else []
  }

  predicate Valid(s: State, f: Ref)
  {
    f.req < |s.reqs| && f.depth < |s.reqs[f.req].frames|
  }

  function At(s: State, f: Ref): Frame
    requires Valid(s, f)
  {
    s.reqs[f.req].frames[f.depth]
  }

  predicate Alive(p: Phase)
  {
    p != Leaving && p != Gone
  }

  /** The frame holds a live `queue_token`. */
  predicate Owns(p: Phase)
  {
    p != Queued && p != Gone
  }

  /** The frame has something left to run before the event loop gets control back. */
  predicate Active(p: Phase)
  {
    p == Granted || p == Resumed || p == Leaving
  }

  /** The frame waits for a method reply or a signal. */
  predicate Suspended(p: Phase)
  {
    p.Setup? || p.Stopping?
  }

  function Stages(e: Entity): nat
  {
    4 + e.components
  }

  // ----- Primitive updates -------------------------------------------------

  function SetPhase(s: State, f: Ref, p: Phase): State
    requires Valid(s, f)
  {
    var r := s.reqs[f.req];
    s.(reqs := s.reqs[f.req := r.(frames := r.frames[f.depth := r.frames[f.depth].(phase := p)])])
  }

  function Complete(s: State, r: nat, c: Completion): State
    requires r < |s.reqs|
  {
    s.(reqs := s.reqs[r := s.reqs[r].(completions := s.reqs[r].completions + [c])])
  }

  function SetQueue(s: State, n: Name, q: Queue): State
  {
    s.(queues := s.queues[n := q])
  }

  function LogArrival(s: State, n: Name, f: Ref): State
  {
    s.(log := s.log.(arrived := s.log.arrived[n := Arrived(s, n) + [f]]))
  }

  function LogGrant(s: State, n: Name, f: Ref): State
  {
    s.(log := s.log.(granted := s.log.granted[n := GrantedTo(s, n) + [f]]))
  }

  // ----- Queue -------------------------------------------------------------

  /** `co_await enqueue()` by a frame that has just been created as `Queued`. */
  function Enqueue(s: State, f: Ref): State
    requires Valid(s, f)
  {
    var n := At(s, f).name;
    var q := QueueOf(s, n);
    var s1 := LogArrival(s, n, f);
    if q.held then
      SetQueue(s1, n, q.(waiting := q.waiting + [f]))
    else
      var s2 := SetQueue(s1, n, q.(held := true));
      var s3 := SetPhase(LogGrant(s2, n, f), f, Granted);
      s3.(stack := [f] + s3.stack)
  }

  /** `~queue_token`: release, and hand over to the head of the queue if there is one. */
  function Release(s: State, n: Name): State
    requires var q := QueueOf(s, n); q.waiting != [] ==> Valid(s, q.waiting[0])
  {
    var q := QueueOf(s, n);
    if q.waiting == [] then
      SetQueue(s, n, q.(held := false))
    else
      var w := q.waiting[0];
      var s1 := SetQueue(s, n, Queue(true, q.waiting[1..]));
      var s2 := SetPhase(LogGrant(s1, n, w), w, Granted);
      s2.(stack := [w] + s2.stack)
  }

  // ----- Completion --------------------------------------------------------

  /** `co_return unit`: the parent runs first, the frame is destroyed afterwards. */
  function ReturnUnit(s: State, f: Ref): State
    requires Valid(s, f)
  {
    var s1 := SetPhase(s, f, Leaving);
    if f.depth == 0 then
      var s2 := Complete(s1, f.req, Done);
      s2.(stack := [f] + s2.stack)
    else
      var parent := Ref(f.req, f.depth - 1);
      var s2 := SetPhase(s1, parent, Resumed);
      s2.(stack := [parent, f] + s2.stack)
  }

  function Outermost(r: nat, count: nat): seq<Ref>
  {
    seq(count, (i: nat) => Ref(r, i))
  }

  function Condemn(frames: seq<Frame>, count: nat): (r: seq<Frame>)
    requires count <= |frames|
    ensures |r| == |frames|
  {
    seq(|frames|, i requires 0 <= i < |frames| => if i < count then frames[i].(phase := Leaving) else frames[i])
  }

  /** An error completion: the root completes, then the frames are destroyed outermost first. */
  function Fail(s: State, f: Ref, c: Completion): State
    requires Valid(s, f)
  {
    var r := s.reqs[f.req];
    var r' := r.(frames := Condemn(r.frames, f.depth + 1), completions := r.completions + [c]);
    s.(reqs := s.reqs[f.req := r'], stack := Outermost(f.req, f.depth + 1) + s.stack)
  }

  // ----- Bodies ------------------------------------------------------------

  predicate Plausible(o: SpawnOutcome)
  {
    match o
    case NoProcess(errno) => errno > 0
    case NoBus(code) => code < 0
    case LateFailure(code) => code < 0
    case Connected => true
  }

  /** From `socketpair` to the first suspension of `entity::start`. */
  function Spawn(s: State, f: Ref, o: SpawnOutcome): State
    requires Valid(s, f)
  {
    var n := At(s, f).name;
    match o
    case NoProcess(errno) =>
      Fail(s, f, Status(errno))
    case NoBus(code) =>
      var log := s.log.(spawned := s.log.spawned + multiset{n}, orphaned := s.log.orphaned + multiset{n});
      Fail(s.(log := log), f, Status(code))
    case LateFailure(code) =>
      Fail(s.(log := s.log.(spawned := s.log.spawned + multiset{n}), live := s.live + {n}), f, Status(code))
    case Connected =>
      SetPhase(s.(log := s.log.(spawned := s.log.spawned + multiset{n}), live := s.live + {n}), f, Setup(0))
  }

  /** A new Start frame on the uplink `u`, awaited by `f`. */
  function StartUplink(s: State, f: Ref, u: Name): State
    requires Valid(s, f) && f.depth + 1 == |s.reqs[f.req].frames|
  {
    var s1 := SetPhase(s, f, AwaitUplink);
    var r := s1.reqs[f.req];
    var s2 := s1.(reqs := s1.reqs[f.req := r.(frames := r.frames + [Frame(u, Queued)])]);
    Enqueue(s2, Ref(f.req, f.depth + 1))
  }

  /** What a frame does once it has been handed the token. */
  function Body(t: Topology, s: State, f: Ref, o: SpawnOutcome): State
    requires Valid(s, f) && f.depth + 1 == |s.reqs[f.req].frames|
  {
    var n := At(s, f).name;
    if s.reqs[f.req].op == Start then
      if n in s.live then ReturnUnit(s, f)
      else if n in t && t[n].uplink.Some? then StartUplink(s, f, t[n].uplink.value)
      else Spawn(s, f, o)
    else
      if n !in s.live then Fail(s, f, Error)
      else SetPhase(s, f, Stopping(0))
  }

  /** Destruction of a frame that has completed: its token is released. */
  function Destroy(s: State, f: Ref): State
    requires Valid(s, f)
    requires var q := QueueOf(s, At(s, f).name); q.waiting != [] ==> Valid(s, q.waiting[0])
  {
    Release(SetPhase(s, f, Gone), At(s, f).name)
  }

  predicate CanRun(s: State)
  {
    && s.stack != []
    && var f := s.stack[0];
       && Valid(s, f)
       && (At(s, f).phase == Granted ==> f.depth + 1 == |s.reqs[f.req].frames|)
       && var q := QueueOf(s, At(s, f).name); q.waiting != [] ==> Valid(s, q.waiting[0])
  }

  /** One step of the frame on top of the call stack. */
  function RunTop(t: Topology, s: State, o: SpawnOutcome): State
    requires CanRun(s)
  {
    var f := s.stack[0];
    var s1 := s.(stack := s.stack[1..]);
    match At(s, f).phase
    case Granted => Body(t, s1, f, o)
    case Resumed => Spawn(s1, f, o)
    case _ => Destroy(s1, f)
  }

  // ----- Environment -------------------------------------------------------

  function Arrive(s: State, op: Op, n: Name): State
  {
    var f := Ref(|s.reqs|, 0);
    Enqueue(s.(reqs := s.reqs + [Request(op, [Frame(n, Queued)], [])]), f)
  }

  /** Signal results can be refused with an error; every other failure is a negative status. */
  predicate MayRefuse(p: Phase, c: Completion)
  {
    || (c.Status? && c.code < 0)
    || (c == Error && (p == Setup(1) || p == Setup(3) || p == Stopping(2)))
  }

  function ReapAndErase(s: State, n: Name): State
  {
    s.(live := s.live - {n}, log := s.log.(reaped := s.log.reaped + multiset{n}))
  }

  function HandleReply(t: Topology, s: State, f: Ref, a: Answer): State
    requires Valid(s, f)
  {
    var Frame(n, p) := At(s, f);
    match a
    case Refused(c) => Fail(s, f, c)
    case Ok =>
      match p
      case Setup(i) =>
        if n in t && i + 1 < Stages(t[n]) then SetPhase(s, f, Setup(i + 1)) else ReturnUnit(s, f)
      case Stopping(0) => SetPhase(ReapAndErase(s, n), f, Stopping(1))
      case Stopping(1) => SetPhase(s, f, Stopping(2))
      case _ => ReturnUnit(s, f)
  }

  // ----- Runs --------------------------------------------------------------

  predicate Enabled(t: Topology, s: State, e: Event)
  {
    match e
    case StartRequest(n) => s.stack == [] && n in t
    case StopRequest(n) => s.stack == [] && n in t
    case Reply(f, a) =>
      && s.stack == [] && Valid(s, f) && Suspended(At(s, f).phase)
      && (a.Refused? ==> MayRefuse(At(s, f).phase, a.completion))
    case Run(o) => CanRun(s) && Plausible(o)
  }

  function Next(t: Topology, s: State, e: Event): State
    requires Enabled(t, s, e)
  {
    match e
    case StartRequest(n) => Arrive(s, Start, n)
    case StopRequest(n) => Arrive(s, Stop, n)
    case Reply(f, a) => HandleReply(t, s, f, a)
    case Run(o) => RunTop(t, s, o)
  }

  /** The state after the events, or None if one of them was not enabled. */
  function After(t: Topology, es: seq<Event>): Option<State>
  {
    if es == [] then Some(Initial)
    else
      var last := |es| - 1;
      match After(t, es[..last])
      case None => None
      case Some(s) => if Enabled(t, s, es[last]) then Some(Next(t, s, es[last])) else None
  }

  ghost predicate Reachable(t: Topology, s: State)
  {
    exists es: seq<Event> :: After(t, es) == Some(s)
  }
}
