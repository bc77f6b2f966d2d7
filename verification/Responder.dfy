/**
 The connection handler and the responders it starts, on one socket and one mutex.

 The mutex is the step system of module Mutex, the send operation the one of module Send. A responder is a coroutine
 that takes the lock, sends its response and unlocks; the handler scans what it receives, starts responders, and at
 the end of the stream takes the lock itself before it returns.
 */
module Responder {
  import M = Mutex
  import MR = MutexRuns
  import S = Send
  import Scan = Scanner

  /** The address of the handler's lock operation, and of the one of responder `k`. */
  const HANDLER: nat := 2

  function Addr(k: nat): nat { k + 3 }

  /** What responder `k` sends. The handler passes the same response to every one of them. */
  type Responses = nat -> seq<char>

  datatype Stage = Locking | Sending | Leaving

  datatype Task = Task(op: S.Op, stage: Stage)

  /** Where the handler is. */
  datatype Position =
    | Receiving
    | Scanning(chunk: seq<char>, i: nat)
    | Calling(chunk: seq<char>, i: nat, back: bool)  // calling the newest responder; `back` once it lets go
    | Draining                               // taking the lock for the last time
    | Failed                                 // ended by an exception, socket and mutex destroyed

  datatype State = State(
    mutex: M.State,
    position: Position,
    scan: Scan.Scan,
    scanned: seq<char>,          // the bytes scanned so far
    tasks: seq<Task>,
    wire: seq<char>)             // the bytes the socket has taken

  datatype Label =
    | Recv(chunk: seq<char>, garbage: nat)
    | RecvFailed
    | ScanByte(garbage: nat)
    | EndChunk
    | Return                     // from the call of a responder that has suspended itself or ended
    | LockStep(c: nat, spurious: bool)
    | Begin(k: nat)              // the lock is held: start to send
    | Io(k: nat, io: S.Io)
    | Leave(k: nat)              // the guard's destructor calls unlock

  predicate Init(s: State) {
    && s.mutex.next.Keys == {HANDLER}
    && s.mutex == M.State(M.NOT_LOCKED, M.NULL, s.mutex.next, {}, map[HANDLER := M.Idle])
    && s == State(s.mutex, Receiving, Scan.FRESH, [], [], [])
  }

  /** What happens once the socket and the mutex are destroyed is undefined: no step is described. */
  predicate Enabled(s: State, l: Label) {
    !s.position.Failed? &&
    match l
    case Recv(chunk, garbage) =>
      && s.position.Receiving? && |chunk| <= Scan.BUFFER_SIZE
      && (chunk == [] ==> M.Enabled(s.mutex, M.LockAsync(HANDLER, garbage)))
    case RecvFailed => s.position.Receiving?
    case ScanByte(garbage) =>
      && s.position.Scanning? && s.position.i < |s.position.chunk|
      && M.Enabled(s.mutex, M.Create(Addr(|s.tasks|), garbage))
    case EndChunk => s.position.Scanning? && s.position.i >= |s.position.chunk|
    case Return => s.position.Calling? && s.position.back
    case LockStep(c, spurious) => M.Enabled(s.mutex, M.Step(c, spurious))
    case Begin(k) =>
      && k < |s.tasks| && s.tasks[k].stage.Locking?
      && Addr(k) in s.mutex.pc && s.mutex.pc[Addr(k)].Holding?
    case Io(k, io) => k < |s.tasks| && s.tasks[k].stage.Sending? && S.CanDo(s.tasks[k].op, io)
    case Leave(k) =>
      && k < |s.tasks| && s.tasks[k].stage.Sending? && s.tasks[k].op.phase.Continued?
      && M.Enabled(s.mutex, M.Unlock(Addr(k)))
  }

  /** Creating the responder's coroutine and its lock operation. */
  function Spawned(m: M.State, c: nat, garbage: nat): M.State
    requires M.Enabled(m, M.Create(c, garbage))
  {
    M.Apply(M.Apply(m, M.Create(c, garbage)), M.LockAsync(c, garbage))
  }

  /** Responder `k` has suspended itself, in the queue of the mutex or in its send, or has ended. */
  predicate Away(s: State, k: nat)
    requires k < |s.tasks|
  {
    var t := s.tasks[k];
    Addr(k) in s.mutex.pc &&
    var p := s.mutex.pc[Addr(k)];
    p.Waiting? || (t.stage.Sending? && t.op.phase.Suspended?) || (t.stage.Leaving? && p.Idle?)
  }

  /**
   A responder runs inside the call by the handler until it first suspends itself or ends. If it is resumed elsewhere
   before the handler has gone on, the handler may still go on.
   */
  function Noted(s: State): State {
    if s.position.Calling? && |s.tasks| > 0 && Away(s, |s.tasks| - 1)
      then s.(position := Calling(s.position.chunk, s.position.i, true)) else s
  }

  function Apply(s: State, l: Label, responses: Responses): State
    requires Enabled(s, l)
  {
    Noted(Act(s, l, responses))
  }

  function Act(s: State, l: Label, responses: Responses): State
    requires Enabled(s, l)
  {
    match l
    case Recv(chunk, garbage) =>
      if chunk == [] then
        s.(position := Draining, mutex := M.Apply(s.mutex, M.LockAsync(HANDLER, garbage)))
      else
        s.(position := Scanning(chunk, 0))
    case RecvFailed => s.(position := Failed)
    case ScanByte(garbage) =>
      var chunk, i, k := s.position.chunk, s.position.i, |s.tasks|;
      var t := s.(scan := Scan.Feed(s.scan, chunk[i]), scanned := s.scanned + [chunk[i]]);
      if t.scan.started == s.scan.started then
        t.(position := Scanning(chunk, i + 1))
      else
        t.(position := Calling(chunk, i + 1, false),
           tasks := s.tasks + [Task(S.Start(responses(k)), Locking)],
           mutex := Spawned(s.mutex, Addr(k), garbage))
    case EndChunk => s.(position := Receiving)
    case Return => s.(position := Scanning(s.position.chunk, s.position.i))
    case LockStep(c, spurious) => s.(mutex := M.Apply(s.mutex, M.Step(c, spurious)))
    case Begin(k) => s.(tasks := s.tasks[k := s.tasks[k].(stage := Sending)])
    case Io(k, io) =>
      s.(tasks := s.tasks[k := s.tasks[k].(op := S.Do(s.tasks[k].op, io))],
         wire := s.wire + S.Bytes(s.tasks[k].op, io))
    case Leave(k) =>
      s.(tasks := s.tasks[k := s.tasks[k].(stage := Leaving)],
         mutex := M.Apply(s.mutex, M.Unlock(Addr(k))))
  }

  // ---------------------------------------------------------------------------------------------
  // What the mutex guarantees, in the terms used here.

  /** The holder followed by those queued behind it. */
  function Line(l: M.Lock): seq<nat> {
    if l.holder == M.NULL then [] else [l.holder] + l.queue
  }

  /** Position in the life of one lock: outside, taking, suspended, holding, unlocking, and past the hand-over. */
  datatype Kind = Outside | Taking | Parked | Held | Unlocking | HandedOver

  function KindOf(p: M.Pc): Kind {
    match p
    case Idle => Outside
    case SetAwaiter => Taking
    case Load => Taking
    case Check(_) => Taking
    case Push(_) => Taking
    case Waiting => Parked
    case Holding => Held
    case UResume(_) => HandedOver
    case _ => Unlocking
  }

  function Kinds(m: M.State): map<nat, Kind> {
    map c | c in m.pc :: KindOf(m.pc[c])
  }

  /** The owner that has not handed over is the first in line. */
  lemma OwnerIsFirst(m: M.State, c: nat)
    requires M.Consistent(m) && c in m.pc && (KindOf(m.pc[c]).Held? || KindOf(m.pc[c]).Unlocking?)
    ensures Line(M.Abstract(m)) != [] && Line(M.Abstract(m))[0] == c
    ensures forall d | d in m.pc && d != c :: !M.Owns(m.pc[d])
  {
  }

  /** How one step of `await_suspend` or `unlock` moves the coroutines and the line. */
  datatype Move = Same | Join | Depart | Wake(w: nat)

  function MoveOf(m: M.State, c: nat, spurious: bool): Move
    requires M.Enabled(m, M.Step(c, spurious))
  {
    match M.EventOf(m, M.Step(c, spurious))
    case Acquire(_) => Join
    case Enqueue(_) => Join
    case Release(_) => Depart
    case HandOver(_, _) => Depart
    case Stutter => if m.pc[c].UResume? then Wake(m.pc[c].head) else Same
  }

  /** Only the moving coroutine changes place, or it and the one it resumes. */
  lemma PcAfter(m: M.State, c: nat, spurious: bool)
    requires M.Enabled(m, M.Step(c, spurious))
    ensures var n := M.Apply(m, M.Step(c, spurious));
      if m.pc[c].UResume? then n.pc == m.pc[c := M.Idle][m.pc[c].head := M.Holding]
      else c in n.pc && n.pc == m.pc[c := n.pc[c]]
  {
  }

  /** The kind of place a step leads to. */
  lemma KindAfter(m: M.State, c: nat, spurious: bool)
    requires M.Enabled(m, M.Step(c, spurious)) && !m.pc[c].UResume?
    ensures var n := M.Apply(m, M.Step(c, spurious));
      && c in n.pc
      && match MoveOf(m, c, spurious)
         case Same => KindOf(m.pc[c]) in {Taking, Unlocking} && KindOf(n.pc[c]) == KindOf(m.pc[c])
         case Join => KindOf(m.pc[c]) == Taking && KindOf(n.pc[c]) in {Parked, Held}
         case Depart => KindOf(m.pc[c]) == Unlocking && KindOf(n.pc[c]) in {Outside, HandedOver}
         case Wake(_) => false
  {
  }

  lemma WokenIsParked(m: M.State, c: nat)
    requires M.Consistent(m) && c in m.pc && m.pc[c].UResume?
    ensures m.pc[c].head in m.pc && m.pc[c].head != c && m.pc[m.pc[c].head].Waiting?
  {
  }

  lemma KindsUpdate(m: M.State, n: M.State, c: nat, p: M.Pc)
    requires n.pc == m.pc[c := p]
    ensures Kinds(n) == Kinds(m)[c := KindOf(p)]
  {
  }

  /** A step that resumes nobody changes the place of the stepping coroutine alone. */
  lemma OneKind(m: M.State, c: nat, spurious: bool)
    requires M.Enabled(m, M.Step(c, spurious)) && !m.pc[c].UResume?
    ensures var n := M.Apply(m, M.Step(c, spurious));
      c in n.pc && Kinds(n) == Kinds(m)[c := KindOf(n.pc[c])]
  {
    var n := M.Apply(m, M.Step(c, spurious));
    PcAfter(m, c, spurious);
    KindsUpdate(m, n, c, n.pc[c]);
  }

  lemma SameKinds(m: M.State, c: nat, spurious: bool)
    requires M.Enabled(m, M.Step(c, spurious)) && MoveOf(m, c, spurious).Same?
    ensures KindOf(m.pc[c]) in {Taking, Unlocking} && Kinds(M.Apply(m, M.Step(c, spurious))) == Kinds(m)
  {
    OneKind(m, c, spurious);
    KindAfter(m, c, spurious);
    assert Kinds(m)[c := KindOf(m.pc[c])] == Kinds(m);
  }

  lemma JoinKinds(m: M.State, c: nat, spurious: bool)
    requires M.Enabled(m, M.Step(c, spurious)) && MoveOf(m, c, spurious).Join?
    ensures var n := M.Apply(m, M.Step(c, spurious));
      && KindOf(m.pc[c]) == Taking && c in n.pc && KindOf(n.pc[c]) in {Parked, Held}
      && Kinds(n) == Kinds(m)[c := KindOf(n.pc[c])]
  {
    OneKind(m, c, spurious);
    KindAfter(m, c, spurious);
  }

  lemma DepartKinds(m: M.State, c: nat, spurious: bool)
    requires M.Enabled(m, M.Step(c, spurious)) && MoveOf(m, c, spurious).Depart?
    ensures var n := M.Apply(m, M.Step(c, spurious));
      && KindOf(m.pc[c]) == Unlocking && c in n.pc && KindOf(n.pc[c]) in {Outside, HandedOver}
      && Kinds(n) == Kinds(m)[c := KindOf(n.pc[c])]
  {
    OneKind(m, c, spurious);
    KindAfter(m, c, spurious);
  }

  lemma WakeKinds(m: M.State, c: nat, spurious: bool)
    requires M.Consistent(m) && M.Enabled(m, M.Step(c, spurious)) && MoveOf(m, c, spurious).Wake?
    ensures var w := MoveOf(m, c, spurious).w;
      && KindOf(m.pc[c]) == HandedOver && w in m.pc && w != c && KindOf(m.pc[w]) == Parked
      && Kinds(M.Apply(m, M.Step(c, spurious))) == Kinds(m)[c := Outside][w := Held]
  {
    WokenIsParked(m, c);
    PcAfter(m, c, spurious);
    var mid := m.(pc := m.pc[c := M.Idle]);
    KindsUpdate(m, mid, c, M.Idle);
    KindsUpdate(mid, M.Apply(m, M.Step(c, spurious)), m.pc[c].head, M.Holding);
  }

  lemma LineNext(a: M.Lock, e: M.Event, b: M.Lock)
    requires M.LockNext(a, e, b) && (forall c | c in a.queue :: c != M.NULL)
    ensures match e
      case Stutter => Line(b) == Line(a)
      case Acquire(c) => Line(b) == Line(a) + [c]
      case Enqueue(c) => Line(b) == Line(a) + [c]
      case _ => Line(a) != [] && Line(b) == Line(a)[1..]
  {
    if e.HandOver? {
      assert a.queue[0] in a.queue;
      assert Line(b) == a.queue;
    }
  }

  lemma MoveLine(m: M.State, c: nat, spurious: bool)
    requires M.Consistent(m) && M.Enabled(m, M.Step(c, spurious))
    ensures var n := M.Apply(m, M.Step(c, spurious));
      && M.Consistent(n)
      && match MoveOf(m, c, spurious)
         case Join => Line(M.Abstract(n)) == Line(M.Abstract(m)) + [c]
         case Depart => Line(M.Abstract(m)) != [] && Line(M.Abstract(n)) == Line(M.Abstract(m))[1..]
         case _ => Line(M.Abstract(n)) == Line(M.Abstract(m))
  {
    var l := M.Step(c, spurious);
    M.StepAbstract(m, l);
    QueueIsNotNull(m);
    LineNext(M.Abstract(m), M.EventOf(m, l), M.Abstract(M.Apply(m, l)));
  }

  lemma QueueIsNotNull(m: M.State)
    requires M.Consistent(m)
    ensures forall c | c in M.Abstract(m).queue :: c != M.NULL
  {
    var v :| M.Inv(m, v);
    MR.NoLostWaiter(m);
  }
}
