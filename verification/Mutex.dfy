/**
 The lock-free coroutine mutex as a step system over any number of coroutines.

 Every atomic load, compare-exchange and exchange of `m_state`, and every read or write of `m_waiters` and of
 an operation's `m_next`, is one step. A coroutine is named by the address of its lock operation object.
 */
module Mutex {
  import opened Sequences

  const NOT_LOCKED: nat := 1
  const LOCKED_NO_WAITERS: nat := 0
  const NULL: nat := 0

  /** Where a coroutine is. Names starting with U are positions inside `unlock`. */
  datatype Pc =
    | Idle                                        // outside the mutex
    | SetAwaiter                                  // await_suspend: about to store m_awaiter
    | Load                                        // about to load m_state
    | Check(seen: nat)                             // loop head, holding a possibly stale m_state
    | Push(seen: nat)                              // m_next written, about to compare-exchange
    | Waiting                                     // suspended
    | Holding                                     // owns the lock
    | UAssert                                     // about to load m_state for the first assertion
    | UReadWaiters
    | UCas
    | UExchange
    | URead(next: nat, head: nat)                 // about to read next->m_next
    | UWrite(next: nat, head: nat, temp: nat)     // about to write next->m_next
    | UPop(head: nat)                             // about to write m_waiters
    | UResume(head: nat)                          // about to resume the new holder

  datatype State = State(
    word: nat,               // m_state
    waiters: nat,            // m_waiters
    next: map<nat, nat>,     // m_next of every operation
    awaiters: set<nat>,      // operations whose m_awaiter has been stored
    pc: map<nat, Pc>)

  datatype Label =
    | Create(c: nat, garbage: nat)
    | TryLock(c: nat)
    | LockAsync(c: nat, garbage: nat)   // a new operation: m_next is indeterminate
    | Unlock(c: nat)
    | Step(c: nat, spurious: bool)      // one step of await_suspend or unlock

  predicate Init(s: State) {
    s == State(NOT_LOCKED, NULL, map[], {}, map[])
  }

  predicate Enabled(s: State, l: Label) {
    match l
    case Create(c, _) => c >= 2 && c !in s.pc      // an aligned object address is neither 0 nor 1
    case TryLock(c) => c in s.pc && s.pc[c].Idle?
    case LockAsync(c, _) => c in s.pc && s.pc[c].Idle?
    case Unlock(c) => c in s.pc && s.pc[c].Holding?
    case Step(c, _) => c in s.pc && !s.pc[c].Idle? && !s.pc[c].Waiting? && !s.pc[c].Holding?
  }

  function Deref(next: map<nat, nat>, p: nat): nat {
    if p in next then next[p] else NULL
  }

  function Goto(s: State, c: nat, p: Pc): State {
    s.(pc := s.pc[c := p])
  }

  function Apply(s: State, l: Label): State
    requires Enabled(s, l)
  {
    match l
    case Create(c, garbage) => s.(next := s.next[c := garbage], pc := s.pc[c := Idle])
    case TryLock(c) =>
      if s.word == NOT_LOCKED then Goto(s.(word := LOCKED_NO_WAITERS), c, Holding) else s
    case LockAsync(c, garbage) =>
      Goto(s.(next := s.next[c := garbage], awaiters := s.awaiters - {c}), c, SetAwaiter)
    case Unlock(c) => Goto(s, c, UAssert)
    case Step(c, spurious) => ApplyStep(s, c, spurious)
  }

  function ApplyStep(s: State, c: nat, spurious: bool): State
    requires Enabled(s, Step(c, spurious))
  {
    match s.pc[c]
    case SetAwaiter => Goto(s.(awaiters := s.awaiters + {c}), c, Load)
    case Load => Goto(s, c, Check(s.word))
    case Check(seen) =>
      if seen == NOT_LOCKED then
        if s.word == seen && !spurious then Goto(s.(word := LOCKED_NO_WAITERS), c, Holding)
        else Goto(s, c, Check(s.word))
      else
        Goto(s.(next := s.next[c := seen]), c, Push(seen))
    case Push(seen) =>
      if s.word == seen && !spurious then Goto(s.(word := c), c, Waiting)
      else Goto(s, c, Check(s.word))
    case UAssert => Goto(s, c, UReadWaiters)
    case UReadWaiters => if s.waiters == NULL then Goto(s, c, UCas) else Goto(s, c, UPop(s.waiters))
    case UCas =>
      if s.word == LOCKED_NO_WAITERS then Goto(s.(word := NOT_LOCKED), c, Idle) else Goto(s, c, UExchange)
    case UExchange => Goto(s.(word := LOCKED_NO_WAITERS), c, URead(s.word, NULL))
    case URead(next, head) => Goto(s, c, UWrite(next, head, Deref(s.next, next)))
    case UWrite(next, head, temp) =>
      Goto(s.(next := s.next[next := head]), c, if temp == NULL then UPop(next) else URead(temp, next))
    case UPop(head) => Goto(s.(waiters := Deref(s.next, head)), c, UResume(head))
    case UResume(head) => s.(pc := s.pc[c := Idle][head := Holding])
    case _ => s
  }

  /** The assertions of the source, and that no pointer it follows is null or dangling. */
  predicate Safe(s: State, l: Label)
    requires Enabled(s, l)
  {
    l.Step? ==>
      match s.pc[l.c]
      case UAssert => s.word != NOT_LOCKED
      case UExchange => s.word != LOCKED_NO_WAITERS && s.word != NOT_LOCKED
      case URead(next, _) => next in s.next && IsParked(s, next)
      case UWrite(next, _, _) => next in s.next && IsParked(s, next)
      case UPop(head) => head != NULL && head in s.next && IsParked(s, head)
      case UResume(head) => IsParked(s, head)
      case _ => true
  }

  predicate IsParked(s: State, c: nat) {
    c in s.pc && s.pc[c].Waiting? && c in s.awaiters
  }

  /** The assertions of the destructor. */
  predicate DestructorOk(s: State) {
    (s.word == NOT_LOCKED || s.word == LOCKED_NO_WAITERS) && s.waiters == NULL
  }

  // ---------------------------------------------------------------------------------------------
  // The specification: one holder and a queue.

  datatype Lock = Lock(holder: nat, queue: seq<nat>)

  datatype Event =
    | Stutter
    | Acquire(c: nat)
    | Enqueue(c: nat)
    | Release(c: nat)
    | HandOver(c: nat, w: nat)

  const FREE := Lock(NULL, [])

  predicate LockNext(a: Lock, e: Event, b: Lock) {
    match e
    case Stutter => b == a
    case Acquire(c) => c != NULL && a == FREE && b == Lock(c, [])
    case Enqueue(c) => a.holder != NULL && c != a.holder && c !in a.queue && b == a.(queue := a.queue + [c])
    case Release(c) => a == Lock(c, []) && c != NULL && b == FREE
    case HandOver(c, w) => a.holder == c != NULL && |a.queue| > 0 && w == a.queue[0] && b == Lock(w, a.queue[1..])
  }

  ghost predicate LockRun(locks: seq<Lock>, events: seq<Event>) {
    && |locks| == |events| + 1
    && locks[0] == FREE
    && forall i :: 0 <= i < |events| ==> LockNext(locks[i], events[i], locks[i + 1])
  }

  /** The specification event that a step of the mutex performs. */
  function EventOf(s: State, l: Label): Event
    requires Enabled(s, l)
  {
    match l
    case Create(_, _) => Stutter
    case TryLock(c) => if s.word == NOT_LOCKED then Acquire(c) else Stutter
    case LockAsync(_, _) => Stutter
    case Unlock(_) => Stutter
    case Step(c, spurious) =>
      match s.pc[c]
      case Check(seen) => if s.word == seen == NOT_LOCKED && !spurious then Acquire(c) else Stutter
      case Push(seen) => if s.word == seen && !spurious then Enqueue(c) else Stutter
      case UCas => if s.word == LOCKED_NO_WAITERS then Release(c) else Stutter
      case UPop(head) => HandOver(c, head)
      case _ => Stutter
  }

  // ---------------------------------------------------------------------------------------------
  // How the specification is read off the memory.

  /** Following `next` from `p` visits exactly `xs` and then reaches null. */
  ghost predicate IsList(next: map<nat, nat>, p: nat, xs: seq<nat>)
    decreases xs
  {
    if xs == [] then p == NULL
    else p == xs[0] != NULL && p in next && IsList(next, next[p], xs[1..])
  }

  /** Writing the `m_next` of an operation outside a list does not change the list. */
  lemma {:induction false} ListFrame(next: map<nat, nat>, p: nat, xs: seq<nat>, c: nat, x: nat)
    requires IsList(next, p, xs) && c !in xs
    ensures IsList(next[c := x], p, xs)
    decreases xs
  {
    if xs == [] {
    } else {
      ListFrame(next, next[p], xs[1..], c, x);
    }
  }

  /** A pointer and the memory determine the list. */
  lemma {:induction false} ListUnique(next: map<nat, nat>, p: nat, xs: seq<nat>, ys: seq<nat>)
    requires IsList(next, p, xs) && IsList(next, p, ys)
    ensures xs == ys
    decreases xs
  {
    if xs == [] {
    } else {
      ListUnique(next, next[p], xs[1..], ys[1..]);
      assert xs == [xs[0]] + xs[1..] && ys == [ys[0]] + ys[1..];
    }
  }

  /** The lists in memory: new arrivals, the holder's list and the part of a detached stack not yet reversed. */
  datatype View = View(runner: nat, front: seq<nat>, rest: seq<nat>, stack: seq<nat>)

  function Queue(v: View): seq<nat> {
    Reverse(v.rest) + v.front + Reverse(v.stack)
  }

  predicate Owns(p: Pc) {
    !(p.Idle? || p.SetAwaiter? || p.Load? || p.Check? || p.Push? || p.Waiting?)
  }

  /** The pointer to the holder's list, by position. */
  function FrontOf(s: State, p: Pc): nat {
    match p
    case URead(_, head) => head
    case UWrite(_, head, _) => head
    case UPop(head) => head
    case _ => s.waiters
  }

  function RestOf(p: Pc): nat {
    match p
    case URead(next, _) => next
    case UWrite(next, _, _) => next
    case _ => NULL
  }

  ghost predicate Threads(s: State) {
    && s.next.Keys == s.pc.Keys
    && forall c | c in s.pc ::
      && c >= 2
      && (s.pc[c].Push? ==> s.next[c] == s.pc[c].seen != NOT_LOCKED)
      && (s.pc[c].Load? || s.pc[c].Check? || s.pc[c].Push? || s.pc[c].Waiting? ==> c in s.awaiters)
  }

  /** What `m_waiters` and the locals of `unlock` are at each position of the running owner. */
  ghost predicate OwnerMemory(s: State, v: View)
    requires v.runner in s.pc
  {
    var p := s.pc[v.runner];
    && s.word != NOT_LOCKED
    && Owns(p)
    && IsList(s.next, s.word, v.stack)
    && IsList(s.next, FrontOf(s, p), v.front)
    && IsList(s.next, RestOf(p), v.rest)
    && (p.UCas? || p.UExchange? || p.URead? || p.UWrite? ==> s.waiters == NULL)
    && (p.UExchange? ==> v.stack != [])
    && (p.UWrite? ==> Deref(s.next, p.next) == p.temp)
    && (p.URead? || p.UWrite? ==> v.rest != [])
    && (p.UPop? ==> v.front != [] && (s.waiters == NULL || s.waiters == p.head))
    && (p.UResume? ==> p.head in s.pc && s.pc[p.head].Waiting? && !Member(v, p.head))
  }

  /** The running owner, or the waiter it has chosen, once the hand-over is written. */
  function HolderOf(s: State, v: View): nat {
    if v.runner in s.pc && s.pc[v.runner].UResume? then s.pc[v.runner].head else v.runner
  }

  predicate Member(v: View, c: nat) {
    c in v.rest || c in v.front || c in v.stack
  }

  /** The three lists hold no operation twice. */
  ghost predicate Apart(v: View) {
    && NoDup(v.rest) && NoDup(v.front) && NoDup(v.stack)
    && forall c :: !(c in v.rest && c in v.front) && !(c in v.rest && c in v.stack) && !(c in v.front && c in v.stack)
  }

  /** The listed operations are the suspended ones, save one that has been chosen but not resumed yet. */
  ghost predicate Listed(s: State, v: View) {
    && (forall c :: Member(v, c) ==> c in s.pc && s.pc[c].Waiting?)
    && (forall c | c in s.pc && s.pc[c].Waiting? :: Member(v, c) || c == HolderOf(s, v))
  }

  ghost predicate OneOwner(s: State, v: View) {
    forall c | c in s.pc :: Owns(s.pc[c]) <==> c == v.runner
  }

  ghost predicate Inv(s: State, v: View) {
    && Threads(s)
    && OneOwner(s, v)
    && (v.runner == NULL ==> s.word == NOT_LOCKED && s.waiters == NULL && v == View(NULL, [], [], []))
    && (v.runner != NULL ==> v.runner in s.pc && OwnerMemory(s, v))
    && Apart(v)
    && Listed(s, v)
  }

  function LockOf(s: State, v: View): Lock {
    Lock(HolderOf(s, v), Queue(v))
  }

  function NextView(s: State, l: Label, v: View): View
    requires Enabled(s, l)
  {
    match EventOf(s, l)
    case Acquire(c) => View(c, [], [], [])
    case Enqueue(c) => Pushed(v, c)
    case Release(_) => View(NULL, [], [], [])
    case HandOver(_, _) => if v.front == [] then v else Popped(v)
    case Stutter =>
      if !l.Step? then v else
      match s.pc[l.c]
      case UExchange => v.(rest := v.stack, stack := [])
      case UWrite(_, _, _) => if v.rest == [] then v else Moved(v)
      case UResume(head) => v.(runner := head)
      case _ => v
  }

  lemma QueueParts(v: View)
    ensures forall c :: c in Queue(v) <==> Member(v, c)
    ensures NoDup(Queue(v)) <==> Apart(v)
  {
    ReverseMembers(v.rest);
    ReverseMembers(v.stack);
    NoDupReverse(v.rest);
    NoDupReverse(v.stack);
    NoDupConcat(Reverse(v.rest), v.front);
    NoDupConcat(Reverse(v.rest) + v.front, Reverse(v.stack));
  }

  function Pushed(v: View, c: nat): View {
    v.(stack := [c] + v.stack)
  }

  /** One round of the reversal loop. */
  function Moved(v: View): View
    requires v.rest != []
  {
    v.(front := [v.rest[0]] + v.front, rest := v.rest[1..])
  }

  lemma PushedApart(v: View, c: nat)
    requires Apart(v) && !Member(v, c)
    ensures Apart(Pushed(v, c))
    ensures forall x :: Member(Pushed(v, c), x) <==> Member(v, x) || x == c
  {
  }

  lemma MovedApart(v: View)
    requires Apart(v) && v.rest != []
    ensures Apart(Moved(v))
    ensures forall x :: Member(Moved(v), x) <==> Member(v, x)
  {
    var n := v.rest[0];
    assert v.rest == [n] + v.rest[1..];
    assert n in v.rest && forall i :: 0 <= i < |v.front| ==> v.front[i] in v.front;
  }

  // ---------------------------------------------------------------------------------------------
  // Every step keeps the invariant.

  /** Writing the `m_next` of an unlisted operation changes none of the three lists. */
  lemma FrameAll(s: State, v: View, c: nat, x: nat)
    requires v.runner != NULL ==> v.runner in s.pc && OwnerMemory(s, v)
    requires !Member(v, c)
    ensures v.runner != NULL ==>
      var next := s.next[c := x];
      && IsList(next, s.word, v.stack)
      && IsList(next, FrontOf(s, s.pc[v.runner]), v.front)
      && IsList(next, RestOf(s.pc[v.runner]), v.rest)
  {
    if v.runner != NULL {
      ListFrame(s.next, s.word, v.stack, c, x);
      ListFrame(s.next, FrontOf(s, s.pc[v.runner]), v.front, c, x);
      ListFrame(s.next, RestOf(s.pc[v.runner]), v.rest, c, x);
    }
  }

  /** Where a coroutine that is neither owner nor suspended may go, writing its own `m_next`. */
  ghost predicate PrivateTo(s: State, v: View, c: nat, x: nat, aw: set<nat>, p: Pc) {
    && c in s.pc && !Owns(s.pc[c]) && !s.pc[c].Waiting?
    && !Owns(p) && !p.Waiting?
    && s.awaiters - {c} <= aw && (p.Load? || p.Check? || p.Push? ==> c in aw)
    && (p.Push? ==> x == p.seen != NOT_LOCKED)
  }

  function PrivateWrite(s: State, c: nat, x: nat, aw: set<nat>, p: Pc): State {
    s.(next := s.next[c := x], awaiters := aw, pc := s.pc[c := p])
  }

  lemma PrivateMoveThreads(s: State, v: View, c: nat, x: nat, aw: set<nat>, p: Pc)
    requires Threads(s) && OneOwner(s, v) && PrivateTo(s, v, c, x, aw, p)
    ensures Threads(PrivateWrite(s, c, x, aw, p)) && OneOwner(PrivateWrite(s, c, x, aw, p), v)
  {
  }

  lemma PrivateMove(s: State, v: View, c: nat, x: nat, aw: set<nat>, p: Pc)
    requires Inv(s, v) && PrivateTo(s, v, c, x, aw, p)
    ensures Inv(PrivateWrite(s, c, x, aw, p), v)
  {
    assert !Member(v, c);
    PrivateMoveThreads(s, v, c, x, aw, p);
    FrameAll(s, v, c, x);
  }

  /** A step by a coroutine that is not the owner, changing neither the lists nor the lock word. */
  predicate IsPrivate(s: State, l: Label)
    requires Enabled(s, l)
  {
    EventOf(s, l).Stutter? && !l.Create? && !l.Unlock? && (l.Step? ==> !Owns(s.pc[l.c]))
  }

  lemma PrivateTarget(s: State, l: Label, v: View)
    requires Threads(s) && Enabled(s, l) && IsPrivate(s, l)
    ensures var t := Apply(s, l);
      && l.c in t.next && l.c in t.pc
      && PrivateTo(s, v, l.c, t.next[l.c], t.awaiters, t.pc[l.c])
      && t == PrivateWrite(s, l.c, t.next[l.c], t.awaiters, t.pc[l.c])
  {
    assert s.next[l.c := s.next[l.c]] == s.next;
    assert s.pc[l.c := s.pc[l.c]] == s.pc;
  }

  lemma PrivateStep(s: State, l: Label, v: View)
    requires Inv(s, v) && Enabled(s, l) && IsPrivate(s, l)
    ensures Inv(Apply(s, l), v)
  {
    var t := Apply(s, l);
    PrivateTarget(s, l, v);
    PrivateMove(s, v, l.c, t.next[l.c], t.awaiters, t.pc[l.c]);
  }

  lemma CreateThreads(s: State, l: Label, v: View)
    requires Inv(s, v) && Enabled(s, l) && l.Create?
    ensures !Member(v, l.c) && v.runner != l.c
    ensures Threads(Apply(s, l)) && OneOwner(Apply(s, l), v) && Listed(Apply(s, l), v)
  {
  }

  lemma CreateStep(s: State, l: Label, v: View)
    requires Inv(s, v) && Enabled(s, l) && l.Create?
    ensures Inv(Apply(s, l), v)
  {
    CreateThreads(s, l, v);
    FrameAll(s, v, l.c, l.garbage);
  }

  /** Coroutine `c` has written the lock word it expects into `m_next` and its compare-exchange succeeds. */
  ghost predicate CanPush(s: State, c: nat, v: View) {
    Inv(s, v) && c in s.pc && s.pc[c].Push? && s.word == s.pc[c].seen
  }

  function AfterPush(s: State, c: nat): State {
    Goto(s.(word := c), c, Waiting)
  }

  lemma PushMemory(s: State, c: nat, v: View)
    requires CanPush(s, c, v)
    ensures v.runner != NULL && v.runner != c && v.runner in s.pc && !Member(v, c)
    ensures OwnerMemory(AfterPush(s, c), Pushed(v, c))
  {
  }

  lemma PushListed(s: State, c: nat, v: View)
    requires CanPush(s, c, v) && v.runner != c
    requires forall x :: Member(Pushed(v, c), x) <==> Member(v, x) || x == c
    ensures Listed(AfterPush(s, c), Pushed(v, c))
  {
  }

  lemma PushStep(s: State, c: nat, v: View)
    requires CanPush(s, c, v)
    ensures Inv(AfterPush(s, c), Pushed(v, c))
  {
    PushMemory(s, c, v);
    PushedApart(v, c);
    PushListed(s, c, v);
  }

  lemma AcquireStep(s: State, l: Label, v: View)
    requires Inv(s, v) && Enabled(s, l) && EventOf(s, l).Acquire?
    ensures Inv(Apply(s, l), NextView(s, l, v))
  {
  }

  /** The owner may move on without writing anything, as long as its view of memory stays right. */
  lemma OwnerMove(s: State, v: View, p: Pc)
    requires Inv(s, v) && v.runner != NULL && !s.pc[v.runner].UResume? && !p.UResume?
    requires OwnerMemory(Goto(s, v.runner, p), v)
    ensures Inv(Goto(s, v.runner, p), v)
  {
  }

  lemma UnlockEntry(s: State, l: Label, v: View)
    requires Inv(s, v) && Enabled(s, l)
    requires l.Unlock? || (l.Step? && (s.pc[l.c].UAssert? || s.pc[l.c].UReadWaiters?))
    ensures Inv(Apply(s, l), v)
  {
    OwnerMove(s, v, Apply(s, l).pc[l.c]);
  }

  lemma CasStep(s: State, l: Label, v: View)
    requires Inv(s, v) && Enabled(s, l) && l.Step? && s.pc[l.c].UCas?
    ensures Inv(Apply(s, l), NextView(s, l, v))
  {
    if s.word == LOCKED_NO_WAITERS {
      assert v == View(l.c, [], [], []);
    } else {
      OwnerMove(s, v, UExchange);
    }
  }

  lemma DetachStep(s: State, l: Label, v: View)
    requires Inv(s, v) && Enabled(s, l) && l.Step? && s.pc[l.c].UExchange?
    ensures Inv(Apply(s, l), NextView(s, l, v))
  {
  }

  lemma ReadStep(s: State, l: Label, v: View)
    requires Inv(s, v) && Enabled(s, l) && l.Step? && s.pc[l.c].URead?
    ensures Inv(Apply(s, l), v)
  {
  }

  function AfterWrite(s: State, c: nat): State
    requires c in s.pc && s.pc[c].UWrite?
  {
    var UWrite(next, head, temp) := s.pc[c];
    Goto(s.(next := s.next[next := head]), c, if temp == NULL then UPop(next) else URead(temp, next))
  }

  lemma WriteMemory(s: State, c: nat, v: View)
    requires Inv(s, v) && c in s.pc && s.pc[c].UWrite?
    ensures OwnerMemory(AfterWrite(s, c), Moved(v))
  {
    var n, head := v.rest[0], s.pc[c].head;
    ListFrame(s.next, s.word, v.stack, n, head);
    ListFrame(s.next, head, v.front, n, head);
    ListFrame(s.next, s.next[n], v.rest[1..], n, head);
    assert Moved(v).front[1..] == v.front;
  }

  lemma WriteListed(s: State, c: nat, v: View)
    requires Inv(s, v) && c in s.pc && s.pc[c].UWrite? && v.rest != []
    requires forall x :: Member(Moved(v), x) <==> Member(v, x)
    ensures Listed(AfterWrite(s, c), Moved(v))
    ensures Threads(AfterWrite(s, c)) && OneOwner(AfterWrite(s, c), Moved(v))
  {
  }

  lemma WriteKeepsInv(s: State, c: nat, v: View)
    requires Inv(s, v) && c in s.pc && s.pc[c].UWrite?
    ensures Inv(AfterWrite(s, c), Moved(v))
  {
    MovedApart(v);
    WriteMemory(s, c, v);
    WriteListed(s, c, v);
  }

  function Popped(v: View): View
    requires v.front != []
  {
    v.(front := v.front[1..])
  }

  lemma UnlockStep(s: State, l: Label, v: View)
    requires Inv(s, v) && Enabled(s, l) && l.Step?
    requires var p := s.pc[l.c]; p.UAssert? || p.UReadWaiters? || p.UCas? || p.UExchange? || p.URead?
    ensures Inv(Apply(s, l), NextView(s, l, v))
  {
    match s.pc[l.c] {
      case UCas => CasStep(s, l, v);
      case UExchange => DetachStep(s, l, v);
      case URead(_, _) => ReadStep(s, l, v);
      case _ => UnlockEntry(s, l, v);
    }
  }

  lemma WriteStep(s: State, l: Label, v: View)
    requires Inv(s, v) && Enabled(s, l) && l.Step? && s.pc[l.c].UWrite?
    ensures Inv(Apply(s, l), NextView(s, l, v))
  {
    WriteKeepsInv(s, l.c, v);
  }

  lemma PopMemory(s: State, c: nat, v: View)
    requires Inv(s, v) && c in s.pc && s.pc[c].UPop?
    ensures v.runner == c && v.front != [] && v.front[0] == s.pc[c].head
    ensures OwnerMemory(AfterPop(s, c), Popped(v))
  {
    assert v.front[0] in v.front;
    assert v.front == [v.front[0]] + v.front[1..];
  }

  function AfterPop(s: State, c: nat): State
    requires c in s.pc && s.pc[c].UPop?
  {
    Goto(s.(waiters := Deref(s.next, s.pc[c].head)), c, UResume(s.pc[c].head))
  }

  lemma PopListed(s: State, c: nat, v: View)
    requires Inv(s, v) && c in s.pc && s.pc[c].UPop? && v.runner == c
    requires v.front != [] && v.front[0] == s.pc[c].head
    ensures Apart(Popped(v)) && Listed(AfterPop(s, c), Popped(v))
  {
    assert v.front == [v.front[0]] + v.front[1..];
  }

  lemma PopStep(s: State, c: nat, v: View)
    requires Inv(s, v) && c in s.pc && s.pc[c].UPop?
    ensures v.front != [] && Inv(AfterPop(s, c), Popped(v))
  {
    PopMemory(s, c, v);
    PopListed(s, c, v);
  }

  function AfterResume(s: State, c: nat): State
    requires c in s.pc && s.pc[c].UResume?
  {
    s.(pc := s.pc[c := Idle][s.pc[c].head := Holding])
  }

  lemma ResumeThreads(s: State, c: nat, v: View)
    requires Inv(s, v) && c in s.pc && s.pc[c].UResume?
    ensures v.runner == c && s.pc[c].head != c
    ensures var w := v.(runner := s.pc[c].head);
      Threads(AfterResume(s, c)) && OneOwner(AfterResume(s, c), w) && Listed(AfterResume(s, c), w)
  {
  }

  lemma ResumeStep(s: State, c: nat, v: View)
    requires Inv(s, v) && c in s.pc && s.pc[c].UResume?
    ensures Inv(AfterResume(s, c), v.(runner := s.pc[c].head))
  {
    ResumeThreads(s, c, v);
  }

  lemma HandOverTarget(s: State, l: Label, v: View)
    requires Enabled(s, l) && l.Step?
    ensures s.pc[l.c].UPop? && v.front != [] ==> Apply(s, l) == AfterPop(s, l.c) && NextView(s, l, v) == Popped(v)
    ensures s.pc[l.c].UResume? ==>
      Apply(s, l) == AfterResume(s, l.c) && NextView(s, l, v) == v.(runner := s.pc[l.c].head)
  {
  }

  lemma StepKeepsInv(s: State, l: Label, v: View)
    requires Inv(s, v) && Enabled(s, l)
    ensures Inv(Apply(s, l), NextView(s, l, v))
  {
    if l.Create? {
      CreateStep(s, l, v);
    } else if l.Unlock? {
      UnlockEntry(s, l, v);
    } else if l.Step? && s.pc[l.c].UWrite? {
      WriteStep(s, l, v);
    } else if l.Step? && s.pc[l.c].UPop? {
      PopStep(s, l.c, v);
      HandOverTarget(s, l, v);
    } else if l.Step? && s.pc[l.c].UResume? {
      ResumeStep(s, l.c, v);
      HandOverTarget(s, l, v);
    } else if l.Step? && Owns(s.pc[l.c]) {
      UnlockStep(s, l, v);
    } else {
      match EventOf(s, l) {
        case Acquire(_) => AcquireStep(s, l, v);
        case Enqueue(c) => PushStep(s, c, v);
        case _ => PrivateStep(s, l, v);
      }
    }
  }

  // ---------------------------------------------------------------------------------------------
  // Every step performs its specification event, and no assertion or pointer access of it fails.

  lemma PushedQueue(v: View, c: nat)
    ensures Queue(Pushed(v, c)) == Queue(v) + [c]
  {
  }

  lemma MovedQueue(v: View)
    requires v.rest != []
    ensures Queue(Moved(v)) == Queue(v)
  {
  }

  /** Detaching the stack and each round of the reversal leave the queue as it was. */
  lemma StutterKeepsQueue(s: State, l: Label, v: View)
    requires Inv(s, v) && Enabled(s, l) && EventOf(s, l).Stutter?
    ensures Queue(NextView(s, l, v)) == Queue(v)
  {
    if l.Step? && s.pc[l.c].UWrite? {
      MovedQueue(v);
    } else if l.Step? && s.pc[l.c].UExchange? {
      assert v.rest == v.front == [];
      assert Reverse<nat>([]) == [];
    }
  }

  lemma StutterKeepsHolder(s: State, l: Label, v: View)
    requires Inv(s, v) && Enabled(s, l) && EventOf(s, l).Stutter?
    ensures HolderOf(Apply(s, l), NextView(s, l, v)) == HolderOf(s, v)
  {
  }

  lemma EnqueueHolder(s: State, l: Label, v: View)
    requires Inv(s, v) && Enabled(s, l) && EventOf(s, l).Enqueue?
    ensures HolderOf(Apply(s, l), Pushed(v, l.c)) == HolderOf(s, v) != NULL
    ensures HolderOf(s, v) != l.c && !Member(v, l.c)
  {
  }

  lemma EnqueueRefines(s: State, l: Label, v: View)
    requires Inv(s, v) && Enabled(s, l) && EventOf(s, l).Enqueue?
    ensures LockNext(LockOf(s, v), EventOf(s, l), LockOf(Apply(s, l), Pushed(v, l.c)))
  {
    PushedQueue(v, l.c);
    QueueParts(v);
    EnqueueHolder(s, l, v);
  }

  lemma HandOverRefines(s: State, l: Label, v: View)
    requires Inv(s, v) && Enabled(s, l) && EventOf(s, l).HandOver?
    ensures LockNext(LockOf(s, v), EventOf(s, l), LockOf(Apply(s, l), NextView(s, l, v)))
  {
  }

  lemma StepRefines(s: State, l: Label, v: View)
    requires Inv(s, v) && Enabled(s, l)
    ensures LockNext(LockOf(s, v), EventOf(s, l), LockOf(Apply(s, l), NextView(s, l, v)))
  {
    match EventOf(s, l) {
      case Enqueue(_) => EnqueueRefines(s, l, v);
      case HandOver(_, _) => HandOverRefines(s, l, v);
      case Acquire(_) =>
      case Release(_) => assert v == View(l.c, [], [], []);
      case Stutter => StutterKeepsQueue(s, l, v); StutterKeepsHolder(s, l, v);
    }
  }

  lemma StepSafe(s: State, l: Label, v: View)
    requires Inv(s, v) && Enabled(s, l)
    ensures Safe(s, l)
  {
    if l.Step? {
      var p := s.pc[l.c];
      assert p.URead? || p.UWrite? ==> Member(v, p.next);
      assert p.UPop? ==> Member(v, p.head);
    }
  }

  // ---------------------------------------------------------------------------------------------
  // Runs.

  ghost predicate IsRun(ss: seq<State>, ls: seq<Label>) {
    && |ss| == |ls| + 1
    && Init(ss[0])
    && forall i :: 0 <= i < |ls| ==> Enabled(ss[i], ls[i]) && ss[i + 1] == Apply(ss[i], ls[i])
  }

  /** The memory represents a lock. Every state of every run does. */
  ghost predicate Consistent(s: State) {
    exists v :: Inv(s, v)
  }

  /** The memory of a consistent state determines its lists. */
  lemma ViewUnique(s: State, v: View, w: View)
    requires Inv(s, v) && Inv(s, w)
    ensures v == w
  {
    assert v.runner == w.runner;
    if v.runner != NULL {
      var p := s.pc[v.runner];
      ListUnique(s.next, s.word, v.stack, w.stack);
      ListUnique(s.next, FrontOf(s, p), v.front, w.front);
      ListUnique(s.next, RestOf(p), v.rest, w.rest);
    }
  }

  /** The lock that the memory of a state stands for. */
  ghost function Abstract(s: State): Lock
    requires Consistent(s)
  {
    var v :| Inv(s, v);
    LockOf(s, v)
  }

  lemma AbstractIs(s: State, v: View)
    requires Inv(s, v)
    ensures Consistent(s) && Abstract(s) == LockOf(s, v)
  {
    var w :| Inv(s, w) && Abstract(s) == LockOf(s, w);
    ViewUnique(s, v, w);
  }

  lemma StepAbstract(s: State, l: Label)
    requires Consistent(s) && Enabled(s, l)
    ensures Consistent(Apply(s, l)) && Safe(s, l)
    ensures LockNext(Abstract(s), EventOf(s, l), Abstract(Apply(s, l)))
  {
    var v :| Inv(s, v);
    StepKeepsInv(s, l, v);
    StepRefines(s, l, v);
    StepSafe(s, l, v);
    AbstractIs(s, v);
    AbstractIs(Apply(s, l), NextView(s, l, v));
  }

  lemma {:induction false} RunConsistent(ss: seq<State>, ls: seq<Label>, i: nat)
    requires IsRun(ss, ls) && i < |ss|
    ensures Consistent(ss[i])
  {
    if i == 0 {
      assert Inv(ss[0], View(NULL, [], [], []));
    } else {
      RunConsistent(ss, ls, i - 1);
      StepAbstract(ss[i - 1], ls[i - 1]);
    }
  }

  ghost function Locks(ss: seq<State>): (r: seq<Lock>)
    requires forall i :: 0 <= i < |ss| ==> Consistent(ss[i])
  {
    seq(|ss|, i requires 0 <= i < |ss| => Abstract(ss[i]))
  }

  ghost function Events(ss: seq<State>, ls: seq<Label>): seq<Event>
    requires IsRun(ss, ls)
  {
    seq(|ls|, i requires 0 <= i < |ls| => EventOf(ss[i], ls[i]))
  }

  /** In every interleaving the mutex behaves as a holder with a FIFO queue, and none of its assertions fails. */
  lemma RefinesFifoLock(ss: seq<State>, ls: seq<Label>)
    requires IsRun(ss, ls)
    ensures forall i :: 0 <= i < |ss| ==> Consistent(ss[i])
    ensures LockRun(Locks(ss), Events(ss, ls))
    ensures forall i :: 0 <= i < |ls| ==> Safe(ss[i], ls[i])
  {
    forall i | 0 <= i < |ss| ensures Consistent(ss[i]) {
      RunConsistent(ss, ls, i);
    }
    assert Inv(ss[0], View(NULL, [], [], []));
    AbstractIs(ss[0], View(NULL, [], [], []));
    forall i | 0 <= i < |ls|
      ensures Safe(ss[i], ls[i]) && LockNext(Abstract(ss[i]), EventOf(ss[i], ls[i]), Abstract(ss[i + 1]))
    {
      StepAbstract(ss[i], ls[i]);
    }
  }
}
