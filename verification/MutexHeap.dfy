/** The mutex as an object, with its operations linked in memory: the code of one coroutine without interference. */
module MutexHeap {
  import opened Sequences

  /** An operation waiting for the lock. It lives in the frame of the waiting coroutine. */
  class LockOperation {
    var next: LockOperation?

    constructor ()
    {
    }
  }

  /** `m_state`. `Locked(null)` is `locked_no_waiters`. */
  datatype Word = NotLocked | Locked(head: LockOperation?)

  /** The operation at position `i`, or null behind the end. */
  ghost function At(xs: seq<LockOperation>, i: nat): LockOperation? {
    if i < |xs| then xs[i] else null
  }

  /** Following `next` from `p` visits exactly `xs` and then reaches null. */
  ghost predicate IsChain(p: LockOperation?, xs: seq<LockOperation>)
    reads xs
  {
    p == At(xs, 0) && forall i {:trigger xs[i].next} :: 0 <= i < |xs| ==> xs[i].next == At(xs, i + 1)
  }

  class AsyncMutex {
    var state: Word
    var waiters: LockOperation?
    ghost var stack: seq<LockOperation>     // the arrivals, newest first
    ghost var front: seq<LockOperation>     // the holder's list, oldest first

    ghost function Top(): LockOperation?
      reads this
    {
      if state.Locked? then state.head else null
    }

    ghost predicate Valid()
      reads this, stack, front
    {
      && NoDup(front + stack)
      && IsChain(waiters, front)
      && IsChain(Top(), stack)
      && (state.NotLocked? ==> front == [])
    }

    /** The waiters in the order in which they get the lock. */
    ghost function Queue(): seq<LockOperation>
      reads this
    {
      front + Reverse(stack)
    }

    constructor ()
      ensures Valid() && state.NotLocked? && Queue() == []
    {
      state, waiters := NotLocked, null;
      stack, front := [], [];
    }

    method TryLock() returns (acquired: bool)
      requires Valid()
      modifies this`state
      ensures Valid() && Queue() == old(Queue())
      ensures acquired <==> old(state).NotLocked?
      ensures state == if acquired then Locked(null) else old(state)
    {
      acquired := state.NotLocked?;
      if acquired {
        state := Locked(null);
      }
    }

    /**
     `await_suspend` of a new operation, with `spurious` compare-exchanges failing for no reason: it takes a free lock
     and goes on, or joins the end of the queue.
     */
    method AwaitSuspend(op: LockOperation, spurious: nat) returns (suspended: bool)
      requires Valid() && op !in Queue()
      modifies this`state, this`stack, op
      ensures Valid() && state.Locked? && waiters == old(waiters)
      ensures suspended <==> old(state).Locked?
      ensures Queue() == if suspended then old(Queue()) + [op] else []
    {
      ReverseMembers(stack);
      var failures := spurious;
      var seen := state;
      while true
        invariant Valid() && seen == state == old(state) && stack == old(stack)
        decreases failures
      {
        if seen.NotLocked? {
          if failures == 0 {
            state := Locked(null);
            return false;
          }
        } else {
          op.next := seen.head;
          if failures == 0 {
            state := Locked(op);
            stack := [op] + stack;
            assert stack[1..] == old(stack);
            PushedNoDup(front, old(stack), op);
            return true;
          }
        }
        failures := failures - 1;
        seen := state;
      }
    }

    /** The part of `unlock` that detaches the arrivals and turns them into the holder's list. */
    method Refill() returns (head: LockOperation)
      requires Valid() && state.Locked? && state.head != null && waiters == null
      modifies this`state, this`stack, this`front, stack
      ensures state == Locked(null) && stack == [] && front == Reverse(old(stack))
      ensures IsChain(head, front) && NoDup(front + stack)
    {
      var detached := state.head;
      state := Locked(null);
      DetachedParts(front, stack);
      head := ReverseChain(detached, stack);
      front, stack := Reverse(stack), [];
      assert front + stack == front;
    }

    /** `unlock`: frees the lock, or hands it to the first in the queue, which is returned for resumption. */
    method Unlock() returns (chosen: LockOperation?)
      requires Valid() && state.Locked?
      modifies this, stack
      ensures Valid()
      ensures old(Queue()) == [] ==> chosen == null && state.NotLocked? && Queue() == []
      ensures old(Queue()) != [] ==>
        chosen == old(Queue())[0] && state.Locked? && Queue() == old(Queue())[1..]
      ensures old(waiters) != null ==> state == old(state) && forall o | o in old(stack) :: o.next == old(o.next)
    {
      var waitersHead := waiters;
      if waitersHead == null {
        if state == Locked(null) {
          state := NotLocked;
          return null;
        }
        waitersHead := Refill();
      }
      NoDupTail(front, stack);
      waiters := waitersHead.next;
      chosen := waitersHead;
      front := front[1..];
    }
  }

  /** The loop of `unlock`: reverses a detached stack in place, and touches no other operation. */
  method ReverseChain(first: LockOperation, ghost detached: seq<LockOperation>) returns (head: LockOperation)
    requires IsChain(first, detached) && NoDup(detached)
    modifies detached
    ensures IsChain(head, Reverse(detached))
  {
    var waitersHead: LockOperation? := null;
    var next: LockOperation? := first;
    ghost var rest, done := detached, [];
    assert Reverse(rest) + done == Reverse(detached);
    while next != null
      invariant IsChain(next, rest) && IsChain(waitersHead, done)
      invariant NoDup(rest) && NoDup(done) && forall o :: !(o in rest && o in done)
      invariant forall o | o in rest :: o in detached
      invariant Reverse(rest) + done == Reverse(detached)
      decreases |rest|
    {
      MovedNoDup(rest, done);
      assert Reverse(rest) == Reverse(rest[1..]) + [rest[0]];
      assert next in rest;
      var temp := next.next;
      next.next := waitersHead;
      waitersHead := next;
      next := temp;
      rest, done := rest[1..], [rest[0]] + done;
    }
    assert rest == [] && done == Reverse(detached);
    head := waitersHead;
  }

  /** With no list of its own, the holder detaches the whole stack. */
  lemma DetachedParts(front: seq<LockOperation>, stack: seq<LockOperation>)
    requires NoDup(front + stack)
    ensures NoDup(stack) && NoDup(Reverse(stack)) && (front == [] ==> front + Reverse(stack) == Reverse(stack))
  {
    NoDupConcat(front, stack);
    NoDupReverse(stack);
  }

  lemma NoDupTail(front: seq<LockOperation>, stack: seq<LockOperation>)
    requires NoDup(front + stack) && front != []
    ensures NoDup(front[1..] + stack)
    ensures (front + Reverse(stack))[0] == front[0]
    ensures (front + Reverse(stack))[1..] == front[1..] + Reverse(stack)
  {
    assert front + stack == [front[0]] + (front[1..] + stack);
    NoDupConcat([front[0]], front[1..] + stack);
  }

  lemma PushedNoDup(front: seq<LockOperation>, stack: seq<LockOperation>, op: LockOperation)
    requires NoDup(front + stack) && op !in front && op !in stack
    ensures NoDup(front + ([op] + stack))
  {
    NoDupConcat(front, stack);
    NoDupConcat([op], stack);
    NoDupConcat(front, [op] + stack);
  }

  lemma MovedNoDup(rest: seq<LockOperation>, done: seq<LockOperation>)
    requires NoDup(rest) && NoDup(done) && (forall o :: !(o in rest && o in done)) && rest != []
    ensures NoDup(rest[1..]) && NoDup([rest[0]] + done)
    ensures forall o :: !(o in rest[1..] && o in [rest[0]] + done)
  {
    assert rest == [rest[0]] + rest[1..];
    NoDupConcat([rest[0]], rest[1..]);
    assert rest[0] in rest;
    NoDupConcat([rest[0]], done);
  }
}
