/** What callers of the mutex rely on, in every consistent state and over every run. */
module MutexRuns {
  import opened Sequences
  import opened Mutex

  // ---------------------------------------------------------------------------------------------
  // States.

  /** At most one coroutine is past the acquisition, and the lock word says whether there is one. */
  lemma MutualExclusion(ss: seq<State>, ls: seq<Label>, n: nat)
    requires IsRun(ss, ls) && n <= |ls|
    ensures Consistent(ss[n])
    ensures forall c, d | c in ss[n].pc && d in ss[n].pc && Owns(ss[n].pc[c]) && Owns(ss[n].pc[d]) :: c == d
    ensures ss[n].word == NOT_LOCKED <==> (forall c | c in ss[n].pc :: !Owns(ss[n].pc[c]))
    ensures ss[n].word == NOT_LOCKED <==> Abstract(ss[n]) == FREE
    ensures ss[n].word == NOT_LOCKED ==> ss[n].waiters == NULL
  {
    RunConsistent(ss, ls, n);
    FreeMeansFree(ss[n]);
  }

  lemma FreeMeansFree(s: State)
    requires Consistent(s)
    ensures forall c, d | c in s.pc && d in s.pc && Owns(s.pc[c]) && Owns(s.pc[d]) :: c == d
    ensures s.word == NOT_LOCKED <==> (forall c | c in s.pc :: !Owns(s.pc[c]))
    ensures s.word == NOT_LOCKED <==> Abstract(s) == FREE
    ensures s.word == NOT_LOCKED ==> s.waiters == NULL
  {
  }

  /** A suspended operation is queued exactly once, or has been chosen as holder and not been resumed yet. */
  lemma NoLostWaiter(s: State)
    requires Consistent(s)
    ensures NoDup(Abstract(s).queue)
    ensures forall c | c in Abstract(s).queue :: c in s.pc && s.pc[c].Waiting? && c != Abstract(s).holder
    ensures forall c | c in s.pc && s.pc[c].Waiting? :: c in Abstract(s).queue || c == Abstract(s).holder
    ensures forall c | c in s.pc && s.pc[c].Waiting? && c == Abstract(s).holder ::
      exists u | u in s.pc :: s.pc[u] == UResume(c)
  {
    var v :| Inv(s, v);
    AbstractIs(s, v);
    QueuedAndChosen(s, v, Abstract(s));
  }

  lemma ListedAndChosen(s: State, v: View)
    requires Inv(s, v)
    ensures forall c :: Member(v, c) ==> c in s.pc && s.pc[c].Waiting? && c != HolderOf(s, v)
    ensures forall c | c in s.pc && s.pc[c].Waiting? :: Member(v, c) || c == HolderOf(s, v)
    ensures forall c | c in s.pc && s.pc[c].Waiting? && c == HolderOf(s, v) ::
      exists u | u in s.pc :: s.pc[u] == UResume(c)
  {
    assert v.runner in s.pc && s.pc[v.runner].UResume? ==> s.pc[v.runner] == UResume(HolderOf(s, v));
  }

  lemma QueuedAndChosen(s: State, v: View, a: Lock)
    requires Inv(s, v) && a == LockOf(s, v)
    ensures NoDup(a.queue)
    ensures forall c | c in a.queue :: c in s.pc && s.pc[c].Waiting? && c != a.holder
    ensures forall c | c in s.pc && s.pc[c].Waiting? :: c in a.queue || c == a.holder
    ensures forall c | c in s.pc && s.pc[c].Waiting? && c == a.holder :: exists u | u in s.pc :: s.pc[u] == UResume(c)
  {
    QueueParts(v);
    ListedAndChosen(s, v);
  }

  /**
   Whatever the owner is doing, the queue is the part of a detached stack not yet reversed, backwards, then the holder's
   list, then the new arrivals backwards. Where these lists begin depends on the owner's position alone.
   */
  lemma QueueReadsMemory(ss: seq<State>, ls: seq<Label>, n: nat, c: nat)
    returns (rest: seq<nat>, front: seq<nat>, stack: seq<nat>)
    requires IsRun(ss, ls) && n <= |ls| && c in ss[n].pc && Owns(ss[n].pc[c])
    ensures IsList(ss[n].next, RestOf(ss[n].pc[c]), rest)
    ensures IsList(ss[n].next, FrontOf(ss[n], ss[n].pc[c]), front)
    ensures IsList(ss[n].next, ss[n].word, stack)
    ensures Consistent(ss[n]) && Abstract(ss[n]).queue == Reverse(rest) + front + Reverse(stack)
    ensures Abstract(ss[n]).holder == if ss[n].pc[c].UResume? then ss[n].pc[c].head else c
  {
    RunConsistent(ss, ls, n);
    var v :| Inv(ss[n], v);
    AbstractIs(ss[n], v);
    assert v.runner == c;
    rest, front, stack := v.rest, v.front, v.stack;
  }

  lemma ParkedHasOwner(s: State, c: nat) returns (u: nat)
    requires Consistent(s) && c in s.pc && s.pc[c].Waiting?
    ensures u in s.pc && Owns(s.pc[u])
  {
    var v :| Inv(s, v);
    u := v.runner;
  }

  /** While anyone waits there is an owner, and it can always move: it is in its critical section or in `unlock`. */
  lemma WaitersHaveAnOwner(ss: seq<State>, ls: seq<Label>, n: nat, c: nat) returns (u: nat)
    requires IsRun(ss, ls) && n <= |ls| && c in ss[n].pc && ss[n].pc[c].Waiting?
    ensures u in ss[n].pc && Owns(ss[n].pc[u])
    ensures Enabled(ss[n], Unlock(u)) || Enabled(ss[n], Step(u, false))
  {
    RunConsistent(ss, ls, n);
    u := ParkedHasOwner(ss[n], c);
  }

  /** The destructor's assertions hold as soon as no operation is suspended. */
  lemma DestructorSafe(s: State)
    requires Consistent(s)
    requires forall c | c in s.pc :: !s.pc[c].Waiting?
    ensures DestructorOk(s)
  {
  }

  /** In the part of `unlock` that refills the holder's list or takes the next holder from it. */
  predicate Refilling(s: State) {
    exists u | u in s.pc :: Reversing(s.pc[u]) || s.pc[u].UPop?
  }

  /** Nobody is queued exactly if the destructor's assertions hold and no unlocker has the queue in its hands. */
  lemma DestructorExactly(s: State)
    requires Consistent(s)
    ensures Abstract(s).queue == [] <==> DestructorOk(s) && !Refilling(s)
  {
    var v :| Inv(s, v);
    AbstractIs(s, v);
    QueueEmpty(v);
    EmptyLists(s, v);
  }

  lemma QueueEmpty(v: View)
    ensures Queue(v) == [] <==> v.rest == [] && v.front == [] && v.stack == []
  {
    assert |Queue(v)| == |v.rest| + |v.front| + |v.stack|;
  }

  lemma EmptyLists(s: State, v: View)
    requires Inv(s, v)
    ensures v.rest == [] && v.front == [] && v.stack == [] <==> DestructorOk(s) && !Refilling(s)
  {
  }

  /** `try_lock` does nothing unless the lock is free with nobody queued. */
  lemma TryLockNeverOvertakes(ss: seq<State>, ls: seq<Label>, n: nat)
    requires IsRun(ss, ls) && n < |ls| && ls[n].TryLock?
    ensures Consistent(ss[n])
    ensures if Abstract(ss[n]) == FREE then ss[n + 1] == Goto(ss[n].(word := LOCKED_NO_WAITERS), ls[n].c, Holding)
            else ss[n + 1] == ss[n]
  {
    MutualExclusion(ss, ls, n);
  }

  // ---------------------------------------------------------------------------------------------
  // The reversal in `unlock`.

  predicate Reversing(p: Pc) {
    p.URead? || p.UWrite?
  }

  /** Own steps until the reversal loop is left. */
  function Left(p: Pc, v: View): nat {
    match p
    case URead(_, _) => 2 * |v.rest|
    case UWrite(_, _, _) => if v.rest == [] then 0 else 2 * |v.rest| - 1
    case _ => 0
  }

  /** A step of the reversal counts down by exactly one and keeps the reversal of the detached stack. */
  lemma ReversalStep(s: State, v: View, l: Label)
    requires Inv(s, v) && l.Step? && l.c == v.runner != NULL && Reversing(s.pc[l.c])
    ensures var t, w := Apply(s, l), NextView(s, l, v);
      && t.pc.Keys == s.pc.Keys && w.runner == v.runner
      && Left(t.pc[l.c], w) == Left(s.pc[l.c], v) - 1
      && (if Left(t.pc[l.c], w) > 0 then Reversing(t.pc[l.c]) else t.pc[l.c].UPop? && w.rest == [])
      && Reverse(w.rest) + w.front == Reverse(v.rest) + v.front
      && (forall o :: o in w.rest ==> o in v.rest)
  {
    if s.pc[l.c].UWrite? {
      RoundKeepsReversal(v);
      assert IsList(s.next, s.pc[l.c].temp, v.rest[1..]);
      assert Apply(s, l) == AfterWrite(s, l.c);
    }
  }

  lemma RoundKeepsReversal(v: View)
    requires v.rest != []
    ensures Reverse(Moved(v).rest) + Moved(v).front == Reverse(v.rest) + v.front
  {
  }

  /** The reversal touches neither the arrivals pushed since the exchange nor their links. */
  lemma ReversalFrame(s: State, v: View, l: Label)
    requires Inv(s, v) && l.Step? && l.c == v.runner != NULL && Reversing(s.pc[l.c])
    ensures NextView(s, l, v).stack == v.stack && Apply(s, l).word == s.word
    ensures forall o :: o in s.next && o !in v.rest ==> o in Apply(s, l).next && Apply(s, l).next[o] == s.next[o]
    ensures forall o | o in v.stack :: o in s.next && o !in v.rest
  {
    if s.pc[l.c].UWrite? {
      assert s.pc[l.c].next == v.rest[0] && v.rest[0] in v.rest;
    }
  }

  /** The unlocker's countdown is not disturbed by the steps of other coroutines. */
  lemma OthersDoNotDisturb(s: State, l: Label, v: View)
    requires Inv(s, v) && Enabled(s, l) && v.runner != NULL && l.c != v.runner
    requires Reversing(s.pc[v.runner]) || s.pc[v.runner].UPop?
    ensures v.runner in Apply(s, l).pc && Apply(s, l).pc[v.runner] == s.pc[v.runner]
    ensures var w := NextView(s, l, v); w.runner == v.runner && w.rest == v.rest && w.front == v.front
  {
  }

  function OwnSteps(ls: seq<Label>, c: nat, i: nat, j: nat): nat
    requires i <= j <= |ls|
  {
    if i == j then 0 else OwnSteps(ls, c, i, j - 1) + if ls[j - 1].c == c then 1 else 0
  }

  /** What the reversal by `c` of the detached stack `xs` has reached after `m` steps of its own. */
  ghost predicate Halfway(s: State, v: View, c: nat, xs: seq<nat>, m: nat) {
    && Inv(s, v) && c == v.runner != NULL
    && Left(s.pc[c], v) == 2 * |xs| - m
    && (if m < 2 * |xs| then Reversing(s.pc[c]) else s.pc[c].UPop? && v.rest == [])
    && Reverse(v.rest) + v.front == Reverse(xs)
    && (forall o :: o in v.rest ==> o in xs)
  }

  /** The exchange detaches the stack that the lock word points to. */
  lemma ExchangeDetaches(s: State, v: View, l: Label, xs: seq<nat>)
    requires Inv(s, v) && Enabled(s, l) && l.Step? && s.pc[l.c].UExchange? && IsList(s.next, s.word, xs)
    ensures NoDup(xs) && Halfway(Apply(s, l), NextView(s, l, v), l.c, xs, 0)
  {
    ListUnique(s.next, s.word, v.stack, xs);
    DetachStep(s, l, v);
    assert v.rest == v.front == [];
  }

  lemma HalfwayStep(s: State, v: View, l: Label, c: nat, xs: seq<nat>, m: nat)
    requires Halfway(s, v, c, xs, m) && Enabled(s, l) && (l.c == c ==> m < 2 * |xs|)
    ensures Halfway(Apply(s, l), NextView(s, l, v), c, xs, if l.c == c then m + 1 else m)
  {
    StepKeepsInv(s, l, v);
    if l.c == c {
      ReversalStep(s, v, l);
    } else {
      OthersDoNotDisturb(s, l, v);
    }
  }

  lemma {:induction false} ReversalSoFar(ss: seq<State>, ls: seq<Label>, c: nat, xs: seq<nat>, i: nat, j: nat)
    returns (v: View)
    requires IsRun(ss, ls) && i < j <= |ls| && Exchanges(ss[i], ls[i], c)
    requires IsList(ss[i].next, ss[i].word, xs) && OwnSteps(ls, c, i + 1, j) <= 2 * |xs|
    ensures NoDup(xs) && Halfway(ss[j], v, c, xs, OwnSteps(ls, c, i + 1, j))
    decreases j
  {
    if j == i + 1 {
      RunConsistent(ss, ls, i);
      var u :| Inv(ss[i], u);
      ExchangeDetaches(ss[i], u, ls[i], xs);
      v := NextView(ss[i], ls[i], u);
    } else {
      var u := ReversalSoFar(ss, ls, c, xs, i, j - 1);
      HalfwayStep(ss[j - 1], u, ls[j - 1], c, xs, OwnSteps(ls, c, i + 1, j - 1));
      v := NextView(ss[j - 1], ls[j - 1], u);
    }
  }

  /** The owner detaches the stack of arrivals. */
  predicate Exchanges(s: State, l: Label, c: nat) {
    l.Step? && l.c == c && c in s.pc && s.pc[c].UExchange?
  }

  /**
   The reversal over a run, whatever the other coroutines do in between: it takes exactly two steps of its own for
   every detached operation, and then the holder's list is the detached stack `xs` backwards.
   */
  lemma ReversalOverRun(ss: seq<State>, ls: seq<Label>, c: nat, xs: seq<nat>, i: nat, j: nat)
    requires IsRun(ss, ls) && i < j <= |ls| && Exchanges(ss[i], ls[i], c)
    requires IsList(ss[i].next, ss[i].word, xs) && OwnSteps(ls, c, i + 1, j) <= 2 * |xs|
    ensures NoDup(xs) && c in ss[j].pc
    ensures OwnSteps(ls, c, i + 1, j) < 2 * |xs| ==> Reversing(ss[j].pc[c])
    ensures OwnSteps(ls, c, i + 1, j) == 2 * |xs| ==>
      ss[j].pc[c].UPop? && IsList(ss[j].next, ss[j].pc[c].head, Reverse(xs))
  {
    var v := ReversalSoFar(ss, ls, c, xs, i, j);
    if OwnSteps(ls, c, i + 1, j) == 2 * |xs| {
      assert v.front == Reverse(xs);
    }
  }

  lemma {:induction false} OwnStepsMonotone(ls: seq<Label>, c: nat, i: nat, j: nat, k: nat)
    requires i <= j <= k <= |ls|
    ensures OwnSteps(ls, c, i, j) <= OwnSteps(ls, c, i, k)
    decreases k
  {
    if j == k {
    } else {
      OwnStepsMonotone(ls, c, i, j, k - 1);
    }
  }

  /** During the reversal the unlocker writes no link but those of the operations it has detached. */
  lemma ReversalWritesOnlyDetached(
    ss: seq<State>, ls: seq<Label>, c: nat, xs: seq<nat>, i: nat, j: nat, k: nat, o: nat)
    requires IsRun(ss, ls) && i < k < j <= |ls| && Exchanges(ss[i], ls[i], c)
    requires IsList(ss[i].next, ss[i].word, xs) && OwnSteps(ls, c, i + 1, j) <= 2 * |xs|
    requires ls[k].c == c && o in ss[k].next && o !in xs
    ensures o in ss[k + 1].next && ss[k + 1].next[o] == ss[k].next[o]
    ensures ss[k + 1].word == ss[k].word
  {
    OwnStepsMonotone(ls, c, i + 1, k + 1, j);
    var v := ReversalSoFar(ss, ls, c, xs, i, k);
    ReversalFrame(ss[k], v, ls[k]);
  }

  // ---------------------------------------------------------------------------------------------
  // Runs.

  function HandOvers(events: seq<Event>, i: nat, j: nat): nat
    requires i <= j <= |events|
  {
    if i == j then 0 else HandOvers(events, i, j - 1) + if events[j - 1].HandOver? then 1 else 0
  }

  /** With `n` hand-overs between positions `i` and `j`, the waiter that had `r >= n` others ahead has `r - n`. */
  lemma {:induction false} RankFalls(locks: seq<Lock>, events: seq<Event>, i: nat, j: nat, r: nat)
    requires LockRun(locks, events) && i <= j < |locks|
    requires HandOvers(events, i, j) <= r < |locks[i].queue|
    ensures var n := HandOvers(events, i, j);
      r - n < |locks[j].queue| && locks[j].queue[r - n] == locks[i].queue[r]
    decreases j
  {
    if i == j {
    } else {
      RankFalls(locks, events, i, j - 1, r);
      assert LockNext(locks[j - 1], events[j - 1], locks[j]);
    }
  }

  lemma BypassOfLock(locks: seq<Lock>, events: seq<Event>, i: nat, j: nat, r: nat)
    requires LockRun(locks, events) && i <= j < |events|
    requires HandOvers(events, i, j) == r < |locks[i].queue| && events[j].HandOver?
    ensures locks[j + 1].holder == locks[i].queue[r]
  {
    RankFalls(locks, events, i, j, r);
    assert LockNext(locks[j], events[j], locks[j + 1]);
  }

  /**
   Bounded bypass, over every run of the mutex: a waiter with `r` others ahead of it keeps its place in every step
   but a hand-over, and hand-over number `r + 1` gives it the lock.
   */
  lemma BoundedBypass(ss: seq<State>, ls: seq<Label>, i: nat, j: nat, r: nat)
    requires IsRun(ss, ls) && i <= j < |ls|
    requires Consistent(ss[i]) && r < |Abstract(ss[i]).queue|
    requires HandOvers(Events(ss, ls), i, j) == r && EventOf(ss[j], ls[j]).HandOver?
    ensures Consistent(ss[j + 1]) && Abstract(ss[j + 1]).holder == Abstract(ss[i]).queue[r]
  {
    RefinesFifoLock(ss, ls);
    BypassOfLock(Locks(ss), Events(ss, ls), i, j, r);
  }

  predicate IsWaiting(s: State, c: nat) {
    c in s.pc && s.pc[c].Waiting?
  }

  predicate Resumes(s: State, l: Label, c: nat)
    requires Enabled(s, l)
  {
    l.Step? && s.pc[l.c] == UResume(c)
  }

  /** Only a suspended coroutine is resumed, and only a running one suspends itself. */
  lemma TurnSafe(s: State, l: Label, c: nat)
    requires Consistent(s) && Enabled(s, l)
    ensures Resumes(s, l, c) ==> IsWaiting(s, c)
    ensures EventOf(s, l) == Enqueue(c) ==> !IsWaiting(s, c)
  {
    var v :| Inv(s, v);
    if Resumes(s, l, c) {
      assert l.c == v.runner;
    }
  }

  /** A suspension begins with the enqueue and ends with the resumption. */
  lemma WaitingChanges(s: State, l: Label, c: nat)
    requires Enabled(s, l)
    requires l.Step? && s.pc[l.c].UResume? ==> s.pc[l.c].head in s.pc && s.pc[l.c].head != l.c
    ensures IsWaiting(Apply(s, l), c) <==> EventOf(s, l) == Enqueue(c) || (IsWaiting(s, c) && !Resumes(s, l, c))
  {
  }

  ghost function Enqueues(ss: seq<State>, ls: seq<Label>, c: nat, n: nat): nat
    requires IsRun(ss, ls) && n <= |ls|
  {
    if n == 0 then 0
    else Enqueues(ss, ls, c, n - 1) + if EventOf(ss[n - 1], ls[n - 1]) == Enqueue(c) then 1 else 0
  }

  ghost function Resumptions(ss: seq<State>, ls: seq<Label>, c: nat, n: nat): nat
    requires IsRun(ss, ls) && n <= |ls|
  {
    if n == 0 then 0
    else Resumptions(ss, ls, c, n - 1) + if Resumes(ss[n - 1], ls[n - 1], c) then 1 else 0
  }

  /** Every suspension is ended by exactly one resumption, or is still going on. */
  lemma {:induction false} ResumedOncePerSuspension(ss: seq<State>, ls: seq<Label>, c: nat, n: nat)
    requires IsRun(ss, ls) && n <= |ls|
    ensures Enqueues(ss, ls, c, n) == Resumptions(ss, ls, c, n) + if IsWaiting(ss[n], c) then 1 else 0
  {
    if n == 0 {
    } else {
      ResumedOncePerSuspension(ss, ls, c, n - 1);
      RunConsistent(ss, ls, n - 1);
      StepAbstract(ss[n - 1], ls[n - 1]);
      TurnSafe(ss[n - 1], ls[n - 1], c);
      WaitingChanges(ss[n - 1], ls[n - 1], c);
    }
  }
}
