/**
 `context`: threads in `run`, calls of `stop`, and the wake-ups they pass to one another.

 Packets form a bag, from which a waiting thread takes any non-empty part, so nothing depends on their order. With
 `oneSlot` an interrupt that is already pending absorbs another one, as the one-shot wake-ups of epoll and kqueue do;
 without it every interrupt is a packet of its own, as on a completion port.
 */
module Context {
  import opened Sequences

  const STOP_REQUESTED: nat := 1
  const THREAD_COUNT_INCREMENT: nat := 2
  const WORD: nat := 0x1_0000_0000

  datatype Packet = Interrupt | Io(id: nat)

  /** A thread and `run`. */
  datatype Thread =
    | Outside
    | Entering                                          // about to add to state_
    | Waiting                                           // in the wait for packets
    | Handling(batch: seq<Packet>, interrupted: bool)   // in the loop over the received packets
    | Checking                                          // interrupted: about to load state_
    | Leaving                                           // about to subtract from state_
    | Interrupting                                      // about to post the last interrupt

  /** A call of `stop`. */
  datatype Stopper = Ready | Posting(idle: bool) | Returned(idle: bool)

  datatype State = State(
    oneSlot: bool,
    word: nat,                   // state_
    queue: multiset<Packet>,
    threads: seq<Thread>,
    stoppers: seq<Stopper>)

  datatype Label =
    | Enter(t: nat)
    | Receive(t: nat, batch: seq<Packet>)    // the wait returns these packets
    | Fail(t: nat)                           // the wait fails
    | Step(t: nat)
    | Stop(k: nat)                           // fetch_or
    | StopPost(k: nat)                       // interrupt() in stop
    | Post(packet: Packet)                   // a completion, or interrupt() called by anyone

  predicate Init(s: State) {
    && s.word == 0 && s.queue == multiset{}
    && (forall t :: 0 <= t < |s.threads| ==> s.threads[t].Outside?)
    && (forall k :: 0 <= k < |s.stoppers| ==> s.stoppers[k].Ready?)
  }

  predicate Enabled(s: State, l: Label) {
    match l
    case Enter(t) => t < |s.threads| && s.threads[t].Outside?
    case Receive(t, batch) => t < |s.threads| && s.threads[t].Waiting? && batch != [] && multiset(batch) <= s.queue
    case Fail(t) => t < |s.threads| && s.threads[t].Waiting?
    case Step(t) => t < |s.threads| && !s.threads[t].Outside? && !s.threads[t].Waiting?
    case Stop(k) => k < |s.stoppers| && s.stoppers[k].Ready?
    case StopPost(k) => k < |s.stoppers| && s.stoppers[k].Posting?
    case Post(_) => true
  }

  function Add(w: nat): nat { (w + THREAD_COUNT_INCREMENT) % WORD }

  function Subtract(w: nat): nat { (w + WORD - THREAD_COUNT_INCREMENT) % WORD }

  predicate StopBit(w: nat) { w % 2 == STOP_REQUESTED }

  /** `fetch_or(stop_requested_flag)`. */
  function SetStopBit(w: nat): nat { if StopBit(w) then w else w + STOP_REQUESTED }

  function ThreadCount(w: nat): nat { w / THREAD_COUNT_INCREMENT }

  function Interrupted(s: State): multiset<Packet> {
    if s.oneSlot && Interrupt in s.queue then s.queue else s.queue + multiset{Interrupt}
  }

  function Goto(s: State, t: nat, pc: Thread): State
    requires t < |s.threads|
  {
    s.(threads := s.threads[t := pc])
  }

  function Apply(s: State, l: Label): State
    requires Enabled(s, l)
  {
    match l
    case Enter(t) => Goto(s, t, Entering)
    case Receive(t, batch) => Goto(s.(queue := s.queue - multiset(batch)), t, Handling(batch, false))
    case Fail(t) => Goto(s, t, Leaving)
    case Step(t) => (
      match s.threads[t]
      case Entering => Goto(s.(word := Add(s.word)), t, Waiting)
      case Handling(batch, interrupted) =>
        if batch == [] then Goto(s, t, if interrupted then Checking else Waiting)
        else Goto(s, t, Handling(batch[1..], interrupted || batch[0].Interrupt?))
      case Checking => Goto(s, t, if StopBit(s.word) then Leaving else Waiting)
      case Leaving => Goto(s.(word := Subtract(s.word)), t, Interrupting)
      case Interrupting => Goto(s.(queue := Interrupted(s)), t, Outside)
      case _ => s)
    case Stop(k) =>
      s.(word := SetStopBit(s.word), stoppers := s.stoppers[k := Posting(ThreadCount(s.word) == 0)])
    case StopPost(k) => s.(queue := Interrupted(s), stoppers := s.stoppers[k := Returned(s.stoppers[k].idle)])
    case Post(packet) => s.(queue := if packet.Interrupt? then Interrupted(s) else s.queue + multiset{packet})
  }

  // ---------------------------------------------------------------------------------------------
  // Thread accounting.

  /** The thread is between the addition and the subtraction. */
  predicate Counted(pc: Thread) {
    pc.Waiting? || pc.Handling? || pc.Checking? || pc.Leaving?
  }

  function Counts(threads: seq<Thread>): seq<nat> {
    seq(|threads|, t requires 0 <= t < |threads| => if Counted(threads[t]) then 1 else 0)
  }

  function Running(threads: seq<Thread>): nat {
    Sum(Counts(threads))
  }

  /** A call of `stop` has set the stop bit. */
  predicate Stopping(stoppers: seq<Stopper>) {
    exists k :: 0 <= k < |stoppers| && !stoppers[k].Ready?
  }

  /** A call of `stop` has finished. */
  predicate HasStopped(stoppers: seq<Stopper>) {
    exists k :: 0 <= k < |stoppers| && stoppers[k].Returned?
  }

  /** What `state_` is, given the threads counted and whether a stop has been requested. */
  function WordOf(n: nat, stopping: bool): nat {
    (2 * n + if stopping then 1 else 0) % WORD
  }

  predicate Accounts(s: State) {
    s.word == WordOf(Running(s.threads), Stopping(s.stoppers))
  }

  /** The thread has taken an interrupt and has not posted its own yet. */
  predicate Carries(pc: Thread) {
    match pc
    case Handling(batch, interrupted) => interrupted || Interrupt in batch
    case Checking => true
    case Leaving => true
    case Interrupting => true
    case _ => false
  }

  predicate Cascades(s: State) {
    HasStopped(s.stoppers) ==> Interrupt in s.queue || exists t :: 0 <= t < |s.threads| && Carries(s.threads[t])
  }

  predicate Inv(s: State) {
    Accounts(s) && Cascades(s)
  }

  lemma CountsUpdate(threads: seq<Thread>, t: nat, pc: Thread)
    requires t < |threads|
    ensures Sum(Counts(threads[t := pc])) + (if Counted(threads[t]) then 1 else 0)
         == Sum(Counts(threads)) + (if Counted(pc) then 1 else 0)
  {
    SumUpdate(Counts(threads), t, if Counted(pc) then 1 else 0);
    assert Counts(threads[t := pc]) == Counts(threads)[t := if Counted(pc) then 1 else 0];
  }

  lemma WordCounts(n: nat, b: bool)
    ensures Add(WordOf(n, b)) == WordOf(n + 1, b)
    ensures n > 0 ==> Subtract(WordOf(n, b)) == WordOf(n - 1, b)
  {
  }

  lemma WordFlags(n: nat, b: bool)
    ensures StopBit(WordOf(n, b)) <==> b
    ensures SetStopBit(WordOf(n, b)) == WordOf(n, true)
    ensures ThreadCount(WordOf(n, b)) == n % (WORD / 2)
  {
  }

  lemma ThreadStepMoves(s: State, l: Label)
    requires Enabled(s, l) && (l.Enter? || l.Receive? || l.Fail? || l.Step?)
    ensures |Apply(s, l).threads| == |s.threads| && Apply(s, l).threads == s.threads[l.t := Apply(s, l).threads[l.t]]
    ensures Counted(Apply(s, l).threads[l.t]) <==>
      (Counted(s.threads[l.t]) || (l.Step? && s.threads[l.t].Entering?)) && !(l.Step? && s.threads[l.t].Leaving?)
  {
  }

  /** The threads counted before and after a step of one of them. */
  lemma ThreadStepCounts(s: State, l: Label)
    requires Enabled(s, l) && (l.Enter? || l.Receive? || l.Fail? || l.Step?)
    ensures var before, after := Running(s.threads), Running(Apply(s, l).threads);
      if l.Step? && s.threads[l.t].Entering? then after == before + 1
      else if l.Step? && s.threads[l.t].Leaving? then after == before - 1
      else after == before
  {
    ThreadStepMoves(s, l);
    CountsUpdate(s.threads, l.t, Apply(s, l).threads[l.t]);
  }

  lemma ThreadStepAccounts(s: State, l: Label)
    requires Accounts(s) && Enabled(s, l) && (l.Enter? || l.Receive? || l.Fail? || l.Step?)
    ensures Accounts(Apply(s, l)) && Apply(s, l).stoppers == s.stoppers
  {
    ThreadStepCounts(s, l);
    var n := Running(s.threads);
    if l.Step? && (s.threads[l.t].Entering? || s.threads[l.t].Leaving?) {
      WordCounts(n, Stopping(s.stoppers));
    } else {
      assert Apply(s, l).word == s.word;
    }
  }

  lemma StopStepAccounts(s: State, l: Label)
    requires Accounts(s) && Enabled(s, l) && (l.Stop? || l.StopPost?)
    ensures Accounts(Apply(s, l)) && Stopping(Apply(s, l).stoppers)
  {
    var t := Apply(s, l);
    assert !t.stoppers[l.k].Ready?;
    WordFlags(Running(s.threads), Stopping(s.stoppers));
    if l.StopPost? {
      assert !s.stoppers[l.k].Ready?;
    }
  }

  lemma StepAccounts(s: State, l: Label)
    requires Accounts(s) && Enabled(s, l)
    ensures Accounts(Apply(s, l))
    ensures Stopping(s.stoppers) ==> Stopping(Apply(s, l).stoppers)
  {
    match l {
      case Post(_) =>
      case Stop(_) => StopStepAccounts(s, l);
      case StopPost(_) => StopStepAccounts(s, l);
      case _ => ThreadStepAccounts(s, l);
    }
  }

  // ---------------------------------------------------------------------------------------------
  // The cascade.

  lemma CarrierKept(s: State, t: State, i: nat, pc: Thread)
    requires i < |s.threads| && t.threads == s.threads[i := pc] && t.stoppers == s.stoppers
    requires Cascades(s) && (Interrupt in s.queue ==> Interrupt in t.queue || Carries(pc))
    requires Carries(s.threads[i]) ==> Carries(pc) || Interrupt in t.queue
    ensures Cascades(t)
  {
    if HasStopped(s.stoppers) && Interrupt !in t.queue && !Carries(pc) {
      var j :| 0 <= j < |s.threads| && Carries(s.threads[j]);
      assert t.threads[j] == s.threads[j];
    } else if Carries(pc) {
      assert Carries(t.threads[i]);
    }
  }

  lemma BatchCarries(batch: seq<Packet>, queue: multiset<Packet>)
    requires multiset(batch) <= queue && Interrupt in queue
    ensures Interrupt in queue - multiset(batch) || Interrupt in batch
  {
  }

  lemma ReceiveCascades(s: State, l: Label)
    requires Cascades(s) && Enabled(s, l) && l.Receive?
    ensures Cascades(Apply(s, l))
  {
    if Interrupt in s.queue {
      BatchCarries(l.batch, s.queue);
    }
    CarrierKept(s, Apply(s, l), l.t, Handling(l.batch, false));
  }

  lemma HandlingCascades(s: State, l: Label)
    requires Cascades(s) && Enabled(s, l) && l.Step? && s.threads[l.t].Handling?
    ensures Cascades(Apply(s, l))
  {
    var Handling(batch, interrupted) := s.threads[l.t];
    if batch != [] {
      assert batch == [batch[0]] + batch[1..];
      CarrierKept(s, Apply(s, l), l.t, Handling(batch[1..], interrupted || batch[0].Interrupt?));
    } else {
      CarrierKept(s, Apply(s, l), l.t, if interrupted then Checking else Waiting);
    }
  }

  lemma ThreadStepCascades(s: State, l: Label)
    requires Inv(s) && Enabled(s, l) && (l.Enter? || l.Fail? || l.Step?)
    requires l.Step? ==> !s.threads[l.t].Handling?
    ensures Cascades(Apply(s, l))
  {
    if HasStopped(s.stoppers) {
      WordFlags(Running(s.threads), Stopping(s.stoppers));
      CarrierKept(s, Apply(s, l), l.t, Apply(s, l).threads[l.t]);
    }
  }

  lemma StepKeepsInv(s: State, l: Label)
    requires Inv(s) && Enabled(s, l)
    ensures Inv(Apply(s, l))
  {
    StepAccounts(s, l);
    match l {
      case Post(_) =>
      case Stop(k) =>
        assert forall i :: 0 <= i < |s.stoppers| && Apply(s, l).stoppers[i].Returned? ==> s.stoppers[i].Returned?;
      case StopPost(_) =>
      case Receive(_, _) => ReceiveCascades(s, l);
      case Step(t) => if s.threads[t].Handling? { HandlingCascades(s, l); } else { ThreadStepCascades(s, l); }
      case _ => ThreadStepCascades(s, l);
    }
  }

  // ---------------------------------------------------------------------------------------------
  // Runs.

  ghost predicate IsRun(ss: seq<State>, ls: seq<Label>) {
    && |ss| == |ls| + 1
    && Init(ss[0])
    && forall i :: 0 <= i < |ls| ==> Enabled(ss[i], ls[i]) && ss[i + 1] == Apply(ss[i], ls[i])
  }

  lemma {:induction false} NobodyCounted(threads: seq<Thread>)
    requires forall t :: 0 <= t < |threads| ==> !Counted(threads[t])
    ensures Sum(Counts(threads)) == 0
  {
    SumBound(Counts(threads), 0);
  }

  lemma {:induction false} RunInv(ss: seq<State>, ls: seq<Label>, n: nat)
    requires IsRun(ss, ls) && n <= |ls|
    ensures Inv(ss[n])
  {
    if n == 0 {
      NobodyCounted(ss[0].threads);
    } else {
      RunInv(ss, ls, n - 1);
      StepKeepsInv(ss[n - 1], ls[n - 1]);
    }
  }

  /**
   `state_` is twice the number of threads between the addition and the subtraction plus the stop bit, up to the width
   of the word; below 2^31 threads it is exactly that.
   */
  lemma ThreadAccounting(ss: seq<State>, ls: seq<Label>, n: nat)
    requires IsRun(ss, ls) && n <= |ls|
    ensures ss[n].word == (2 * Running(ss[n].threads) + if Stopping(ss[n].stoppers) then 1 else 0) % WORD
    ensures Running(ss[n].threads) < WORD / 2 ==>
      ss[n].word == 2 * Running(ss[n].threads) + if Stopping(ss[n].stoppers) then 1 else 0
    ensures StopBit(ss[n].word) <==> Stopping(ss[n].stoppers)
  {
    RunInv(ss, ls, n);
    WordFlags(Running(ss[n].threads), Stopping(ss[n].stoppers));
  }

  lemma StopBitStays(s: State, l: Label)
    requires Accounts(s) && Enabled(s, l) && StopBit(s.word)
    ensures StopBit(Apply(s, l).word)
  {
  }

  /** The stop bit never clears. */
  lemma {:induction false} StopIsForever(ss: seq<State>, ls: seq<Label>, i: nat, n: nat)
    requires IsRun(ss, ls) && i <= n <= |ls| && StopBit(ss[i].word)
    ensures StopBit(ss[n].word)
    decreases n
  {
    if i == n {
    } else {
      StopIsForever(ss, ls, i, n - 1);
      RunInv(ss, ls, n - 1);
      StopBitStays(ss[n - 1], ls[n - 1]);
    }
  }

  /** `stop` answers whether the number of running threads is a multiple of 2^31; below that, whether it is zero. */
  lemma StopReportsIdle(ss: seq<State>, ls: seq<Label>, n: nat)
    requires IsRun(ss, ls) && n < |ls| && ls[n].Stop?
    ensures ls[n].k < |ss[n + 1].stoppers| && ss[n + 1].stoppers[ls[n].k].Posting?
    ensures ss[n + 1].stoppers[ls[n].k].idle <==> Running(ss[n].threads) % (WORD / 2) == 0
    ensures Running(ss[n].threads) < WORD / 2 ==> (ss[n + 1].stoppers[ls[n].k].idle <==> Running(ss[n].threads) == 0)
  {
    RunInv(ss, ls, n);
    WordFlags(Running(ss[n].threads), Stopping(ss[n].stoppers));
  }

  /**
   A call of `stop` that has begun answers, whenever it returns, what the number of running threads was when it set the
   stop bit.
   */
  lemma {:induction false} StopAnswers(ss: seq<State>, ls: seq<Label>, n: nat, k: nat) returns (m: nat)
    requires IsRun(ss, ls) && n <= |ls| && k < |ss[n].stoppers| && !ss[n].stoppers[k].Ready?
    ensures m < n && ls[m] == Stop(k)
    ensures ss[n].stoppers[k].idle <==> Running(ss[m].threads) % (WORD / 2) == 0
    ensures Running(ss[m].threads) < WORD / 2 ==> (ss[n].stoppers[k].idle <==> Running(ss[m].threads) == 0)
  {
    assert n > 0;
    if ls[n - 1] == Stop(k) {
      m := n - 1;
      StopReportsIdle(ss, ls, m);
    } else {
      StopperStep(ss[n - 1], ls[n - 1], k);
      m := StopAnswers(ss, ls, n - 1, k);
    }
  }

  /** A `stop` begins with its own step and keeps its answer from then on. */
  lemma StopperStep(s: State, l: Label, k: nat)
    requires Enabled(s, l) && k < |Apply(s, l).stoppers| && l != Stop(k)
    ensures k < |s.stoppers| && (Apply(s, l).stoppers[k].Ready? <==> s.stoppers[k].Ready?)
    ensures !s.stoppers[k].Ready? ==> Apply(s, l).stoppers[k].idle == s.stoppers[k].idle
  {
  }

  // ---------------------------------------------------------------------------------------------
  // What a thread in `run` has received.

  /** The packets that thread `t` has last received. */
  function LastBatch(ls: seq<Label>, n: nat, t: nat): seq<Packet>
    requires n <= |ls|
  {
    if n == 0 then [] else if ls[n - 1].Receive? && ls[n - 1].t == t then ls[n - 1].batch else LastBatch(ls, n - 1, t)
  }

  /** The last wait of thread `t` has failed. */
  predicate WaitFailed(ls: seq<Label>, n: nat, t: nat)
    requires n <= |ls|
  {
    n > 0 &&
    if ls[n - 1] == Fail(t) then true
    else !(ls[n - 1].Enter? && ls[n - 1].t == t) && WaitFailed(ls, n - 1, t)
  }

  /** Steps of thread `t` since it has last received packets. */
  function StepsSince(ls: seq<Label>, n: nat, t: nat): nat
    requires n <= |ls|
  {
    if n == 0 || (ls[n - 1].Receive? && ls[n - 1].t == t) then 0
    else StepsSince(ls, n - 1, t) + if ls[n - 1] == Step(t) then 1 else 0
  }

  lemma StillHandling(s: State, l: Label, t: nat)
    requires Enabled(s, l) && t < |Apply(s, l).threads| && Apply(s, l).threads[t].Handling?
    requires !(l.Receive? && l.t == t)
    ensures t < |s.threads| && s.threads[t].Handling?
    ensures |s.threads[t].batch| == |Apply(s, l).threads[t].batch| + (if l == Step(t) then 1 else 0)
  {
  }

  lemma PacketTaken(ss: seq<State>, ls: seq<Label>, n: nat, t: nat)
    requires IsRun(ss, ls) && 0 < n <= |ls| && t < |ss[n].threads| && ss[n].threads[t].Handling?
    requires !(ls[n - 1].Receive? && ls[n - 1].t == t)
    ensures t < |ss[n - 1].threads| && ss[n - 1].threads[t].Handling?
    ensures |ss[n].threads[t].batch| + StepsSince(ls, n, t)
         == |ss[n - 1].threads[t].batch| + StepsSince(ls, n - 1, t)
    ensures LastBatch(ls, n, t) == LastBatch(ls, n - 1, t)
  {
    StillHandling(ss[n - 1], ls[n - 1], t);
  }

  /** A thread in the loop over its packets deals with one of them in each step. */
  lemma {:induction false} OnePacketPerStep(ss: seq<State>, ls: seq<Label>, n: nat, t: nat)
    requires IsRun(ss, ls) && n <= |ls| && t < |ss[n].threads| && ss[n].threads[t].Handling?
    ensures |ss[n].threads[t].batch| + StepsSince(ls, n, t) == |LastBatch(ls, n, t)|
    decreases n
  {
    if n == 0 {
    } else if ls[n - 1].Receive? && ls[n - 1].t == t {
      assert ss[n] == Apply(ss[n - 1], ls[n - 1]);
    } else {
      PacketTaken(ss, ls, n, t);
      OnePacketPerStep(ss, ls, n - 1, t);
    }
  }

  /** Where a thread is in `run`, given the packets it has last received and whether its wait has failed. */
  predicate Consistent(pc: Thread, last: seq<Packet>, failed: bool, stopping: bool) {
    match pc
    case Outside => true
    case Entering => !failed
    case Waiting => !failed
    case Handling(batch, interrupted) =>
      && !failed && |batch| <= |last| && batch == last[|last| - |batch|..]
      && (interrupted <==> Interrupt in last[..|last| - |batch|])
    case Checking => !failed && Interrupt in last
    case Leaving => failed || (Interrupt in last && stopping)
    case Interrupting => failed || (Interrupt in last && stopping)
  }

  lemma OwnStepConsistent(s: State, l: Label, last: seq<Packet>, failed: bool)
    requires Enabled(s, l) && l.Step? && Consistent(s.threads[l.t], last, failed, StopBit(s.word))
    ensures Consistent(Apply(s, l).threads[l.t], last, failed, StopBit(Apply(s, l).word))
  {
    if s.threads[l.t].Handling? && s.threads[l.t].batch != [] {
      var done := |last| - |s.threads[l.t].batch|;
      assert last[..done + 1] == last[..done] + [last[done]];
    }
  }

  /** A call of `run`, or the end of a wait. */
  lemma BeginningConsistent(s: State, l: Label, last: seq<Packet>, failed: bool)
    requires Enabled(s, l) && (l.Enter? || l.Receive? || l.Fail?)
    requires Consistent(s.threads[l.t], last, failed, StopBit(s.word))
    ensures Consistent(Apply(s, l).threads[l.t], if l.Receive? then l.batch else last,
                       l.Fail? || (failed && !l.Enter?), StopBit(Apply(s, l).word))
  {
  }

  lemma OtherStepConsistent(s: State, l: Label, t: nat, last: seq<Packet>, failed: bool)
    requires Enabled(s, l) && t < |s.threads| && Apply(s, l).threads[t] == s.threads[t]
    requires StopBit(s.word) ==> StopBit(Apply(s, l).word)
    requires Consistent(s.threads[t], last, failed, StopBit(s.word))
    ensures Consistent(Apply(s, l).threads[t], last, failed, StopBit(Apply(s, l).word))
  {
  }

  /** The label is about thread `t`. */
  predicate About(l: Label, t: nat) {
    (l.Enter? || l.Receive? || l.Fail? || l.Step?) && l.t == t
  }

  lemma {:induction false} RunConsistent(ss: seq<State>, ls: seq<Label>, n: nat, t: nat)
    requires IsRun(ss, ls) && n <= |ls| && t < |ss[n].threads|
    ensures Consistent(ss[n].threads[t], LastBatch(ls, n, t), WaitFailed(ls, n, t), StopBit(ss[n].word))
  {
    if n == 0 {
    } else {
      var s, l := ss[n - 1], ls[n - 1];
      var last, failed := LastBatch(ls, n - 1, t), WaitFailed(ls, n - 1, t);
      RunConsistent(ss, ls, n - 1, t);
      RunInv(ss, ls, n - 1);
      if l == Step(t) {
        OwnStepConsistent(s, l, last, failed);
      } else if About(l, t) {
        BeginningConsistent(s, l, last, failed);
      } else {
        if StopBit(s.word) {
          StopBitStays(s, l);
        }
        OtherStepConsistent(s, l, t, last, failed);
      }
    }
  }

  /**
   A thread leaves `run` only if its wait has failed, or it has received an interrupt and a `stop` has been requested.
   One whose wait has failed does leave.
   */
  lemma LeavesOnlyWhenStopped(ss: seq<State>, ls: seq<Label>, n: nat, t: nat)
    requires IsRun(ss, ls) && n <= |ls| && t < |ss[n].threads|
    ensures ss[n].threads[t].Leaving? || ss[n].threads[t].Interrupting? ==>
      WaitFailed(ls, n, t) || (Interrupt in LastBatch(ls, n, t) && Stopping(ss[n].stoppers))
    ensures WaitFailed(ls, n, t) ==>
      ss[n].threads[t].Leaving? || ss[n].threads[t].Interrupting? || ss[n].threads[t].Outside?
  {
    RunConsistent(ss, ls, n, t);
    ThreadAccounting(ss, ls, n);
  }

  /** The loop over a batch has noted an interrupt exactly if there was one among the packets it has dealt with. */
  lemma NotesInterrupts(ss: seq<State>, ls: seq<Label>, n: nat, t: nat)
    requires IsRun(ss, ls) && n <= |ls| && t < |ss[n].threads| && ss[n].threads[t].Handling?
    ensures var last, rest := LastBatch(ls, n, t), ss[n].threads[t].batch;
      && |rest| <= |last| && last == last[..|last| - |rest|] + rest
      && (ss[n].threads[t].interrupted <==> Interrupt in last[..|last| - |rest|])
  {
    RunConsistent(ss, ls, n, t);
  }

  // ---------------------------------------------------------------------------------------------
  // Packets.

  function PostedIo(ls: seq<Label>, n: nat, id: nat): nat
    requires n <= |ls|
  {
    if n == 0 then 0 else PostedIo(ls, n - 1, id) + if ls[n - 1] == Post(Io(id)) then 1 else 0
  }

  function Received(ls: seq<Label>, n: nat, p: Packet): nat
    requires n <= |ls|
  {
    if n == 0 then 0 else Received(ls, n - 1, p) + if ls[n - 1].Receive? then multiset(ls[n - 1].batch)[p] else 0
  }

  /** Calls of `interrupt`: by anyone, by `stop`, and by a thread that has left its loop. */
  predicate Interrupts(s: State, l: Label)
    requires Enabled(s, l)
  {
    l == Post(Interrupt) || l.StopPost? || (l.Step? && s.threads[l.t].Interrupting?)
  }

  ghost function PostedInterrupts(ss: seq<State>, ls: seq<Label>, n: nat): nat
    requires IsRun(ss, ls) && n <= |ls|
  {
    if n == 0 then 0 else PostedInterrupts(ss, ls, n - 1) + if Interrupts(ss[n - 1], ls[n - 1]) then 1 else 0
  }

  lemma InterruptedQueue(s: State, p: Packet)
    ensures p.Io? ==> Interrupted(s)[p] == s.queue[p]
    ensures p.Interrupt? && !s.oneSlot ==> Interrupted(s)[p] == s.queue[p] + 1
    ensures s.oneSlot && s.queue[Interrupt] <= 1 ==> Interrupted(s)[Interrupt] == 1
  {
  }

  lemma QueueAfter(s: State, l: Label)
    requires Enabled(s, l)
    ensures Apply(s, l).oneSlot == s.oneSlot
    ensures Apply(s, l).queue ==
      if l.Receive? then s.queue - multiset(l.batch)
      else if Interrupts(s, l) then Interrupted(s)
      else if l.Post? then s.queue + multiset{l.packet}
      else s.queue
  {
  }

  lemma StepPackets(s: State, l: Label, p: Packet)
    requires Enabled(s, l)
    ensures p.Io? || !s.oneSlot ==>
      Apply(s, l).queue[p] + (if l.Receive? then multiset(l.batch)[p] else 0)
        == s.queue[p] + if l == Post(p) || (p.Interrupt? && Interrupts(s, l)) then 1 else 0
    ensures s.oneSlot && s.queue[Interrupt] <= 1 ==>
      Apply(s, l).queue[Interrupt] <= 1 && (Interrupts(s, l) ==> Apply(s, l).queue[Interrupt] == 1)
  {
    QueueAfter(s, l);
    InterruptedQueue(s, p);
    InterruptedQueue(s, Interrupt);
  }

  /**
   No packet is lost or delivered twice: what has been posted is received or still queued. With one slot at most one
   interrupt is pending.
   */
  lemma {:induction false} PacketsAreConserved(ss: seq<State>, ls: seq<Label>, n: nat, id: nat)
    requires IsRun(ss, ls) && n <= |ls|
    ensures ss[n].oneSlot == ss[0].oneSlot
    ensures Received(ls, n, Io(id)) + ss[n].queue[Io(id)] == PostedIo(ls, n, id)
    ensures !ss[0].oneSlot ==>
      Received(ls, n, Interrupt) + ss[n].queue[Interrupt] == PostedInterrupts(ss, ls, n)
    ensures ss[0].oneSlot ==> ss[n].queue[Interrupt] <= 1
  {
    if n == 0 {
    } else {
      PacketsAreConserved(ss, ls, n - 1, id);
      QueueAfter(ss[n - 1], ls[n - 1]);
      StepPackets(ss[n - 1], ls[n - 1], Io(id));
      StepPackets(ss[n - 1], ls[n - 1], Interrupt);
    }
  }

  /** `entered` threads waiting in `run`, the others outside, and one call of `stop` to come. */
  function Crowd(entered: nat, outside: nat): State {
    State(false, WordOf(entered, false), multiset{},
          seq(entered, _ => Waiting) + seq(outside, _ => Outside), [Ready])
  }

  /** Any number of threads can be in `run`. */
  lemma {:induction false} CrowdGathers(entered: nat, outside: nat) returns (ss: seq<State>, ls: seq<Label>)
    ensures IsRun(ss, ls) && ss[|ls|] == Crowd(entered, outside)
  {
    if entered == 0 {
      ss, ls := [Crowd(0, outside)], [];
    } else {
      ss, ls := CrowdGathers(entered - 1, outside + 1);
      ss, ls := Extended(ss, ls, Enter(entered - 1));
      ss, ls := Extended(ss, ls, Step(entered - 1));
      WordCounts(entered - 1, false);
      assert ss[|ls|].threads == Crowd(entered, outside).threads;
    }
  }

  lemma Extended(ss: seq<State>, ls: seq<Label>, l: Label) returns (tt: seq<State>, ms: seq<Label>)
    requires IsRun(ss, ls) && Enabled(ss[|ls|], l)
    ensures IsRun(tt, ms) && ms == ls + [l] && tt == ss + [Apply(ss[|ls|], l)]
  {
    tt, ms := ss + [Apply(ss[|ls|], l)], ls + [l];
  }

  lemma CrowdCounts(entered: nat, outside: nat)
    ensures Running(Crowd(entered, outside).threads) == entered
    decreases entered
  {
    var threads := Crowd(entered, outside).threads;
    if entered == 0 {
      NobodyCounted(threads);
    } else {
      CrowdCounts(entered - 1, outside + 1);
      CountsUpdate(Crowd(entered - 1, outside + 1).threads, entered - 1, Waiting);
      assert Crowd(entered - 1, outside + 1).threads[entered - 1 := Waiting] == threads;
    }
  }

  /** The width of the word: with 2^31 threads in `run`, `stop` answers that there is none. */
  lemma StopMiscounts() returns (ss: seq<State>, ls: seq<Label>)
    ensures IsRun(ss, ls) && |ls| > 0 && ls[|ls| - 1] == Stop(0)
    ensures Running(ss[|ls| - 1].threads) == WORD / 2
    ensures |ss[|ls|].stoppers| == 1 && ss[|ls|].stoppers[0] == Posting(true)
  {
    ss, ls := CrowdGathers(WORD / 2, 0);
    CrowdCounts(WORD / 2, 0);
    WordFlags(WORD / 2, false);
    ss, ls := Extended(ss, ls, Stop(0));
  }

  /** The destructor's assertion holds once every call of `run` has returned. */
  lemma DestructorSafe(ss: seq<State>, ls: seq<Label>, n: nat)
    requires IsRun(ss, ls) && n <= |ls|
    requires forall t :: 0 <= t < |ss[n].threads| ==> ss[n].threads[t].Outside?
    ensures ThreadCount(ss[n].word) == 0
  {
    RunInv(ss, ls, n);
    NobodyCounted(ss[n].threads);
    WordFlags(Running(ss[n].threads), Stopping(ss[n].stoppers));
  }

  /** After a finished `stop` there is always an interrupt pending, or a thread that has taken one and will post one. */
  lemma StopCascade(ss: seq<State>, ls: seq<Label>, n: nat)
    requires IsRun(ss, ls) && n <= |ls| && HasStopped(ss[n].stoppers)
    ensures Interrupt in ss[n].queue || exists t :: 0 <= t < |ss[n].threads| && Carries(ss[n].threads[t])
  {
    RunInv(ss, ls, n);
  }

  // ---------------------------------------------------------------------------------------------
  // The cascade reaches every thread.

  /** Nothing but the threads in `run` and the calls of `stop` already begun. */
  predicate Quiet(l: Label) {
    l.Receive? || l.Step? || l.StopPost?
  }

  function Weight(pc: Thread): nat {
    match pc
    case Outside => 0
    case Entering => 7
    case Waiting => 6
    case Handling(batch, _) => 8 + |batch|
    case Checking => 7
    case Leaving => 6
    case Interrupting => 5
  }

  function Weights(threads: seq<Thread>): seq<nat> {
    seq(|threads|, t requires 0 <= t < |threads| => Weight(threads[t]))
  }

  function Pending(stoppers: seq<Stopper>): seq<nat> {
    seq(|stoppers|, k requires 0 <= k < |stoppers| => if stoppers[k].Returned? then 0 else 5)
  }

  /** A bound on the steps still to come. */
  function Work(s: State): nat {
    4 * |s.queue| + Sum(Weights(s.threads)) + Sum(Pending(s.stoppers))
  }

  lemma WeightsUpdate(threads: seq<Thread>, t: nat, pc: Thread)
    requires t < |threads|
    ensures Sum(Weights(threads[t := pc])) + Weight(threads[t]) == Sum(Weights(threads)) + Weight(pc)
  {
    SumUpdate(Weights(threads), t, Weight(pc));
    assert Weights(threads[t := pc]) == Weights(threads)[t := Weight(pc)];
  }

  lemma PendingUpdate(stoppers: seq<Stopper>, k: nat, idle: bool)
    requires k < |stoppers| && stoppers[k].Posting?
    ensures Sum(Pending(stoppers[k := Returned(idle)])) + 5 == Sum(Pending(stoppers))
  {
    SumUpdate(Pending(stoppers), k, 0);
    assert Pending(stoppers[k := Returned(idle)]) == Pending(stoppers)[k := 0];
  }

  lemma ReceiveDescends(s: State, l: Label)
    requires Enabled(s, l) && l.Receive?
    ensures Work(Apply(s, l)) < Work(s)
  {
    WeightsUpdate(s.threads, l.t, Handling(l.batch, false));
    assert |multiset(l.batch)| == |l.batch|;
    assert |s.queue - multiset(l.batch)| == |s.queue| - |l.batch|;
  }

  lemma InterruptAdds(s: State)
    ensures |Interrupted(s)| <= |s.queue| + 1
  {
  }

  lemma RunStepDescends(s: State, l: Label)
    requires Enabled(s, l) && l.Step?
    ensures Work(Apply(s, l)) < Work(s)
  {
    var t := Apply(s, l);
    InterruptAdds(s);
    assert t.threads == s.threads[l.t := t.threads[l.t]];
    WeightsUpdate(s.threads, l.t, t.threads[l.t]);
    assert Weight(t.threads[l.t]) < Weight(s.threads[l.t]);
  }

  lemma QuietStepDescends(s: State, l: Label)
    requires Enabled(s, l) && Quiet(l)
    ensures Work(Apply(s, l)) < Work(s)
  {
    match l {
      case Receive(_, _) => ReceiveDescends(s, l);
      case Step(_) => RunStepDescends(s, l);
      case StopPost(k) =>
        InterruptAdds(s);
        PendingUpdate(s.stoppers, k, s.stoppers[k].idle);
    }
  }

  /** If nothing can happen any more, and a `stop` has finished, no thread is left in `run`. */
  lemma QuiescentMeansEmpty(s: State)
    requires Inv(s) && HasStopped(s.stoppers)
    requires forall l :: Quiet(l) ==> !Enabled(s, l)
    ensures forall t :: 0 <= t < |s.threads| ==> s.threads[t].Outside?
  {
    forall t | 0 <= t < |s.threads| ensures s.threads[t].Outside? || s.threads[t].Waiting? {
      assert Quiet(Step(t)) ==> !Enabled(s, Step(t));
    }
    assert Interrupt in s.queue;
    forall t | 0 <= t < |s.threads| ensures s.threads[t].Outside? {
      assert multiset([Interrupt]) <= s.queue;
      assert Quiet(Receive(t, [Interrupt])) ==> !Enabled(s, Receive(t, [Interrupt]));
    }
  }

  lemma {:induction false} QuietRunDescends(ss: seq<State>, ls: seq<Label>, i: nat, n: nat)
    requires IsRun(ss, ls) && i <= n <= |ls| && forall k :: i <= k < n ==> Quiet(ls[k])
    ensures (n - i) + Work(ss[n]) <= Work(ss[i])
    decreases n
  {
    if i == n {
    } else {
      QuietRunDescends(ss, ls, i, n - 1);
      QuietStepDescends(ss[n - 1], ls[n - 1]);
    }
  }

  /**
   Once a `stop` has finished and no new packets, calls or failures come in, the remaining run is finite, and when it
   cannot be continued every thread has returned from `run`, the late ones included.
   */
  lemma StopEmptiesTheContext(ss: seq<State>, ls: seq<Label>, i: nat)
    requires IsRun(ss, ls) && i <= |ls| && HasStopped(ss[i].stoppers)
    requires forall k :: i <= k < |ls| ==> Quiet(ls[k])
    ensures |ls| - i <= Work(ss[i])
    ensures (forall l :: Quiet(l) ==> !Enabled(ss[|ls|], l)) ==>
      forall t :: 0 <= t < |ss[|ls|].threads| ==> ss[|ls|].threads[t].Outside?
  {
    QuietRunDescends(ss, ls, i, |ls|);
    RunInv(ss, ls, |ls|);
    HasStoppedStays(ss, ls, i, |ls|);
    if forall l :: Quiet(l) ==> !Enabled(ss[|ls|], l) {
      QuiescentMeansEmpty(ss[|ls|]);
    }
  }

  lemma StepKeepsStopped(s: State, l: Label)
    requires Enabled(s, l) && HasStopped(s.stoppers)
    ensures HasStopped(Apply(s, l).stoppers)
  {
    var k :| 0 <= k < |s.stoppers| && s.stoppers[k].Returned?;
    assert Apply(s, l).stoppers[k].Returned?;
  }

  lemma {:induction false} HasStoppedStays(ss: seq<State>, ls: seq<Label>, i: nat, n: nat)
    requires IsRun(ss, ls) && i <= n <= |ls| && HasStopped(ss[i].stoppers)
    ensures HasStopped(ss[n].stoppers)
    decreases n
  {
    if i == n {
    } else {
      HasStoppedStays(ss, ls, i, n - 1);
      StepKeepsStopped(ss[n - 1], ls[n - 1]);
    }
  }

  // ---------------------------------------------------------------------------------------------
  // The loop over the received packets.

  /** `resumed` are the events of the packets that have one, in order; `from` says where each was found. */
  ghost predicate InOrder(packets: seq<Packet>, from: seq<nat>, resumed: seq<nat>) {
    && |from| == |resumed|
    && (forall i, j :: 0 <= i < j < |from| ==> from[i] < from[j])
    && (forall i :: 0 <= i < |from| ==> from[i] < |packets| && packets[from[i]] == Io(resumed[i]))
    && (forall p :: 0 <= p < |packets| && packets[p].Io? ==> p in from)
  }

  lemma OneMorePacket(packets: seq<Packet>, from: seq<nat>, resumed: seq<nat>, packet: Packet)
    requires InOrder(packets, from, resumed)
    ensures packet.Interrupt? ==> InOrder(packets + [packet], from, resumed)
    ensures packet.Io? ==> InOrder(packets + [packet], from + [|packets|], resumed + [packet.id])
  {
    if packet.Io? {
      var all, places := packets + [packet], from + [|packets|];
      forall p | 0 <= p < |all| && all[p].Io? ensures p in places {
        if p < |packets| {
          assert p in from;
        } else {
          assert places[|from|] == p;
        }
      }
    }
  }

  /** The inner loop of `run`: resumes the event of every packet that has one, and notes whether one has none. */
  method HandleBatch(events: array<Packet>, count: nat)
    returns (interrupted: bool, resumed: seq<nat>, ghost from: seq<nat>)
    requires count <= events.Length
    ensures interrupted <==> Interrupt in events[..count]
    ensures InOrder(events[..count], from, resumed)
  {
    interrupted := false;
    resumed, from := [], [];
    for i := 0 to count
      invariant interrupted <==> Interrupt in events[..i]
      invariant InOrder(events[..i], from, resumed)
    {
      assert events[..i + 1] == events[..i] + [events[i]];
      OneMorePacket(events[..i], from, resumed, events[i]);
      match events[i] {
        case Io(id) =>
          resumed := resumed + [id];
          from := from + [i];
          continue;
        case Interrupt =>
      }
      interrupted := true;
    }
  }
}
