/**
 The completion handshake of `async<T>`, for a chain of coroutines of any length.

 Level 0 is the outermost awaiter, level `n` the innermost coroutine, and level `i` awaits level `i + 1`. Awaiting
 starts the child; then the awaiter registers its continuation and exchanges the child's flag, while the child runs
 on and exchanges the same flag when it has finished. Whoever comes second lets the awaiter go on.
 */
module Completion {
  import opened Sequences
  import opened Wrappers

  /** What a coroutine ends with. */
  datatype Outcome = Value(v: int) | Error(e: int)

  /** What level `i` ends with, given what it was awaiting ended with: it may use, replace, throw or catch it. */
  type Bodies = (nat, Outcome) -> Outcome

  /** The length of the chain below the outermost awaiter, its bodies, and the outcome of the innermost coroutine. */
  datatype Program = Program(n: nat, bodies: Bodies, leaf: Outcome)

  datatype Pc =
    | Created                 // at the initial suspend point
    | Running                 // in the body: before its await, or at work if innermost
    | SetContinuation         // try_set_continuation: about to store m_continuation
    | Register                // about to exchange the child's flag
    | Suspended
    | Continued               // await_resume: about to take the child's result
    | Storing(o: Outcome)     // about to store the result or exception
    | Final                   // final_awaitable: about to exchange its own flag
    | ResumeAwaiter           // about to resume the registered continuation
    | Done

  datatype State = State(
    pc: seq<Pc>,
    flag: seq<bool>,                 // m_state
    continuation: seq<bool>,         // m_continuation is set
    result: seq<Option<Outcome>>)    // the stored value or exception

  predicate Init(p: Program, s: State) {
    && p.n >= 1
    && |s.pc| == |s.flag| == |s.continuation| == |s.result| == p.n + 1
    && s.pc[0].Running?
    && (forall i :: 1 <= i <= p.n ==> s.pc[i].Created?)
    && (forall i :: 0 <= i <= p.n ==> !s.flag[i] && !s.continuation[i] && s.result[i].None?)
  }

  predicate Sized(p: Program, s: State) {
    p.n >= 1 && |s.pc| == |s.flag| == |s.continuation| == |s.result| == p.n + 1
  }

  /** Level `i` can take a step. */
  predicate Enabled(p: Program, s: State, i: nat) {
    Sized(p, s) && i <= p.n && !s.pc[i].Created? && !s.pc[i].Suspended? && !s.pc[i].Done?
  }

  function Goto(s: State, i: nat, pc: Pc): State
    requires i < |s.pc|
  {
    s.(pc := s.pc[i := pc])
  }

  function Apply(p: Program, s: State, i: nat): State
    requires Enabled(p, s, i)
  {
    match s.pc[i]
    case Running =>
      if i == p.n then Goto(s, i, Storing(p.leaf))
      else if s.pc[i + 1].Created? then Goto(Goto(s, i + 1, Running), i, SetContinuation)
      else Goto(s, i, Continued)
    case SetContinuation =>
      if i == p.n then s else Goto(s.(continuation := s.continuation[i + 1 := true]), i, Register)
    case Register =>
      if i == p.n then s
      else Goto(s.(flag := s.flag[i + 1 := true]), i, if s.flag[i + 1] then Continued else Suspended)
    case Continued =>
      if i == p.n || s.result[i + 1].None? then s else Goto(s, i, Storing(p.bodies(i, s.result[i + 1].value)))
    case Storing(o) => Goto(s.(result := s.result[i := Some(o)]), i, if i == 0 then Done else Final)
    case Final => Goto(s.(flag := s.flag[i := true]), i, if s.flag[i] then ResumeAwaiter else Done)
    case ResumeAwaiter => if i == 0 then s else Goto(Goto(s, i - 1, Continued), i, Done)
    case _ => s
  }

  /** The step lets level `k` go on behind its await. */
  predicate Continues(p: Program, s: State, i: nat, k: nat)
    requires Enabled(p, s, i)
  {
    k < p.n && !s.pc[k].Continued? && Apply(p, s, i).pc[k].Continued?
  }

  /** Level `i` has gone on behind its await. */
  predicate Passed(pc: Pc) {
    pc.Continued? || pc.Storing? || pc.Final? || pc.ResumeAwaiter? || pc.Done?
  }

  /**
   A continuation is resumed only if it has been registered and its coroutine is suspended, and before the awaiter can
   have destroyed the child; a result is taken only from a child that has stored it and will not run again.
   */
  predicate Safe(p: Program, s: State, i: nat)
    requires Enabled(p, s, i)
  {
    match s.pc[i]
    case ResumeAwaiter => i > 0 && s.continuation[i] && s.pc[i - 1].Suspended?
    case Continued => i < p.n && s.pc[i + 1].Done? && s.result[i + 1].Some?
    case SetContinuation => i < p.n
    case Register => i < p.n
    case _ => true
  }

  /** What level `i` ends with if every await is an ordinary call. */
  function Expected(p: Program, i: nat): Outcome
    decreases p.n - i
  {
    if i >= p.n then p.leaf else p.bodies(i, Expected(p, i + 1))
  }

  // ---------------------------------------------------------------------------------------------
  // The invariant.

  predicate AtWork(pc: Pc) {
    pc.Running? || pc.SetContinuation? || pc.Register? || pc.Suspended? || pc.Continued? || pc.Storing? || pc.Final?
  }

  /** The handshake between level `i` and the level it awaits. */
  predicate Link(p: Program, s: State, i: nat)
    requires Sized(p, s) && i < p.n
  {
    var parent, child := s.pc[i], s.pc[i + 1];
    match parent
    case Created => child.Created? && !s.flag[i + 1]
    case Running => child.Created? && !s.flag[i + 1]
    case SetContinuation => (AtWork(child) && !s.flag[i + 1]) || (child.Done? && s.flag[i + 1])
    case Register =>
      && s.continuation[i + 1]
      && ((AtWork(child) && !s.flag[i + 1]) || (child.Done? && s.flag[i + 1]))
    case Suspended => s.continuation[i + 1] && s.flag[i + 1] && (AtWork(child) || child.ResumeAwaiter?)
    case _ => child.Done?
  }

  predicate Level(p: Program, s: State, i: nat)
    requires Sized(p, s) && i <= p.n
  {
    var pc := s.pc[i];
    && (pc.Final? || pc.ResumeAwaiter? || pc.Done? ==> s.result[i] == Some(Expected(p, i)))
    && (pc.Storing? ==> pc.o == Expected(p, i))
    && (i == p.n ==> !(pc.SetContinuation? || pc.Register? || pc.Suspended? || pc.Continued?))
    && (i == 0 ==> !(pc.Created? || pc.Final? || pc.ResumeAwaiter?))
  }

  ghost predicate Inv(p: Program, s: State) {
    && Sized(p, s)
    && (forall i :: 0 <= i < p.n ==> Link(p, s, i))
    && (forall i :: 0 <= i <= p.n ==> Level(p, s, i))
  }

  lemma StepSafe(p: Program, s: State, i: nat)
    requires Inv(p, s) && Enabled(p, s, i)
    ensures Safe(p, s, i)
  {
    assert Level(p, s, i);
    assert i < p.n ==> Link(p, s, i) && Level(p, s, i + 1);
    assert i > 0 ==> Link(p, s, i - 1);
  }

  lemma OwnLink(p: Program, s: State, i: nat)
    requires Inv(p, s) && Enabled(p, s, i) && Safe(p, s, i) && i < p.n
    ensures Link(p, Apply(p, s, i), i)
  {
    assert Link(p, s, i);
    assert i > 0 ==> Link(p, s, i - 1);
  }

  lemma AwaiterLink(p: Program, s: State, i: nat)
    requires Inv(p, s) && Enabled(p, s, i) && Safe(p, s, i) && i > 0
    ensures Link(p, Apply(p, s, i), i - 1)
  {
    assert Link(p, s, i - 1);
    assert i < p.n ==> Link(p, s, i);
  }

  lemma OtherLinks(p: Program, s: State, i: nat, k: nat)
    requires Inv(p, s) && Enabled(p, s, i) && Safe(p, s, i) && k < p.n && k != i && k + 1 != i
    ensures Link(p, Apply(p, s, i), k)
  {
    assert Link(p, s, k);
    assert i < p.n ==> Link(p, s, i);
    assert i > 0 ==> Link(p, s, i - 1);
  }

  lemma StepKeepsLinks(p: Program, s: State, i: nat, k: nat)
    requires Inv(p, s) && Enabled(p, s, i) && Safe(p, s, i) && k < p.n
    ensures Link(p, Apply(p, s, i), k)
  {
    if k == i {
      OwnLink(p, s, i);
    } else if k + 1 == i {
      AwaiterLink(p, s, i);
    } else {
      OtherLinks(p, s, i, k);
    }
  }

  lemma StepKeepsLevels(p: Program, s: State, i: nat, k: nat)
    requires Inv(p, s) && Enabled(p, s, i) && Safe(p, s, i) && k <= p.n
    ensures Level(p, Apply(p, s, i), k)
  {
    assert Level(p, s, k);
    assert k < p.n ==> Level(p, s, k + 1);
    assert i > 0 && s.pc[i].ResumeAwaiter? ==> Level(p, s, i - 1);
  }

  lemma StepKeepsInv(p: Program, s: State, i: nat)
    requires Inv(p, s) && Enabled(p, s, i)
    ensures Safe(p, s, i) && Inv(p, Apply(p, s, i))
  {
    StepSafe(p, s, i);
    var t := Apply(p, s, i);
    forall k | 0 <= k < p.n ensures Link(p, t, k) {
      StepKeepsLinks(p, s, i, k);
    }
    forall k | 0 <= k <= p.n ensures Level(p, t, k) {
      StepKeepsLevels(p, s, i, k);
    }
  }

  // ---------------------------------------------------------------------------------------------
  // Runs.

  ghost predicate IsRun(p: Program, ss: seq<State>, ls: seq<nat>) {
    && |ss| == |ls| + 1
    && Init(p, ss[0])
    && forall i :: 0 <= i < |ls| ==> Enabled(p, ss[i], ls[i]) && ss[i + 1] == Apply(p, ss[i], ls[i])
  }

  lemma {:induction false} RunInv(p: Program, ss: seq<State>, ls: seq<nat>, m: nat)
    requires IsRun(p, ss, ls) && m <= |ls|
    ensures Inv(p, ss[m])
    ensures m < |ls| ==> Safe(p, ss[m], ls[m])
  {
    if m == 0 {
    } else {
      RunInv(p, ss, ls, m - 1);
      StepKeepsInv(p, ss[m - 1], ls[m - 1]);
    }
    if m < |ls| {
      StepKeepsInv(p, ss[m], ls[m]);
    }
  }

  /** In every interleaving the outermost awaiter ends with what ordinary nested calls would have given it. */
  lemma EndsAsIfCalled(p: Program, ss: seq<State>, ls: seq<nat>, m: nat)
    requires IsRun(p, ss, ls) && m <= |ls|
    ensures Sized(p, ss[m])
    ensures ss[m].pc[0].Done? ==> ss[m].result[0] == Some(Expected(p, 0))
  {
    RunInv(p, ss, ls, m);
    assert Level(p, ss[m], 0);
  }

  /** What is on its way to be stored, or has been. */
  function Outcomes(s: State, i: nat): Option<Outcome>
    requires i < |s.pc| == |s.result|
  {
    if s.pc[i].Storing? then Some(s.pc[i].o) else s.result[i]
  }

  /** The outcome of level `i` is that of its own body, given the stored outcome of the level it awaits. */
  predicate Composed(p: Program, s: State, i: nat)
    requires Sized(p, s) && i <= p.n
  {
    Outcomes(s, i).Some? ==>
      if i == p.n then Outcomes(s, i).value == p.leaf
      else s.result[i + 1].Some? && Outcomes(s, i).value == p.bodies(i, s.result[i + 1].value)
  }

  /** Nothing is stored before the level gets there, or twice. */
  predicate StoresOnce(s: State, i: nat)
    requires i < |s.pc| == |s.result|
  {
    s.result[i].Some? <==> s.pc[i].Final? || s.pc[i].ResumeAwaiter? || s.pc[i].Done?
  }

  lemma StepComposes(p: Program, s: State, i: nat, k: nat)
    requires Enabled(p, s, i) && Safe(p, s, i) && k <= p.n && Composed(p, s, k) && StoresOnce(s, k)
    requires StoresOnce(s, i) && (k < p.n ==> StoresOnce(s, k + 1))
    requires s.pc[i].ResumeAwaiter? && i == k + 1 ==> s.result[k].None?
    ensures Composed(p, Apply(p, s, i), k)
  {
  }

  lemma StepStoresOnce(p: Program, s: State, i: nat, k: nat)
    requires Enabled(p, s, i) && Safe(p, s, i) && k <= p.n && StoresOnce(s, k)
    requires k > 0 ==> s.pc[k - 1].Running? && s.pc[k].Created? ==> s.result[k].None?
    ensures StoresOnce(Apply(p, s, i), k)
  {
  }

  /** In every state of a run, every level has ended with what its own body makes of the level below, and stored it. */
  lemma {:induction false} RunComposes(p: Program, ss: seq<State>, ls: seq<nat>, m: nat)
    requires IsRun(p, ss, ls) && m <= |ls|
    ensures Sized(p, ss[m])
    ensures forall k :: 0 <= k <= p.n ==> Composed(p, ss[m], k) && StoresOnce(ss[m], k)
  {
    RunInv(p, ss, ls, m);
    if m == 0 {
    } else {
      RunComposes(p, ss, ls, m - 1);
      RunInv(p, ss, ls, m - 1);
      forall k | 0 <= k <= p.n ensures Composed(p, ss[m], k) && StoresOnce(ss[m], k) {
        StepComposes(p, ss[m - 1], ls[m - 1], k);
        StepStoresOnce(p, ss[m - 1], ls[m - 1], k);
      }
    }
  }

  /**
   A level that has stored an outcome was given the one its child has stored, and has stored what its body makes of it:
   a value, or an exception thrown or passed on.
   */
  lemma OutcomesCompose(p: Program, ss: seq<State>, ls: seq<nat>, m: nat, i: nat)
    requires IsRun(p, ss, ls) && m <= |ls| && i <= p.n
    ensures Sized(p, ss[m])
    ensures ss[m].result[i].Some? && i == p.n ==> ss[m].result[i].value == p.leaf
    ensures ss[m].result[i].Some? && i < p.n ==>
      ss[m].result[i + 1].Some? && ss[m].result[i].value == p.bodies(i, ss[m].result[i + 1].value)
    ensures ss[m].result[i].Some? <==> ss[m].pc[i].Final? || ss[m].pc[i].ResumeAwaiter? || ss[m].pc[i].Done?
  {
    RunComposes(p, ss, ls, m);
    assert Composed(p, ss[m], i) && StoresOnce(ss[m], i);
  }

  lemma {:induction false} LevelsBelowAreDone(p: Program, s: State, i: nat, k: nat)
    requires Inv(p, s) && i < k <= p.n && Passed(s.pc[i])
    ensures s.pc[k].Done? && s.result[k] == Some(Expected(p, k))
    decreases k - i
  {
    assert Link(p, s, i);
    if i + 1 == k {
      assert Level(p, s, k);
    } else {
      LevelsBelowAreDone(p, s, i + 1, k);
    }
  }

  /** An awaiter that has gone on finds all levels below it completed. */
  lemma InnermostFirst(p: Program, ss: seq<State>, ls: seq<nat>, m: nat, i: nat, k: nat)
    requires IsRun(p, ss, ls) && m <= |ls| && i < k <= p.n
    ensures Sized(p, ss[m])
    ensures Passed(ss[m].pc[i]) ==> ss[m].pc[k].Done? && ss[m].result[k] == Some(Expected(p, k))
  {
    RunInv(p, ss, ls, m);
    if Passed(ss[m].pc[i]) {
      LevelsBelowAreDone(p, ss[m], i, k);
    }
  }

  ghost function Continuations(p: Program, ss: seq<State>, ls: seq<nat>, k: nat, m: nat): nat
    requires IsRun(p, ss, ls) && m <= |ls|
  {
    if m == 0 then 0
    else Continuations(p, ss, ls, k, m - 1) + if Continues(p, ss[m - 1], ls[m - 1], k) then 1 else 0
  }

  lemma PassedChanges(p: Program, s: State, i: nat, k: nat)
    requires Inv(p, s) && Enabled(p, s, i) && k < p.n
    ensures Passed(Apply(p, s, i).pc[k]) <==> Passed(s.pc[k]) || Continues(p, s, i, k)
    ensures Continues(p, s, i, k) ==> !Passed(s.pc[k])
  {
    assert i < p.n ==> Link(p, s, i);
    assert i > 0 ==> Link(p, s, i - 1);
    assert Level(p, s, i);
  }

  /** Every awaiter goes on exactly once: never before its child has completed, and never a second time. */
  lemma {:induction false} ContinuesOnce(p: Program, ss: seq<State>, ls: seq<nat>, k: nat, m: nat)
    requires IsRun(p, ss, ls) && m <= |ls| && k < p.n
    ensures Sized(p, ss[m])
    ensures Continuations(p, ss, ls, k, m) == if Passed(ss[m].pc[k]) then 1 else 0
    ensures Passed(ss[m].pc[k]) ==> ss[m].pc[k + 1].Done?
  {
    RunInv(p, ss, ls, m);
    assert Link(p, ss[m], k);
    if m == 0 {
    } else {
      ContinuesOnce(p, ss, ls, k, m - 1);
      RunInv(p, ss, ls, m - 1);
      PassedChanges(p, ss[m - 1], ls[m - 1], k);
    }
  }

  /** A level that has been started and has not ended moves, or a level below it does. */
  lemma {:induction false} SomeLevelMoves(p: Program, s: State, i: nat) returns (k: nat)
    requires Inv(p, s) && i <= p.n && !s.pc[i].Created? && !s.pc[i].Done?
    ensures k >= i && Enabled(p, s, k)
    decreases p.n - i
  {
    assert Level(p, s, i);
    if s.pc[i].Suspended? {
      assert Link(p, s, i);
      k := SomeLevelMoves(p, s, i + 1);
    } else {
      k := i;
    }
  }

  function Rank(pc: Pc): nat {
    match pc
    case Created => 9
    case Running => 8
    case SetContinuation => 7
    case Register => 6
    case Suspended => 5
    case Continued => 4
    case Storing(_) => 3
    case Final => 2
    case ResumeAwaiter => 1
    case Done => 0
  }

  function Ranks(s: State): seq<nat> {
    seq(|s.pc|, i requires 0 <= i < |s.pc| => Rank(s.pc[i]))
  }

  lemma GotoRank(s: State, i: nat, pc: Pc)
    requires i < |s.pc|
    ensures Sum(Ranks(Goto(s, i, pc))) + Rank(s.pc[i]) == Sum(Ranks(s)) + Rank(pc)
  {
    SumUpdate(Ranks(s), i, Rank(pc));
    assert Ranks(Goto(s, i, pc)) == Ranks(s)[i := Rank(pc)];
  }

  /** A step that moves one level. */
  lemma OneLevelDescends(p: Program, s: State, i: nat)
    requires Enabled(p, s, i) && Safe(p, s, i) && !s.pc[i].ResumeAwaiter?
    requires s.pc[i].Running? ==> i == p.n || !s.pc[i + 1].Created?
    requires s.pc[i].Continued? ==> i < p.n && s.result[i + 1].Some?
    ensures Sum(Ranks(Apply(p, s, i))) < Sum(Ranks(s))
  {
    var t := Apply(p, s, i);
    GotoRank(s, i, t.pc[i]);
    assert Ranks(t) == Ranks(Goto(s, i, t.pc[i]));
  }

  lemma CallDescends(p: Program, s: State, i: nat)
    requires Enabled(p, s, i) && s.pc[i].Running? && i < p.n && s.pc[i + 1].Created?
    ensures Sum(Ranks(Apply(p, s, i))) < Sum(Ranks(s))
  {
    GotoRank(s, i + 1, Running);
    GotoRank(Goto(s, i + 1, Running), i, SetContinuation);
  }

  lemma ResumptionDescends(p: Program, s: State, i: nat)
    requires Enabled(p, s, i) && Safe(p, s, i) && s.pc[i].ResumeAwaiter?
    ensures Sum(Ranks(Apply(p, s, i))) < Sum(Ranks(s))
  {
    GotoRank(s, i - 1, Continued);
    GotoRank(Goto(s, i - 1, Continued), i, Done);
  }

  lemma StepDescends(p: Program, s: State, i: nat)
    requires Inv(p, s) && Enabled(p, s, i)
    ensures Sum(Ranks(Apply(p, s, i))) < Sum(Ranks(s))
  {
    StepSafe(p, s, i);
    if s.pc[i].Running? && i < p.n && s.pc[i + 1].Created? {
      CallDescends(p, s, i);
    } else if s.pc[i].ResumeAwaiter? {
      ResumptionDescends(p, s, i);
    } else {
      OneLevelDescends(p, s, i);
    }
  }

  lemma {:induction false} RunDescends(p: Program, ss: seq<State>, ls: seq<nat>, m: nat)
    requires IsRun(p, ss, ls) && m <= |ls|
    ensures m + Sum(Ranks(ss[m])) <= 9 * (p.n + 1)
  {
    if m == 0 {
      SumBound(Ranks(ss[0]), 9);
    } else {
      RunDescends(p, ss, ls, m - 1);
      RunInv(p, ss, ls, m - 1);
      StepDescends(p, ss[m - 1], ls[m - 1]);
    }
  }

  /**
   Total correctness: every run is finite, and one that cannot be continued has brought the outermost awaiter the
   outcome of ordinary nested calls.
   */
  lemma AlwaysCompletes(p: Program, ss: seq<State>, ls: seq<nat>)
    requires IsRun(p, ss, ls)
    ensures |ls| <= 9 * (p.n + 1)
    ensures Sized(p, ss[|ls|])
    ensures (forall i :: !Enabled(p, ss[|ls|], i)) ==>
      ss[|ls|].pc[0].Done? && ss[|ls|].result[0] == Some(Expected(p, 0))
  {
    var s := ss[|ls|];
    RunDescends(p, ss, ls, |ls|);
    RunInv(p, ss, ls, |ls|);
    assert Level(p, s, 0);
    if !s.pc[0].Done? {
      var k := SomeLevelMoves(p, s, 0);
    }
  }

  lemma {:induction false} UncaughtErrorPropagates(p: Program, k: nat, e: int)
    requires k <= p.n && Expected(p, k) == Error(e)
    requires forall i :: 0 <= i < k ==> p.bodies(i, Error(e)) == Error(e)
    ensures Expected(p, 0) == Error(e)
  {
    if k == 0 {
    } else {
      UncaughtErrorPropagates(p, k - 1, e);
    }
  }

  /**
   An exception that a level stores and no level above catches is what the outermost awaiter ends with, in every
   interleaving: it is never lost on the way, and never arrives as a value.
   */
  lemma UncaughtErrorArrives(p: Program, ss: seq<State>, ls: seq<nat>, k: nat, e: int, m: nat, n: nat)
    requires IsRun(p, ss, ls) && m <= |ls| && n <= |ls| && 1 <= k <= p.n
    requires forall i :: 0 <= i < k ==> p.bodies(i, Error(e)) == Error(e)
    ensures Sized(p, ss[m]) && Sized(p, ss[n])
    ensures ss[m].result[k] == Some(Error(e)) && ss[n].pc[0].Done? ==> ss[n].result[0] == Some(Error(e))
  {
    RunInv(p, ss, ls, m);
    EndsAsIfCalled(p, ss, ls, n);
    StoredIsExpected(p, ss, ls, m, k);
    if ss[m].result[k] == Some(Error(e)) {
      UncaughtErrorPropagates(p, k, e);
    }
  }

  /** What a level has stored is what it ends with if every await is an ordinary call. */
  lemma {:induction false} StoredIsExpected(p: Program, ss: seq<State>, ls: seq<nat>, m: nat, k: nat)
    requires IsRun(p, ss, ls) && m <= |ls| && k <= p.n
    ensures Sized(p, ss[m])
    ensures ss[m].result[k].Some? ==> ss[m].result[k].value == Expected(p, k)
  {
    if m == 0 {
    } else {
      StoredIsExpected(p, ss, ls, m - 1, k);
      RunInv(p, ss, ls, m - 1);
      StepKeepsInv(p, ss[m - 1], ls[m - 1]);
      assert Level(p, ss[m - 1], ls[m - 1]);
    }
  }
}
