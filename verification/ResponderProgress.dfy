/** The responder ends: a bound on its runs, and what is true where no step is left. */
module ResponderProgress {
  import M = Mutex
  import MR = MutexRuns
  import MP = MutexProgress
  import S = Send
  import Scan = Scanner
  import opened Sequences
  import opened Responder
  import opened ResponderRuns

  // ---------------------------------------------------------------------------------------------
  // The measure.

  /** Steps of a send operation whose writes make progress. */
  function OpWeight(op: S.Op): nat {
    4 * op.size + match op.phase
      case Writing => 1
      case Arming => 3
      case Suspended => 2
      case Continued => 0
  }

  function TaskWeight(t: Task): nat {
    OpWeight(t.op) + match t.stage
      case Locking => 2
      case Sending => 1
      case Leaving => 0
  }

  function TaskWeights(tasks: seq<Task>): seq<nat> {
    seq(|tasks|, i requires 0 <= i < |tasks| => TaskWeight(tasks[i]))
  }

  function PositionWeight(p: Position): nat {
    match p
    case Receiving => 16
    case Scanning(chunk, i) => if i <= |chunk| then 17 + 2 * (|chunk| - i) else 17
    case Calling(chunk, i, _) => if i <= |chunk| then 18 + 2 * (|chunk| - i) else 18
    case Draining => 0
    case Failed => 0
  }

  /** The mutex, with the handler and every responder, has measure `w`. */
  ghost predicate LockWeighs(s: State, w: nat) {
    MP.Weighs(s.mutex, 1, |s.tasks| + 1, w)
  }

  /** Steps that can still be taken with the bytes delivered so far, `w` being the measure of the mutex. */
  function Weight(s: State, w: nat): nat {
    w + Outer(s)
  }

  /** The part outside the mutex. */
  function Outer(s: State): nat {
    Sum(TaskWeights(s.tasks)) + PositionWeight(s.position)
  }

  /** What the kernel or a spurious failure adds. */
  function Price(l: Label): nat {
    match l
    case Recv(chunk, _) => 4 * |chunk|
    case LockStep(_, spurious) => MP.Price(spurious)
    case Io(_, io) => if io == S.Write(S.Again) || io == S.Write(S.Interrupted) then 3 else 0
    case _ => 0
  }

  lemma TasksUpdate(tasks: seq<Task>, k: nat, t: Task)
    requires k < |tasks|
    ensures Sum(TaskWeights(tasks[k := t])) + TaskWeight(tasks[k]) == Sum(TaskWeights(tasks)) + TaskWeight(t)
  {
    assert TaskWeights(tasks[k := t]) == TaskWeights(tasks)[k := TaskWeight(t)];
    SumUpdate(TaskWeights(tasks), k, TaskWeight(t));
  }

  lemma TasksGrow(tasks: seq<Task>, t: Task)
    ensures Sum(TaskWeights(tasks + [t])) == Sum(TaskWeights(tasks)) + TaskWeight(t)
  {
    assert TaskWeights(tasks + [t])[..|tasks|] == TaskWeights(tasks);
  }

  /** The coroutines of the system, at most one of which is entering the mutex. */
  ghost predicate Setting(s: State) {
    && (forall c :: c in s.mutex.pc <==> 2 <= c < |s.tasks| + 3)
    && |MP.Entrants(s.mutex.pc, |s.tasks| + 1)| <= 1
  }

  /** The view without the line for the lock. */
  ghost predicate Shows(s: State, v: View) {
    v.kinds == Kinds(s.mutex) && v.position == s.position && v.tasks == s.tasks
  }

  lemma SettingHolds(s: State, j: nat, responses: Responses)
    requires Inv(s, j, responses)
    ensures Setting(s)
  {
    var v :| Sees(s, v) && Core(v, j, responses);
    SettingOf(s, v, j, responses);
  }

  lemma SettingOf(s: State, v: View, j: nat, responses: Responses)
    requires Shows(s, v) && Core(v, j, responses)
    ensures Setting(s)
  {
    assert forall c :: c in v.kinds <==> c in s.mutex.pc;
    var entrants := MP.Entrants(s.mutex.pc, |s.tasks| + 1);
    forall c, d | c in entrants && d in entrants ensures c == d {
      OneTaking(v, j, responses, c, d);
    }
    AtMostOne(entrants);
  }

  lemma AtMostOne(a: set<nat>)
    requires forall c, d :: c in a && d in a ==> c == d
    ensures |a| <= 1
  {
    if a != {} {
      var c :| c in a;
      assert a == {c};
    }
  }

  lemma OneTaking(v: View, j: nat, responses: Responses, c: nat, d: nat)
    requires Core(v, j, responses) && At(v, c) == Taking && At(v, d) == Taking
    ensures c == d
  {
    assert c in v.kinds && d in v.kinds;
    assert c != HANDLER ==> TaskOk(v, c - 3, responses);
    assert d != HANDLER ==> TaskOk(v, d - 3, responses);
  }

  // ---------------------------------------------------------------------------------------------
  // Steps.

  lemma LockStepDescends(s: State, t: State, c: nat, spurious: bool, w: nat) returns (x: nat)
    requires M.Enabled(s.mutex, M.Step(c, spurious)) && Setting(s)
    requires t.mutex == M.Apply(s.mutex, M.Step(c, spurious)) && |t.tasks| == |s.tasks| && LockWeighs(s, w)
    ensures LockWeighs(t, x) && x + 1 <= w + MP.Price(spurious)
  {
    x := MP.StepWeighs(s.mutex, c, spurious, 1, |s.tasks| + 1, w);
  }

  lemma IoWeight(op: S.Op, k: nat, io: S.Io)
    requires S.CanDo(op, io)
    ensures OpWeight(S.Do(op, io)) + 1 <= OpWeight(op) + Price(Io(k, io))
  {
  }

  lemma TaskOuter(s: State, l: Label, responses: Responses)
    requires Enabled(s, l) && (l.Begin? || l.Io? || l.Leave?)
    ensures Outer(Act(s, l, responses)) + 1 <= Outer(s) + Price(l)
  {
    TasksUpdate(s.tasks, l.k, Act(s, l, responses).tasks[l.k]);
    if l.Io? {
      IoWeight(s.tasks[l.k].op, l.k, l.io);
    }
  }

  lemma LeaveUnlocks(s: State, k: nat, responses: Responses)
    requires Enabled(s, Leave(k))
    ensures var t := Act(s, Leave(k), responses);
      t.mutex == M.Apply(s.mutex, M.Unlock(Addr(k))) && |t.tasks| == |s.tasks|
    ensures 2 <= Addr(k) < |s.tasks| + 3
  {
  }

  /** A coroutine begins to take the lock, or to give it up. */
  lemma EntryDescends(s: State, t: State, l: M.Label, w: nat) returns (x: nat)
    requires M.Enabled(s.mutex, l) && (l.LockAsync? || l.Unlock?) && 2 <= l.c < |s.tasks| + 3
    requires t.mutex == M.Apply(s.mutex, l) && |t.tasks| == |s.tasks| && LockWeighs(s, w)
    ensures LockWeighs(t, x) && x <= w + if l.Unlock? then 0 else 15
  {
    x := MP.EntryWeighs(s.mutex, l, 1, |s.tasks| + 1, w);
  }

  lemma TaskStepDescends(s: State, l: Label, w: nat, responses: Responses) returns (x: nat)
    requires Enabled(s, l) && (l.Begin? || l.Io? || l.Leave?) && LockWeighs(s, w)
    ensures LockWeighs(Act(s, l, responses), x) && x <= w
  {
    if l.Leave? {
      LeaveUnlocks(s, l.k, responses);
      x := EntryDescends(s, Act(s, l, responses), M.Unlock(Addr(l.k)), w);
    } else {
      x := w;
    }
  }

  /** What one more responder adds, once started. */
  function SpawnPrice(s: State, l: Label, responses: Responses): nat
    requires Enabled(s, l)
  {
    if l.ScanByte? && !Plain(s, l) then 18 + 4 * |responses(|s.tasks|)| else 0
  }

  /** A responder is created and begins to take the lock. */
  lemma SpawnDescends(s: State, t: State, garbage: nat, w: nat) returns (x: nat)
    requires M.Enabled(s.mutex, M.Create(Addr(|s.tasks|), garbage))
    requires t.mutex == Spawned(s.mutex, Addr(|s.tasks|), garbage) && |t.tasks| == |s.tasks| + 1 && LockWeighs(s, w)
    ensures LockWeighs(t, x) && x <= w + 15
  {
    var c := Addr(|s.tasks|);
    var m := M.Apply(s.mutex, M.Create(c, garbage));
    x := MP.CreateWeighs(s.mutex, M.Create(c, garbage), 1, |s.tasks| + 1, w);
    MP.WiderWeighs(m, 1, |s.tasks| + 1, x);
    x := MP.EntryWeighs(m, M.LockAsync(c, garbage), 1, |s.tasks| + 2, x);
  }

  lemma ScanOuter(s: State, l: Label, responses: Responses)
    requires Enabled(s, l) && l.ScanByte?
    ensures Outer(Act(s, l, responses)) + 1 + (if Plain(s, l) then 0 else 15)
         <= Outer(s) + SpawnPrice(s, l, responses)
  {
    if !Plain(s, l) {
      TasksGrow(s.tasks, Task(S.Start(responses(|s.tasks|)), Locking));
    }
  }

  lemma ScanDescends(s: State, l: Label, w: nat, responses: Responses) returns (x: nat)
    requires Enabled(s, l) && l.ScanByte? && LockWeighs(s, w)
    ensures LockWeighs(Act(s, l, responses), x) && x <= w + if Plain(s, l) then 0 else 15
  {
    x := w;
    if !Plain(s, l) {
      x := SpawnDescends(s, Act(s, l, responses), l.garbage, w);
    }
  }

  lemma HandlerOuter(s: State, l: Label, responses: Responses)
    requires Enabled(s, l) && (l.Recv? || l.RecvFailed? || l.EndChunk? || l.Return?)
    ensures Outer(Act(s, l, responses)) + 1 + (if l.Recv? && l.chunk == [] then 15 else 0) <= Outer(s) + Price(l)
  {
  }

  lemma HandlerDescends(s: State, l: Label, w: nat, responses: Responses) returns (x: nat)
    requires Enabled(s, l) && (l.Recv? || l.RecvFailed? || l.EndChunk? || l.Return?) && LockWeighs(s, w)
    ensures LockWeighs(Act(s, l, responses), x) && x <= w + if l.Recv? && l.chunk == [] then 15 else 0
  {
    x := w;
    if l.Recv? && l.chunk == [] {
      x := EntryDescends(s, Act(s, l, responses), M.LockAsync(HANDLER, l.garbage), w);
    }
  }

  lemma ActDescends(s: State, l: Label, j: nat, w: nat, responses: Responses) returns (x: nat)
    requires Enabled(s, l) && Inv(s, j, responses) && LockWeighs(s, w)
    ensures LockWeighs(Act(s, l, responses), x)
    ensures Weight(Act(s, l, responses), x) + 1 <= Weight(s, w) + Price(l) + SpawnPrice(s, l, responses)
  {
    if l.LockStep? {
      SettingHolds(s, j, responses);
      x := LockStepDescends(s, Act(s, l, responses), l.c, l.spurious, w);
    } else if l.ScanByte? {
      ScanOuter(s, l, responses);
      x := ScanDescends(s, l, w, responses);
    } else if l.Begin? || l.Io? || l.Leave? {
      TaskOuter(s, l, responses);
      x := TaskStepDescends(s, l, w, responses);
    } else {
      HandlerOuter(s, l, responses);
      x := HandlerDescends(s, l, w, responses);
    }
  }

  /** Every step uses up one unit of the measure, plus what the kernel or a new request has added. */
  lemma StepDescends(s: State, l: Label, j: nat, w: nat, responses: Responses) returns (x: nat)
    requires Enabled(s, l) && Inv(s, j, responses) && LockWeighs(s, w)
    ensures LockWeighs(Apply(s, l, responses), x)
    ensures Weight(Apply(s, l, responses), x) + 1 <= Weight(s, w) + Price(l) + SpawnPrice(s, l, responses)
  {
    x := ActDescends(s, l, j, w, responses);
    NotedWeighs(Act(s, l, responses), x);
  }

  lemma NotedWeighs(s: State, w: nat)
    requires LockWeighs(s, w)
    ensures LockWeighs(Noted(s), w) && Weight(Noted(s), w) == Weight(s, w)
  {
  }

  // ---------------------------------------------------------------------------------------------
  // Every run is finite.

  /** How often `write` would block or was interrupted. */
  function Blocked(ls: seq<Label>, n: nat): nat
    requires n <= |ls|
  {
    if n == 0 then 0 else
    Blocked(ls, n - 1) +
      if ls[n - 1].Io? && (ls[n - 1].io == S.Write(S.Again) || ls[n - 1].io == S.Write(S.Interrupted)) then 1 else 0
  }

  /** How often a compare-exchange failed spuriously. */
  function Spurious(ls: seq<Label>, n: nat): nat
    requires n <= |ls|
  {
    if n == 0 then 0 else Spurious(ls, n - 1) + if ls[n - 1].LockStep? && ls[n - 1].spurious then 1 else 0
  }

  /** The parts of the bound that do not depend on the number of requests. */
  function Allowance(ls: seq<Label>, n: nat): nat
    requires n <= |ls|
  {
    16 + 4 * |Delivered(ls, n)| + 3 * Blocked(ls, n) + 2 * Spurious(ls, n)
  }

  lemma AllowanceGrows(ls: seq<Label>, n: nat)
    requires 0 < n <= |ls|
    ensures Allowance(ls, n) == Allowance(ls, n - 1) + Price(ls[n - 1])
  {
  }

  lemma SpawnGrows(s: State, l: Label, responses: Responses)
    requires Enabled(s, l)
    ensures 18 * |Apply(s, l, responses).tasks| + 4 * |Whole(responses, |Apply(s, l, responses).tasks|)|
         == 18 * |s.tasks| + 4 * |Whole(responses, |s.tasks|)| + SpawnPrice(s, l, responses)
  {
  }

  lemma InitWeight(s: State)
    requires Init(s)
    ensures LockWeighs(s, 0) && Weight(s, 0) == 16
  {
    var v := M.View(M.NULL, [], [], []);
    assert M.Inv(s.mutex, v);
    MP.EmptySum(s.mutex.word, 1, 1);
    MP.PcSumAgrees(s.mutex.pc, map[], s.mutex.word, 1, 1);
    assert TaskWeights(s.tasks) == [];
    assert MP.Weight(s.mutex, 1, 1, v) == 0;
  }

  /** The bound on the number of steps after `n` of them. */
  function Budget(s: State, ls: seq<Label>, responses: Responses, n: nat): nat
    requires n <= |ls|
  {
    Allowance(ls, n) + 18 * |s.tasks| + 4 * |Whole(responses, |s.tasks|)|
  }

  lemma BudgetGrows(s: State, ls: seq<Label>, responses: Responses, n: nat)
    requires 0 < n <= |ls| && Enabled(s, ls[n - 1])
    ensures Budget(Apply(s, ls[n - 1], responses), ls, responses, n)
         == Budget(s, ls, responses, n - 1) + Price(ls[n - 1]) + SpawnPrice(s, ls[n - 1], responses)
  {
    AllowanceGrows(ls, n);
    SpawnGrows(s, ls[n - 1], responses);
  }

  lemma RunStep(ss: seq<State>, ls: seq<Label>, responses: Responses, n: nat, w: nat) returns (x: nat)
    requires IsRun(ss, ls, responses) && 0 < n <= |ls| && LockWeighs(ss[n - 1], w)
    requires Weight(ss[n - 1], w) + n - 1 <= Budget(ss[n - 1], ls, responses, n - 1)
    ensures LockWeighs(ss[n], x) && Weight(ss[n], x) + n <= Budget(ss[n], ls, responses, n)
  {
    var s, l := ss[n - 1], ls[n - 1];
    var j := RunInv(ss, ls, responses, n - 1);
    x := StepDescends(s, l, j, w, responses);
    BudgetGrows(s, ls, responses, n);
  }

  lemma {:induction false} RunDescends(ss: seq<State>, ls: seq<Label>, responses: Responses, n: nat) returns (w: nat)
    requires IsRun(ss, ls, responses) && n <= |ls|
    ensures LockWeighs(ss[n], w) && Weight(ss[n], w) + n <= Budget(ss[n], ls, responses, n)
    decreases n
  {
    if n == 0 {
      InitWeight(ss[0]);
      w := 0;
    } else {
      w := RunDescends(ss, ls, responses, n - 1);
      w := RunStep(ss, ls, responses, n, w);
    }
  }

  lemma {:induction false} StartedAtMostHalf(s: Scan.Scan, input: seq<char>)
    ensures 2 * Scan.FeedAll(s, input).started <= 2 * s.started + |input| + if s.newline then 1 else 0
    decreases |input|
  {
    if input == [] {
    } else {
      StartedAtMostHalf(Scan.Feed(s, input[0]), input[1..]);
    }
  }

  /** At most one responder for every two bytes. */
  lemma TasksAtMostHalf(ss: seq<State>, ls: seq<Label>, responses: Responses, n: nat)
    requires IsRun(ss, ls, responses) && n <= |ls|
    ensures 2 * |ss[n].tasks| <= |Delivered(ls, n)|
  {
    var j := RunInv(ss, ls, responses, n);
    var v :| Sees(ss[n], v) && Core(v, j, responses);
    StartedAtMostHalf(Scan.FRESH, v.scanned);
    RunScans(ss, ls, responses, n);
  }

  lemma {:induction false} WholeBound(responses: Responses, n: nat, size: nat)
    requires forall k :: |responses(k)| <= size
    ensures |Whole(responses, n)| <= size * n
  {
    if n == 0 {
    } else {
      WholeBound(responses, n - 1, size);
    }
  }

  /**
   Every run is finite: with responses of at most `size` bytes, it has no more steps than this function of the bytes
   received, of the writes that would block or are interrupted, and of the spurious failures.
   */
  lemma RunIsBounded(ss: seq<State>, ls: seq<Label>, responses: Responses, size: nat)
    requires IsRun(ss, ls, responses) && forall k :: |responses(k)| <= size
    ensures var n := |ls|;
      n <= 16 + (13 + 2 * size) * |Delivered(ls, n)| + 3 * Blocked(ls, n) + 2 * Spurious(ls, n)
  {
    var n := |ls|;
    var w := RunDescends(ss, ls, responses, n);
    var t, d := |ss[n].tasks|, |Delivered(ls, n)|;
    TasksAtMostHalf(ss, ls, responses, n);
    WholeBound(responses, t, size);
    SizeBound(size, t, d);
  }

  lemma SizeBound(size: nat, t: nat, d: nat)
    requires 2 * t <= d
    ensures 18 * t + 4 * (size * t) + 4 * d <= (13 + 2 * size) * d
  {
    assert 2 * size * (2 * t) <= 2 * size * d;
    assert (13 + 2 * size) * d == 13 * d + 2 * size * d;
  }

  // ---------------------------------------------------------------------------------------------
  // Where no step is left.

  /** The handler holds the lock for the last time, or its receive has failed. */
  predicate Ended(s: State) {
    s.position.Failed? || (HANDLER in s.mutex.pc && s.mutex.pc[HANDLER].Holding?)
  }

  /** More input, a write that makes no progress, or a compare-exchange that fails for no reason. */
  predicate Setback(l: Label) {
    match l
    case Recv(chunk, _) => chunk != []
    case LockStep(_, spurious) => spurious
    case Io(_, io) => io == S.Write(S.Again) || io == S.Write(S.Interrupted)
    case _ => false
  }

  predicate GoesOn(s: State, l: Label) {
    Enabled(s, l) && !Setback(l)
  }

  /** A step of a responder, while the handler is outside the mutex. */
  predicate OfResponder(l: Label) {
    l.LockStep? || l.Begin? || l.Io? || l.Leave?
  }

  lemma SenderMoves(op: S.Op) returns (io: S.Io)
    requires S.Valid(op) && !op.phase.Continued?
    ensures S.CanDo(op, io) && io != S.Write(S.Again) && io != S.Write(S.Interrupted)
  {
    match op.phase {
      case Writing => io := S.Write(S.Wrote(op.size));
      case Arming => io := S.Arm(S.Armed);
      case Suspended => io := S.WakeUp;
    }
  }

  /** A responder that owns the lock can go on, whatever it is doing. */
  lemma OwnerMoves(s: State, v: View, responses: Responses, k: nat) returns (l: Label)
    requires Shows(s, v) && TasksOk(v, responses) && k < |s.tasks| && !s.position.Failed?
    requires At(v, Addr(k)) in {Held, Unlocking, HandedOver}
    ensures GoesOn(s, l) && OfResponder(l)
  {
    var t := s.tasks[k];
    assert TaskOk(v, k, responses);
    if At(v, Addr(k)) in {Unlocking, HandedOver} {
      l := LockStep(Addr(k), false);
    } else if t.stage.Locking? {
      l := Begin(k);
    } else if t.op.phase.Continued? {
      l := Leave(k);
    } else {
      var io := SenderMoves(t.op);
      l := Io(k, io);
    }
  }

  /** The handler has noticed when the responder it calls suspended itself or ended. */
  predicate UpToDate(s: State) {
    s.position.Calling? && |s.tasks| > 0 && Away(s, |s.tasks| - 1) ==> s.position.back
  }

  lemma RunUpToDate(ss: seq<State>, ls: seq<Label>, responses: Responses, n: nat)
    requires IsRun(ss, ls, responses) && n <= |ls|
    ensures UpToDate(ss[n])
  {
    if n > 0 {
      assert ss[n] == Noted(Act(ss[n - 1], ls[n - 1], responses));
    }
  }

  /** Either the responder being called can go on, or it has let go of the handler. */
  lemma CallerMoves(s: State, v: View, responses: Responses) returns (l: Label)
    requires Shows(s, v) && Shape(v) && TasksOk(v, responses) && s.position.Calling? && UpToDate(s)
    ensures GoesOn(s, l)
    ensures if s.position.back then l == Return else OfResponder(l)
  {
    var k := |s.tasks| - 1;
    assert Addr(k) in v.kinds;
    assert TaskOk(v, k, responses);
    if s.position.back {
      l := Return;
    } else if At(v, Addr(k)) == Taking {
      l := LockStep(Addr(k), false);
    } else {
      assert !Away(s, k);
      l := OwnerMoves(s, v, responses, k);
    }
  }

  /** While the handler receives, scans or calls, it can go on itself, or the responder it is calling can. */
  lemma HandlerMoves(s: State, v: View, responses: Responses) returns (l: Label)
    requires Shows(s, v) && Shape(v) && TasksOk(v, responses) && UpToDate(s)
    requires !s.position.Draining? && !s.position.Failed?
    ensures GoesOn(s, l)
  {
    match s.position {
      case Receiving =>
        assert HANDLER in v.kinds;
        l := Recv([], 0);
      case Scanning(chunk, i) =>
        assert Addr(|s.tasks|) !in v.kinds;
        l := if i < |chunk| then ScanByte(0) else EndChunk;
      case Calling(_, _, _) =>
        l := CallerMoves(s, v, responses);
    }
  }

  /** While the handler waits for the final lock, it or a responder can go on. */
  lemma DrainMoves(s: State, v: View, responses: Responses) returns (l: Label)
    requires Sees(s, v) && Shape(v) && TasksOk(v, responses) && s.position.Draining? && At(v, HANDLER) != Held
    ensures GoesOn(s, l)
  {
    if At(v, HANDLER) == Taking {
      l := LockStep(HANDLER, false);
    } else {
      var u := MR.ParkedHasOwner(s.mutex, HANDLER);
      assert u in v.kinds && u != HANDLER;
      l := OwnerMoves(s, v, responses, u - 3);
    }
  }

  /** Until the end there is a step that is no setback. */
  lemma NeverStuck(ss: seq<State>, ls: seq<Label>, responses: Responses, n: nat) returns (l: Label)
    requires IsRun(ss, ls, responses) && n <= |ls| && !Ended(ss[n])
    ensures GoesOn(ss[n], l)
  {
    var j := RunInv(ss, ls, responses, n);
    var v :| Sees(ss[n], v) && Core(v, j, responses);
    if ss[n].position.Draining? {
      l := DrainMoves(ss[n], v, responses);
    } else {
      RunUpToDate(ss, ls, responses, n);
      l := HandlerMoves(ss[n], v, responses);
    }
  }

  lemma NothingLeft(s: State, l: Label)
    requires s.position.Draining? && forall c | c in s.mutex.pc :: s.mutex.pc[c].Idle? || s.mutex.pc[c].Holding?
    requires forall k :: 0 <= k < |s.tasks| ==> s.tasks[k].op.phase.Continued? && s.tasks[k].stage.Leaving?
    ensures !Enabled(s, l)
  {
  }

  lemma AllLeaving(s: State, j: nat, responses: Responses)
    requires Inv(s, j, responses) && forall c | c in s.mutex.pc && c != HANDLER :: s.mutex.pc[c].Idle?
    ensures forall k :: 0 <= k < |s.tasks| ==> s.tasks[k].stage.Leaving?
  {
    var v :| Sees(s, v) && Core(v, j, responses);
    forall k | 0 <= k < |s.tasks| ensures s.tasks[k].stage.Leaving? {
      assert TaskOk(v, k, responses);
      assert Addr(k) in v.kinds;
    }
  }

  /** At the end nothing is left to do, not even with the help of the kernel. */
  lemma NothingAfterEnd(ss: seq<State>, ls: seq<Label>, responses: Responses, n: nat, l: Label)
    requires IsRun(ss, ls, responses) && n <= |ls| && Ended(ss[n])
    ensures !Enabled(ss[n], l)
  {
    if !ss[n].position.Failed? {
      var j := RunInv(ss, ls, responses, n);
      Drained(ss[n], j, responses);
      AllLeaving(ss[n], j, responses);
      NothingLeft(ss[n], l);
    }
  }

  /**
   A run that cannot go on without a setback has ended, and one that has ended cannot go on at all. With `RunIsBounded`:
   the responder always gets to the final lock, unless a receive fails.
   */
  lemma StopsOnlyAtTheEnd(ss: seq<State>, ls: seq<Label>, responses: Responses, n: nat)
    requires IsRun(ss, ls, responses) && n <= |ls|
    ensures Ended(ss[n]) <==> (forall l :: !GoesOn(ss[n], l))
    ensures Ended(ss[n]) <==> (forall l :: !Enabled(ss[n], l))
  {
    if Ended(ss[n]) {
      forall l ensures !Enabled(ss[n], l) {
        NothingAfterEnd(ss, ls, responses, n, l);
      }
    } else {
      var l := NeverStuck(ss, ls, responses, n);
    }
  }

  /** A run without errors that has come to its end has put every requested response on the wire. */
  lemma FinishedRunHasSentAll(ss: seq<State>, ls: seq<Label>, responses: Responses)
    requires CleanRun(ss, ls, responses) && !ss[|ls|].position.Failed?
    requires forall l :: !GoesOn(ss[|ls|], l)
    ensures ss[|ls|].wire == Whole(responses, Scan.HalfRuns(Scan.DropCr(Delivered(ls, |ls|))))
    ensures M.DestructorOk(ss[|ls|].mutex)
  {
    StopsOnlyAtTheEnd(ss, ls, responses, |ls|);
    FinalLockMeansAllSent(ss, ls, responses, |ls|);
  }
}
