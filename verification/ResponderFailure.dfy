/** A receive that fails: what the handler destroys under its responders. */
module ResponderFailure {
  import M = Mutex
  import MR = MutexRuns
  import S = Send
  import Scan = Scanner
  import opened Responder
  import opened ResponderRuns
  import opened ResponderProgress

  // ---------------------------------------------------------------------------------------------
  // When the destructor's assertions hold.

  /** Responder `k` has handed the lock over or released it. */
  predicate GaveUp(s: State, k: nat) {
    && k < |s.tasks| && s.tasks[k].stage.Leaving?
    && Addr(k) in s.mutex.pc && (s.mutex.pc[Addr(k)].Idle? || s.mutex.pc[Addr(k)].UResume?)
  }

  lemma FrontHolds(m: M.State)
    requires M.Consistent(m)
    ensures var line := Line(M.Abstract(m));
      && (M.Abstract(m).queue == [] <==> |line| <= 1)
      && (line != [] ==> line[0] in m.pc && KindOf(m.pc[line[0]]) in {Parked, Held, Unlocking})
  {
  }

  /** While the handler receives, the line is the responders from the first that has not given up the lock. */
  lemma LineWhileReceiving(v: View, j: nat, responses: Responses)
    requires Core(v, j, responses) && v.position.Receiving?
    ensures j <= |v.tasks| && v.line == Addrs(j, |v.tasks|)
  {
    assert |v.tasks| > 0 ==> TaskOk(v, |v.tasks| - 1, responses);
  }

  lemma GaveUpInOrder(s: State, v: View, j: nat, responses: Responses, k: nat)
    requires Shows(s, v) && Core(v, j, responses) && k < |v.tasks| && v.line == Addrs(j, |v.tasks|)
    requires v.line != [] ==> At(v, v.line[0]) in {Parked, Held, Unlocking}
    requires At(v, Addr(k)) == Unlocking ==> v.line != [] && v.line[0] == Addr(k)
    ensures GaveUp(s, k) <==> k < j
  {
    assert Addr(k) in v.kinds;
    assert TaskOk(v, k, responses);
  }

  lemma AllGaveUp(s: State, v: View, j: nat, responses: Responses)
    requires Shows(s, v) && Core(v, j, responses) && v.position.Receiving?
    requires v.line != [] ==> At(v, v.line[0]) in {Parked, Held, Unlocking}
    requires forall c :: At(v, c) == Unlocking ==> v.line != [] && v.line[0] == c
    ensures |v.line| == |v.tasks| - j
    ensures forall k :: 0 <= k < |v.tasks| ==> (GaveUp(s, k) <==> k < j)
  {
    LineWhileReceiving(v, j, responses);
    forall k | 0 <= k < |v.tasks| ensures GaveUp(s, k) <==> k < j {
      GaveUpInOrder(s, v, j, responses, k);
    }
  }

  /** The line is short exactly if all responders but the last have given up the lock. */
  lemma ShortLine(s: State, v: View, j: nat, responses: Responses)
    requires Sees(s, v) && Core(v, j, responses) && v.position.Receiving?
    ensures |v.line| <= 1 <==> forall k :: 0 <= k < |s.tasks| - 1 ==> GaveUp(s, k)
  {
    FrontHolds(s.mutex);
    forall c | At(v, c) == Unlocking ensures v.line != [] && v.line[0] == c {
      OwnerInFront(s, v, c);
    }
    AllGaveUp(s, v, j, responses);
    if forall k :: 0 <= k < |s.tasks| - 1 ==> GaveUp(s, k) {
      assert |s.tasks| > 1 ==> GaveUp(s, |s.tasks| - 2);
    }
  }

  /**
   When the receive fails, the destructor's assertions hold, with no unlocker at work on the queue, if and only if all
   responders but the last have given up the lock.
   */
  lemma ReceiveFails(ss: seq<State>, ls: seq<Label>, responses: Responses, n: nat)
    requires IsRun(ss, ls, responses) && n < |ls| && ls[n].RecvFailed?
    ensures M.DestructorOk(ss[n].mutex) && !MR.Refilling(ss[n].mutex) <==>
      forall k :: 0 <= k < |ss[n].tasks| - 1 ==> GaveUp(ss[n], k)
  {
    var j := RunInv(ss, ls, responses, n);
    var v :| Sees(ss[n], v) && Core(v, j, responses);
    MR.DestructorExactly(ss[n].mutex);
    FrontHolds(ss[n].mutex);
    ShortLine(ss[n], v, j, responses);
  }

  /** Every coroutine is out of the mutex. */
  ghost predicate AllOut(m: M.State) {
    forall c | c in m.pc :: m.pc[c].Idle?
  }

  lemma InsideHasOwner(m: M.State, c: nat) returns (u: nat)
    requires M.Consistent(m) && c in m.pc && !m.pc[c].Idle?
    ensures u in m.pc && KindOf(m.pc[u]) in {Taking, Held, Unlocking, HandedOver}
  {
    u := c;
    if m.pc[c].Waiting? {
      u := MR.ParkedHasOwner(m, c);
    }
  }

  lemma InsideMoves(s: State, v: View, j: nat, responses: Responses, u: nat) returns (l: Label)
    requires Shows(s, v) && Core(v, j, responses) && s.position.Receiving?
    requires u in s.mutex.pc && KindOf(s.mutex.pc[u]) in {Taking, Held, Unlocking, HandedOver}
    ensures Enabled(s, l) && OfResponder(l)
  {
    assert u in v.kinds && u != HANDLER;
    assert TaskOk(v, u - 3, responses);
    l := OwnerMoves(s, v, responses, u - 3);
  }

  lemma OutsideDoesNotMove(s: State, v: View, j: nat, responses: Responses, l: Label)
    requires Shows(s, v) && Core(v, j, responses) && AllOut(s.mutex) && OfResponder(l)
    ensures !Enabled(s, l)
  {
    if l.Io? && l.k < |s.tasks| {
      assert TaskOk(v, l.k, responses);
    }
  }

  /**
   When the receive fails, a responder still has a step to take on the destroyed mutex and socket, unless every
   responder is out of the mutex. That is stricter than the assertions: they let the last responder go unnoticed.
   */
  lemma FailureIsHarmless(ss: seq<State>, ls: seq<Label>, responses: Responses, n: nat)
    requires IsRun(ss, ls, responses) && n < |ls| && ls[n].RecvFailed?
    ensures AllOut(ss[n].mutex) <==> (forall l | OfResponder(l) :: !Enabled(ss[n], l))
    ensures AllOut(ss[n].mutex) ==> M.DestructorOk(ss[n].mutex)
  {
    var s := ss[n];
    var j := RunInv(ss, ls, responses, n);
    var v :| Sees(s, v) && Core(v, j, responses);
    if AllOut(s.mutex) {
      MR.DestructorSafe(s.mutex);
      forall l | OfResponder(l) ensures !Enabled(s, l) {
        OutsideDoesNotMove(s, v, j, responses, l);
      }
    } else {
      var c :| c in s.mutex.pc && !s.mutex.pc[c].Idle?;
      var u := InsideHasOwner(s.mutex, c);
      var l := InsideMoves(s, v, j, responses, u);
    }
  }

  // ---------------------------------------------------------------------------------------------
  // A run in which they fail.

  /** The steps `ls` lead from `s` to `t`. */
  ghost predicate Path(s: State, ls: seq<Label>, t: State, responses: Responses)
    decreases |ls|
  {
    if ls == [] then s == t
    else Enabled(s, ls[0]) && Path(Apply(s, ls[0], responses), ls[1..], t, responses)
  }

  lemma {:induction false} PathConcat(
    s: State, a: seq<Label>, t: State, b: seq<Label>, u: State, responses: Responses)
    requires Path(s, a, t, responses) && Path(t, b, u, responses)
    ensures Path(s, a + b, u, responses)
    decreases |a|
  {
    if a == [] {
      assert a + b == b;
    } else {
      var c := a + b;
      assert c != [] && c[0] == a[0] && c[1..] == a[1..] + b;
      PathConcat(Apply(s, a[0], responses), a[1..], t, b, u, responses);
      assert Path(Apply(s, c[0], responses), c[1..], u, responses);
    }
  }

  /** The states along a path. */
  lemma {:induction false} PathStates(s: State, ls: seq<Label>, t: State, responses: Responses)
    returns (ss: seq<State>)
    requires Path(s, ls, t, responses)
    ensures |ss| == |ls| + 1 && ss[0] == s && ss[|ls|] == t
    ensures forall i :: 0 <= i < |ls| ==> Enabled(ss[i], ls[i]) && ss[i + 1] == Apply(ss[i], ls[i], responses)
    decreases |ls|
  {
    if ls == [] {
      ss := [s];
    } else {
      var rest := PathStates(Apply(s, ls[0], responses), ls[1..], t, responses);
      ss := [s] + rest;
      assert forall i :: 0 < i < |ls| ==> ls[i] == ls[1..][i - 1] && ss[i] == rest[i - 1] && ss[i + 1] == rest[i];
    }
  }

  lemma Extended(ss: seq<State>, ls: seq<Label>, l: Label, responses: Responses)
    returns (tt: seq<State>, ms: seq<Label>)
    requires IsRun(ss, ls, responses) && Enabled(ss[|ls|], l)
    ensures IsRun(tt, ms, responses) && ms == ls + [l] && tt == ss + [Apply(ss[|ls|], l, responses)]
  {
    tt, ms := ss + [Apply(ss[|ls|], l, responses)], ls + [l];
  }

  lemma OneStep(s: State, l: Label, responses: Responses)
    requires Enabled(s, l)
    ensures Path(s, [l], Apply(s, l, responses), responses)
  {
    assert [l][1..] == [];
  }

  /** Coroutine `c` takes `n` steps on the mutex. */
  function Steps(m: M.State, c: nat, n: nat): M.State {
    if n == 0 then m
    else
      var k := Steps(m, c, n - 1);
      if M.Enabled(k, M.Step(c, false)) then M.Apply(k, M.Step(c, false)) else k
  }

  /** The newest responder takes steps inside the call, without suspending itself. */
  lemma {:induction false} LockPath(s: State, c: nat, n: nat, responses: Responses) returns (ls: seq<Label>)
    requires s.position.Calling? && |s.tasks| > 0 && c == Addr(|s.tasks| - 1) && s.tasks[|s.tasks| - 1].stage.Locking?
    requires forall i :: 0 <= i < n ==> M.Enabled(Steps(s.mutex, c, i), M.Step(c, false))
    requires forall i :: 0 < i <= n ==> c in Steps(s.mutex, c, i).pc && !Steps(s.mutex, c, i).pc[c].Waiting?
    ensures |ls| == n && Path(s, ls, s.(mutex := Steps(s.mutex, c, n)), responses)
  {
    if n == 0 {
      ls := [];
    } else {
      var a := LockPath(s, c, n - 1, responses);
      var t, u := s.(mutex := Steps(s.mutex, c, n - 1)), s.(mutex := Steps(s.mutex, c, n));
      OneStep(t, LockStep(c, false), responses);
      assert Apply(t, LockStep(c, false), responses) == u;
      PathConcat(s, a, t, [LockStep(c, false)], u, responses);
      ls := a + [LockStep(c, false)];
    }
  }

  /** The first two steps of `await_suspend`. */
  lemma EnterSteps(m: M.State, c: nat)
    requires c in m.pc && m.pc[c].SetAwaiter?
    ensures Steps(m, c, 0) == m
    ensures Steps(m, c, 1) == m.(awaiters := m.awaiters + {c}, pc := m.pc[c := M.Load])
    ensures Steps(m, c, 2) == m.(awaiters := m.awaiters + {c}, pc := m.pc[c := M.Check(m.word)])
  {
    assert m.pc[c := M.Load][c := M.Check(m.word)] == m.pc[c := M.Check(m.word)];
  }

  /** With the third the lock is taken, if it is free, or `m_next` is written. */
  lemma ThirdStep(m: M.State, c: nat)
    requires c in m.pc && m.pc[c].SetAwaiter?
    ensures forall i :: 0 <= i < 3 ==> M.Enabled(Steps(m, c, i), M.Step(c, false))
    ensures forall i :: 0 < i <= 3 ==> c in Steps(m, c, i).pc && !Steps(m, c, i).pc[c].Waiting?
    ensures var t := Steps(m, c, 3);
      if m.word == M.NOT_LOCKED then t.pc == m.pc[c := M.Holding] && t.word == M.LOCKED_NO_WAITERS
      else t.pc == m.pc[c := M.Push(m.word)] && t.word == m.word
  {
    EnterSteps(m, c);
    assert Steps(m, c, 3) == M.Apply(Steps(m, c, 2), M.Step(c, false));
  }

  /** Two line feeds start a responder, which the handler calls. */
  lemma TwoLines(s: State, responses: Responses) returns (ls: seq<Label>, t: State)
    requires s.position.Scanning? && s.position.i + 2 <= |s.position.chunk|
    requires s.position.chunk[s.position.i] == s.position.chunk[s.position.i + 1] == '\n'
    requires !s.scan.newline && Addr(|s.tasks|) !in s.mutex.pc
    ensures |ls| == 2 && Path(s, ls, t, responses)
    ensures t.position == Calling(s.position.chunk, s.position.i + 2, false) && !t.scan.newline
    ensures t.mutex.pc == s.mutex.pc[Addr(|s.tasks|) := M.SetAwaiter] && t.mutex.word == s.mutex.word
    ensures t.tasks == s.tasks + [Task(S.Start(responses(|s.tasks|)), Locking)]
  {
    var l := ScanByte(0);
    var m := Apply(s, l, responses);
    t := Apply(m, l, responses);
    OneStep(s, l, responses);
    OneStep(m, l, responses);
    PathConcat(s, [l], m, [l], t, responses);
    ls := [l] + [l];
  }

  const TWO_REQUESTS := "\n\n\n\n"

  /** Scanning the first request, with its responder called. */
  lemma FirstCall(responses: Responses) returns (s: State, ls: seq<Label>, t: State)
    ensures Init(s) && |ls| == 3 && Path(s, ls, t, responses)
    ensures t.position == Calling(TWO_REQUESTS, 2, false) && !t.scan.newline
    ensures t.mutex.pc == map[HANDLER := M.Idle, Addr(0) := M.SetAwaiter] && t.mutex.word == M.NOT_LOCKED
    ensures t.tasks == [Task(S.Start(responses(0)), Locking)]
  {
    s := State(M.State(M.NOT_LOCKED, M.NULL, map[HANDLER := 0], {}, map[HANDLER := M.Idle]),
               Receiving, Scan.FRESH, [], [], []);
    var l := Recv(TWO_REQUESTS, 0);
    OneStep(s, l, responses);
    var a;
    a, t := TwoLines(Apply(s, l, responses), responses);
    PathConcat(s, [l], Apply(s, l, responses), a, t, responses);
    ls := [l] + a;
  }

  predicate SuspendedInSend(t: Task) {
    t.stage.Sending? && t.op.phase.Suspended?
  }

  /** The first `write` of a responder would block, so it registers. */
  lemma WriteBlocks(s: State, responses: Responses) returns (ls: seq<Label>, t: State)
    requires s.position == Calling(TWO_REQUESTS, 2, false) && s.tasks == [Task(S.Start(responses(0)), Sending)]
    requires Addr(0) in s.mutex.pc && s.mutex.pc[Addr(0)].Holding?
    ensures ls == [Io(0, S.Write(S.Again))] + [Io(0, S.Arm(S.Armed))] && Path(s, ls, t, responses)
    ensures t == s.(position := Calling(TWO_REQUESTS, 2, true), tasks := t.tasks)
    ensures |t.tasks| == 1 && SuspendedInSend(t.tasks[0])
  {
    var again, armed := Io(0, S.Write(S.Again)), Io(0, S.Arm(S.Armed));
    var n := Apply(s, again, responses);
    OneStep(s, again, responses);
    t := Apply(n, armed, responses);
    OneStep(n, armed, responses);
    PathConcat(s, [again], n, [armed], t, responses);
    ls := [again] + [armed];
  }

  lemma SendBlocks(s: State, responses: Responses) returns (ls: seq<Label>, t: State)
    requires s.position == Calling(TWO_REQUESTS, 2, false) && s.tasks == [Task(S.Start(responses(0)), Locking)]
    requires Addr(0) in s.mutex.pc && s.mutex.pc[Addr(0)].Holding?
    ensures |ls| == 3 && Path(s, ls, t, responses)
    ensures t == s.(position := Calling(TWO_REQUESTS, 2, true), tasks := t.tasks)
    ensures |t.tasks| == 1 && SuspendedInSend(t.tasks[0])
  {
    var m := Apply(s, Begin(0), responses);
    OneStep(s, Begin(0), responses);
    var a;
    a, t := WriteBlocks(m, responses);
    PathConcat(s, [Begin(0)], m, a, t, responses);
    ls := [Begin(0)] + a;
  }

  /** The first responder takes the free lock and suspends itself in its send; then the handler goes on. */
  lemma FirstReturn(s: State, responses: Responses) returns (ls: seq<Label>, t: State)
    requires s.position == Calling(TWO_REQUESTS, 2, false) && s.tasks == [Task(S.Start(responses(0)), Locking)]
    requires s.mutex.pc == map[HANDLER := M.Idle, Addr(0) := M.SetAwaiter] && s.mutex.word == M.NOT_LOCKED
    ensures |ls| == 7 && Path(s, ls, t, responses)
    ensures t == s.(mutex := t.mutex, tasks := t.tasks, position := Scanning(TWO_REQUESTS, 2))
    ensures t.mutex.pc == map[HANDLER := M.Idle, Addr(0) := M.Holding] && t.mutex.word == M.LOCKED_NO_WAITERS
    ensures |t.tasks| == 1 && SuspendedInSend(t.tasks[0])
  {
    ThirdStep(s.mutex, Addr(0));
    var a := LockPath(s, Addr(0), 3, responses);
    var m := s.(mutex := Steps(s.mutex, Addr(0), 3));
    var b, n := SendBlocks(m, responses);
    PathConcat(s, a, m, b, n, responses);
    t := Apply(n, Return, responses);
    OneStep(n, Return, responses);
    PathConcat(s, a + b, n, [Return], t, responses);
    ls := a + b + [Return];
  }

  /** The second responder finds the lock taken and suspends itself in the queue. */
  lemma SecondParks(s: State, responses: Responses) returns (ls: seq<Label>, t: State)
    requires s.position == Calling(TWO_REQUESTS, 4, false) && |s.tasks| == 2 && s.tasks[1].stage.Locking?
    requires Addr(1) in s.mutex.pc && s.mutex.pc[Addr(1)].SetAwaiter? && s.mutex.word != M.NOT_LOCKED
    ensures |ls| == 4 && Path(s, ls, t, responses)
    ensures t == s.(mutex := t.mutex, position := Calling(TWO_REQUESTS, 4, true)) && t.mutex.word == Addr(1)
    ensures t.mutex.pc == s.mutex.pc[Addr(1) := M.Waiting]
  {
    var l := LockStep(Addr(1), false);
    ThirdStep(s.mutex, Addr(1));
    var a := LockPath(s, Addr(1), 3, responses);
    var m := s.(mutex := Steps(s.mutex, Addr(1), 3));
    t := Apply(m, l, responses);
    OneStep(m, l, responses);
    PathConcat(s, a, m, [l], t, responses);
    ls := a + [l];
  }

  /** Then the handler goes back to receiving. */
  lemma SecondReturn(s: State, responses: Responses) returns (ls: seq<Label>, t: State)
    requires s.position == Calling(TWO_REQUESTS, 4, true)
    ensures |ls| == 2 && Path(s, ls, t, responses) && t == s.(position := Receiving)
  {
    var n := Apply(s, Return, responses);
    t := Apply(n, EndChunk, responses);
    OneStep(s, Return, responses);
    OneStep(n, EndChunk, responses);
    PathConcat(s, [Return], n, [EndChunk], t, responses);
    ls := [Return] + [EndChunk];
  }

  /** Both requests, up to the next receive. */
  lemma BothRequests(responses: Responses) returns (s: State, ls: seq<Label>, t: State)
    ensures Init(s) && |ls| == 18 && Path(s, ls, t, responses) && t.position.Receiving?
    ensures |t.tasks| == 2 && SuspendedInSend(t.tasks[0])
    ensures t.mutex.pc == map[HANDLER := M.Idle, Addr(0) := M.Holding, Addr(1) := M.Waiting]
    ensures t.mutex.word == Addr(1)
  {
    s, ls, t := FirstCall(responses);
    var a, u := FirstReturn(t, responses);
    PathConcat(s, ls, t, a, u, responses);
    ls := ls + a;
    a, t := TwoLines(u, responses);
    PathConcat(s, ls, u, a, t, responses);
    ls := ls + a;
    a, u := SecondParks(t, responses);
    PathConcat(s, ls, t, a, u, responses);
    ls := ls + a;
    a, t := SecondReturn(u, responses);
    PathConcat(s, ls, u, a, t, responses);
    ls := ls + a;
  }

  /**
   Two requests in one chunk, whose first `write` would block, then a failing receive: the first responder is suspended
   in its send on the destroyed socket, and the second in the queue of the destroyed mutex.
   */
  lemma FailureCanBreakAssertions(responses: Responses) returns (ss: seq<State>, ls: seq<Label>)
    ensures IsRun(ss, ls, responses) && |ls| == 19 && ls[18] == RecvFailed && !M.DestructorOk(ss[18].mutex)
    ensures |ss[18].tasks| == 2 && SuspendedInSend(ss[18].tasks[0])
    ensures ss[18].mutex.pc == map[HANDLER := M.Idle, Addr(0) := M.Holding, Addr(1) := M.Waiting]
  {
    var s, a, t := BothRequests(responses);
    var states := PathStates(s, a, t, responses);
    ss, ls := Extended(states, a, RecvFailed, responses);
  }
}
