/** The output of the responder for every chunking, every interleaving and every kernel behaviour. */
module ResponderRuns {
  import M = Mutex
  import MR = MutexRuns
  import S = Send
  import Scan = Scanner
  import opened Responder

  // ---------------------------------------------------------------------------------------------
  // The output as a function of the responders.

  /** What the responders have put on the wire, in the order in which they were started. */
  function Output(tasks: seq<Task>): seq<char> {
    if tasks == [] then []
    else
      var t := tasks[|tasks| - 1].op;
      Output(tasks[..|tasks| - 1]) + if t.sent <= |t.data| then t.data[..t.sent] else t.data
  }

  /** The first `n` responses, whole and one after another. */
  function Whole(responses: Responses, n: nat): seq<char> {
    if n == 0 then [] else Whole(responses, n - 1) + responses(n - 1)
  }

  /** If nothing has been sent by later responders, what responder `k` sends comes last. */
  lemma {:induction false} OutputGrows(tasks: seq<Task>, k: nat, io: S.Io)
    requires k < |tasks| && S.Valid(tasks[k].op) && S.CanDo(tasks[k].op, io)
    requires forall i :: k < i < |tasks| ==> tasks[i].op.sent == 0
    ensures Output(tasks[k := tasks[k].(op := S.Do(tasks[k].op, io))])
         == Output(tasks) + S.Bytes(tasks[k].op, io)
    decreases |tasks|
  {
    var n := |tasks| - 1;
    var moved := tasks[k].(op := S.Do(tasks[k].op, io));
    if k == n {
      assert tasks[k := moved][..n] == tasks[..n];
    } else {
      assert tasks[k := moved][..n] == tasks[..n][k := moved];
      OutputGrows(tasks[..n], k, io);
    }
  }

  lemma {:induction false} OutputIsWhole(tasks: seq<Task>, responses: Responses)
    requires forall k :: 0 <= k < |tasks| ==> tasks[k].op.data == responses(k) && tasks[k].op.sent == |tasks[k].op.data|
    ensures Output(tasks) == Whole(responses, |tasks|)
    decreases |tasks|
  {
    if tasks == [] {
    } else {
      OutputIsWhole(tasks[..|tasks| - 1], responses);
    }
  }

  /** Stages do not matter for the output. */
  lemma {:induction false} OutputIgnoresStage(tasks: seq<Task>, k: nat, stage: Stage)
    requires k < |tasks|
    ensures Output(tasks[k := tasks[k].(stage := stage)]) == Output(tasks)
    decreases |tasks|
  {
    var n := |tasks| - 1;
    var moved := tasks[k].(stage := stage);
    if k == n {
      assert tasks[k := moved][..n] == tasks[..n];
    } else {
      assert tasks[k := moved][..n] == tasks[..n][k := moved];
      OutputIgnoresStage(tasks[..n], k, stage);
    }
  }

  // ---------------------------------------------------------------------------------------------
  // The invariant, over what can be seen of the mutex: where the coroutines are and the line for the lock.

  datatype View = View(
    kinds: map<nat, Kind>,
    line: seq<nat>,
    position: Position,
    scan: Scan.Scan,
    scanned: seq<char>,
    tasks: seq<Task>,
    wire: seq<char>)

  ghost function ViewOf(s: State): View
    requires M.Consistent(s.mutex)
  {
    View(Kinds(s.mutex), Line(M.Abstract(s.mutex)), s.position, s.scan, s.scanned, s.tasks, s.wire)
  }

  function At(v: View, c: nat): Kind {
    if c in v.kinds then v.kinds[c] else Outside
  }

  /** The responders that have joined the line: all, or all but the one just being called. */
  function Joined(v: View): nat {
    if |v.tasks| > 0 && At(v, Addr(|v.tasks| - 1)) == Taking then |v.tasks| - 1 else |v.tasks|
  }

  function Addrs(j: nat, n: nat): (r: seq<nat>)
    requires j <= n
    ensures |r| == n - j && forall i :: 0 <= i < |r| ==> r[i] == Addr(j + i)
  {
    if j == n then [] else Addrs(j, n - 1) + [Addr(n - 1)]
  }

  function HandlerInLine(v: View): seq<nat> {
    if At(v, HANDLER) in {Parked, Held} then [HANDLER] else []
  }

  ghost predicate Shape(v: View) {
    && (forall c :: c in v.kinds <==> c == HANDLER || 3 <= c < 3 + |v.tasks|)
    && v.scan == Scan.FeedAll(Scan.FRESH, v.scanned)
    && |v.tasks| == v.scan.started
    && (v.position.Calling? ==> v.tasks != [])
    && (v.position.Calling? && v.position.back ==> At(v, Addr(|v.tasks| - 1)) != Taking)
    && (At(v, HANDLER) == Outside <==> !v.position.Draining?)
    && At(v, HANDLER) in {Outside, Taking, Parked, Held}
  }

  ghost predicate TaskOk(v: View, k: nat, responses: Responses)
    requires k < |v.tasks|
  {
    var t, kind := v.tasks[k], At(v, Addr(k));
    && S.Valid(t.op) && t.op.data == responses(k)
    && (t.stage.Locking? ==> kind in {Taking, Parked, Held} && t.op == S.Start(responses(k)))
    && (t.stage.Sending? ==> kind == Held)
    && (t.stage.Leaving? ==> kind in {Unlocking, HandedOver, Outside} && t.op.phase.Continued?)
    && (kind == Taking ==> v.position.Calling? && k == |v.tasks| - 1)
  }

  ghost predicate TasksOk(v: View, responses: Responses) {
    forall k :: 0 <= k < |v.tasks| ==> TaskOk(v, k, responses)
  }

  /**
   The lock is passed on in the order in which the responders were started, and to the handler last. `j` is how many
   responders have given it up.
   */
  ghost predicate InOrder(v: View, j: nat) {
    && j <= Joined(v)
    && v.line == Addrs(j, Joined(v)) + HandlerInLine(v)
    && (forall k :: 0 <= k < j && k < |v.tasks| ==> v.tasks[k].stage.Leaving?)
    && (forall k :: j < k < |v.tasks| ==> v.tasks[k].stage.Locking?)
  }

  ghost predicate Core(v: View, j: nat, responses: Responses) {
    && Shape(v)
    && TasksOk(v, responses)
    && InOrder(v, j)
    && v.wire == Output(v.tasks)
  }

  ghost predicate Sees(s: State, v: View) {
    M.Consistent(s.mutex) && v == ViewOf(s)
  }

  ghost predicate Inv(s: State, j: nat, responses: Responses) {
    exists v :: Sees(s, v) && Core(v, j, responses)
  }

  // ---------------------------------------------------------------------------------------------
  // Steps, as changes of the view.

  /** The responder at the front of the line is the first that has not given up the lock. */
  lemma FrontIsNext(v: View, j: nat, k: nat)
    requires InOrder(v, j) && v.line != [] && v.line[0] == Addr(k)
    ensures k == j < Joined(v)
  {
  }

  function AfterIo(v: View, k: nat, io: S.Io): View
    requires k < |v.tasks| && S.CanDo(v.tasks[k].op, io)
  {
    v.(tasks := v.tasks[k := v.tasks[k].(op := S.Do(v.tasks[k].op, io))],
       wire := v.wire + S.Bytes(v.tasks[k].op, io))
  }

  lemma IoTasks(v: View, responses: Responses, k: nat, io: S.Io)
    requires TasksOk(v, responses)
    requires k < |v.tasks| && v.tasks[k].stage.Sending? && S.CanDo(v.tasks[k].op, io)
    ensures TasksOk(AfterIo(v, k, io), responses)
  {
    var w := AfterIo(v, k, io);
    forall i | 0 <= i < |w.tasks| ensures TaskOk(w, i, responses) {
      assert TaskOk(v, i, responses);
    }
  }

  lemma IoWire(v: View, j: nat, responses: Responses, k: nat, io: S.Io)
    requires TasksOk(v, responses) && InOrder(v, j) && v.wire == Output(v.tasks) && v.line != [] && v.line[0] == Addr(k)
    requires k < |v.tasks| && v.tasks[k].stage.Sending? && S.CanDo(v.tasks[k].op, io)
    ensures AfterIo(v, k, io).wire == Output(AfterIo(v, k, io).tasks)
  {
    FrontIsNext(v, j, k);
    assert TaskOk(v, k, responses);
    forall i | k < i < |v.tasks| ensures v.tasks[i].op.sent == 0 {
      assert TaskOk(v, i, responses);
    }
    OutputGrows(v.tasks, k, io);
  }

  lemma IoOrder(v: View, j: nat, k: nat, io: S.Io)
    requires InOrder(v, j) && k < |v.tasks| && S.CanDo(v.tasks[k].op, io)
    ensures InOrder(AfterIo(v, k, io), j)
  {
    assert Joined(AfterIo(v, k, io)) == Joined(v);
  }

  lemma IoCore(v: View, j: nat, responses: Responses, k: nat, io: S.Io)
    requires Core(v, j, responses) && v.line != [] && v.line[0] == Addr(k)
    requires k < |v.tasks| && v.tasks[k].stage.Sending? && S.CanDo(v.tasks[k].op, io)
    ensures Core(AfterIo(v, k, io), j, responses)
  {
    IoTasks(v, responses, k, io);
    IoOrder(v, j, k, io);
    IoWire(v, j, responses, k, io);
  }

  function AfterBegin(v: View, k: nat): View
    requires k < |v.tasks|
  {
    v.(tasks := v.tasks[k := v.tasks[k].(stage := Sending)])
  }

  lemma BeginTasks(v: View, responses: Responses, k: nat)
    requires TasksOk(v, responses) && k < |v.tasks| && v.tasks[k].stage.Locking? && At(v, Addr(k)) == Held
    ensures TasksOk(AfterBegin(v, k), responses)
  {
    var w := AfterBegin(v, k);
    assert TaskOk(v, k, responses);
    forall i | 0 <= i < |w.tasks| ensures TaskOk(w, i, responses) {
      assert TaskOk(v, i, responses);
    }
  }

  lemma BeginCore(v: View, j: nat, responses: Responses, k: nat)
    requires Core(v, j, responses) && v.line != [] && v.line[0] == Addr(k)
    requires k < |v.tasks| && v.tasks[k].stage.Locking? && At(v, Addr(k)) == Held
    ensures Core(AfterBegin(v, k), j, responses)
  {
    FrontIsNext(v, j, k);
    BeginTasks(v, responses, k);
    OutputIgnoresStage(v.tasks, k, Sending);
    assert Joined(AfterBegin(v, k)) == Joined(v);
  }

  function AfterLeave(v: View, k: nat): View
    requires k < |v.tasks|
  {
    v.(tasks := v.tasks[k := v.tasks[k].(stage := Leaving)], kinds := v.kinds[Addr(k) := Unlocking])
  }

  lemma LeaveTasks(v: View, responses: Responses, k: nat)
    requires TasksOk(v, responses)
    requires k < |v.tasks| && v.tasks[k].stage.Sending? && v.tasks[k].op.phase.Continued?
    ensures TasksOk(AfterLeave(v, k), responses)
    ensures At(v, Addr(k)) == Held
  {
    var w := AfterLeave(v, k);
    assert TaskOk(v, k, responses);
    forall i | 0 <= i < |w.tasks| ensures TaskOk(w, i, responses) {
      assert TaskOk(v, i, responses);
    }
  }

  lemma LeaveCore(v: View, j: nat, responses: Responses, k: nat)
    requires Core(v, j, responses) && v.line != [] && v.line[0] == Addr(k)
    requires k < |v.tasks| && v.tasks[k].stage.Sending? && v.tasks[k].op.phase.Continued?
    ensures Core(AfterLeave(v, k), j, responses)
  {
    FrontIsNext(v, j, k);
    LeaveTasks(v, responses, k);
    OutputIgnoresStage(v.tasks, k, Leaving);
    assert Joined(AfterLeave(v, k)) == Joined(v);
  }

  function AfterEnd(v: View): View {
    v.(position := Draining, kinds := v.kinds[HANDLER := Taking])
  }

  lemma DrainTasks(v: View, responses: Responses)
    requires TasksOk(v, responses) && v.position.Receiving?
    ensures TasksOk(AfterEnd(v), responses)
  {
    var w := AfterEnd(v);
    forall i | 0 <= i < |w.tasks| ensures TaskOk(w, i, responses) {
      assert TaskOk(v, i, responses);
    }
  }

  lemma DrainCore(v: View, j: nat, responses: Responses)
    requires Core(v, j, responses) && v.position.Receiving?
    ensures Core(AfterEnd(v), j, responses)
  {
    DrainTasks(v, responses);
    assert Joined(AfterEnd(v)) == Joined(v);
  }

  /** The handler goes on between two chunks, or after a call. */
  lemma PositionCore(v: View, j: nat, responses: Responses, p: Position)
    requires Core(v, j, responses) && !v.position.Draining? && (p.Receiving? || p.Scanning? || p.Failed?)
    requires v.position.Calling? ==> v.position.back
    ensures Core(v.(position := p), j, responses)
  {
    var w := v.(position := p);
    forall i | 0 <= i < |w.tasks| ensures TaskOk(w, i, responses) {
      assert TaskOk(v, i, responses);
    }
  }

  lemma FeedOne(v: View, c: char)
    requires v.scan == Scan.FeedAll(Scan.FRESH, v.scanned)
    ensures Scan.Feed(v.scan, c) == Scan.FeedAll(Scan.FRESH, v.scanned + [c])
  {
    Scan.FeedConcat(Scan.FRESH, v.scanned, [c]);
    assert [c][1..] == [];
    assert Scan.FeedAll(v.scan, [c]) == Scan.FeedAll(Scan.Feed(v.scan, c), []);
  }

  function AfterScan(v: View, c: char, p: Position): View {
    v.(position := p, scan := Scan.Feed(v.scan, c), scanned := v.scanned + [c])
  }

  lemma ScanTasks(v: View, responses: Responses, c: char, p: Position)
    requires TasksOk(v, responses) && v.position.Scanning? && p.Scanning?
    ensures TasksOk(AfterScan(v, c, p), responses)
  {
    var w := AfterScan(v, c, p);
    forall i | 0 <= i < |w.tasks| ensures TaskOk(w, i, responses) {
      assert TaskOk(v, i, responses);
    }
  }

  lemma ScanCore(v: View, j: nat, responses: Responses, c: char, p: Position)
    requires Core(v, j, responses) && v.position.Scanning? && p.Scanning?
    requires Scan.Feed(v.scan, c).started == v.scan.started
    ensures Core(AfterScan(v, c, p), j, responses)
  {
    FeedOne(v, c);
    ScanTasks(v, responses, c, p);
    assert Joined(AfterScan(v, c, p)) == Joined(v);
  }

  function AfterSpawn(v: View, responses: Responses, c: char, p: Position): View {
    v.(position := p, scan := Scan.Feed(v.scan, c), scanned := v.scanned + [c],
       tasks := v.tasks + [Task(S.Start(responses(|v.tasks|)), Locking)],
       kinds := v.kinds[Addr(|v.tasks|) := Taking])
  }

  lemma SpawnTasks(v: View, responses: Responses, c: char, p: Position)
    requires TasksOk(v, responses) && v.position.Scanning? && p.Calling?
    ensures TasksOk(AfterSpawn(v, responses, c, p), responses)
  {
    var w := AfterSpawn(v, responses, c, p);
    forall i | 0 <= i < |w.tasks| ensures TaskOk(w, i, responses) {
      assert i < |v.tasks| ==> TaskOk(v, i, responses);
    }
  }

  lemma SpawnCore(v: View, j: nat, responses: Responses, c: char, p: Position)
    requires Core(v, j, responses) && v.position.Scanning? && p.Calling? && !p.back
    requires Scan.Feed(v.scan, c).started != v.scan.started
    ensures Core(AfterSpawn(v, responses, c, p), j, responses)
  {
    FeedOne(v, c);
    var k := |v.tasks|;
    assert Joined(v) == k by {
      assert k > 0 ==> TaskOk(v, k - 1, responses);
    }
    var w := AfterSpawn(v, responses, c, p);
    assert w.tasks[..k] == v.tasks;
    assert Joined(w) == k;
    SpawnTasks(v, responses, c, p);
  }

  function AfterJoin(v: View, c: nat, kind: Kind): View {
    v.(kinds := v.kinds[c := kind], line := v.line + [c])
  }

  lemma JoinTasks(v: View, responses: Responses, c: nat, kind: Kind)
    requires TasksOk(v, responses) && At(v, c) == Taking && kind in {Parked, Held}
    ensures TasksOk(AfterJoin(v, c, kind), responses)
  {
    var w := AfterJoin(v, c, kind);
    forall i | 0 <= i < |w.tasks| ensures TaskOk(w, i, responses) {
      assert TaskOk(v, i, responses);
    }
  }

  lemma JoinOrder(v: View, j: nat, responses: Responses, c: nat, kind: Kind)
    requires Core(v, j, responses) && At(v, c) == Taking && kind in {Parked, Held}
    ensures InOrder(AfterJoin(v, c, kind), j)
  {
    var w := AfterJoin(v, c, kind);
    assert c in v.kinds;
    if c != HANDLER {
      assert TaskOk(v, c - 3, responses);
      assert c == Addr(|v.tasks| - 1) && HandlerInLine(v) == HandlerInLine(w) == [];
      assert w.line == Addrs(j, Joined(v)) + [c] == Addrs(j, Joined(w));
    } else {
      assert Joined(w) == Joined(v);
    }
  }

  lemma JoinShape(v: View, c: nat, kind: Kind)
    requires Shape(v) && At(v, c) == Taking && kind in {Parked, Held}
    ensures Shape(AfterJoin(v, c, kind))
  {
    assert c in v.kinds;
  }

  lemma JoinCore(v: View, j: nat, responses: Responses, c: nat, kind: Kind)
    requires Core(v, j, responses) && At(v, c) == Taking && kind in {Parked, Held}
    ensures Core(AfterJoin(v, c, kind), j, responses)
  {
    JoinShape(v, c, kind);
    JoinTasks(v, responses, c, kind);
    JoinOrder(v, j, responses, c, kind);
  }

  lemma AddrsTail(j: nat, n: nat)
    requires j < n
    ensures Addrs(j, n)[1..] == Addrs(j + 1, n)
  {
  }

  function AfterDepart(v: View, c: nat, kind: Kind): View
    requires v.line != []
  {
    v.(kinds := v.kinds[c := kind], line := v.line[1..])
  }

  lemma DepartTasks(v: View, responses: Responses, k: nat, kind: Kind)
    requires Shape(v) && TasksOk(v, responses) && v.line != [] && k < |v.tasks|
    requires At(v, Addr(k)) == Unlocking && kind in {Outside, HandedOver}
    ensures Shape(AfterDepart(v, Addr(k), kind)) && TasksOk(AfterDepart(v, Addr(k), kind), responses)
    ensures v.tasks[k].stage.Leaving?
  {
    assert TaskOk(v, k, responses);
    var w := AfterDepart(v, Addr(k), kind);
    forall i | 0 <= i < |w.tasks| ensures TaskOk(w, i, responses) {
      assert TaskOk(v, i, responses);
    }
  }

  lemma DepartCore(v: View, j: nat, responses: Responses, c: nat, kind: Kind)
    requires Core(v, j, responses) && v.line != [] && v.line[0] == c
    requires At(v, c) == Unlocking && kind in {Outside, HandedOver}
    ensures Core(AfterDepart(v, c, kind), j + 1, responses)
  {
    var w := AfterDepart(v, c, kind);
    assert c in v.kinds && c != HANDLER;
    FrontIsNext(v, j, c - 3);
    AddrsTail(j, Joined(v));
    DepartTasks(v, responses, j, kind);
    assert Joined(w) == Joined(v) && HandlerInLine(w) == HandlerInLine(v);
  }

  function AfterWake(v: View, c: nat, d: nat): View {
    v.(kinds := v.kinds[c := Outside][d := Held])
  }

  lemma WakeCore(v: View, j: nat, responses: Responses, c: nat, d: nat)
    requires Core(v, j, responses) && c != d && At(v, c) == HandedOver && At(v, d) == Parked
    ensures Core(AfterWake(v, c, d), j, responses)
  {
    var w := AfterWake(v, c, d);
    assert c in v.kinds && d in v.kinds && c != HANDLER;
    assert Joined(w) == Joined(v) && HandlerInLine(w) == HandlerInLine(v);
    forall i | 0 <= i < |w.tasks| ensures TaskOk(w, i, responses) {
      assert TaskOk(v, i, responses);
    }
  }

  // ---------------------------------------------------------------------------------------------
  // Steps.

  lemma OwnerInFront(s: State, v: View, c: nat)
    requires Sees(s, v) && At(v, c) in {Held, Unlocking}
    ensures v.line != [] && v.line[0] == c
  {
    OwnerIsFirst(s.mutex, c);
  }

  lemma SendingIsHeld(v: View, responses: Responses, k: nat)
    requires TasksOk(v, responses) && k < |v.tasks| && v.tasks[k].stage.Sending?
    ensures At(v, Addr(k)) == Held
  {
    assert TaskOk(v, k, responses);
  }

  lemma IoStep(s: State, j: nat, responses: Responses, k: nat, io: S.Io)
    requires Inv(s, j, responses) && Enabled(s, Io(k, io))
    ensures Inv(Act(s, Io(k, io), responses), j, responses)
  {
    var v :| Sees(s, v) && Core(v, j, responses);
    SendingIsHeld(v, responses, k);
    OwnerInFront(s, v, Addr(k));
    IoCore(v, j, responses, k, io);
    assert Sees(Act(s, Io(k, io), responses), AfterIo(v, k, io));
  }

  lemma BeginStep(s: State, j: nat, responses: Responses, k: nat)
    requires Inv(s, j, responses) && Enabled(s, Begin(k))
    ensures Inv(Act(s, Begin(k), responses), j, responses)
  {
    var v :| Sees(s, v) && Core(v, j, responses);
    OwnerInFront(s, v, Addr(k));
    BeginCore(v, j, responses, k);
    assert Sees(Act(s, Begin(k), responses), AfterBegin(v, k));
  }

  /** A step of the mutex that moves one coroutine and leaves the line as it is. */
  lemma QuietMove(m: M.State, l: M.Label, p: M.Pc)
    requires M.Consistent(m) && M.Enabled(m, l) && !l.Step? && !l.TryLock?
    requires M.Apply(m, l).pc == m.pc[l.c := p]
    ensures M.Consistent(M.Apply(m, l)) && M.Abstract(M.Apply(m, l)) == M.Abstract(m)
    ensures Kinds(M.Apply(m, l)) == Kinds(m)[l.c := KindOf(p)]
  {
    M.StepAbstract(m, l);
    KindsUpdate(m, M.Apply(m, l), l.c, p);
  }

  lemma LeaveSees(s: State, v: View, responses: Responses, k: nat)
    requires Sees(s, v) && Enabled(s, Leave(k))
    ensures At(v, Addr(k)) == Held && Sees(Act(s, Leave(k), responses), AfterLeave(v, k))
  {
    QuietMove(s.mutex, M.Unlock(Addr(k)), M.UAssert);
  }

  lemma LeaveStep(s: State, j: nat, responses: Responses, k: nat)
    requires Inv(s, j, responses) && Enabled(s, Leave(k))
    ensures Inv(Act(s, Leave(k), responses), j, responses)
  {
    var v :| Sees(s, v) && Core(v, j, responses);
    LeaveSees(s, v, responses, k);
    OwnerInFront(s, v, Addr(k));
    LeaveCore(v, j, responses, k);
  }

  lemma DrainSees(s: State, v: View, responses: Responses, garbage: nat)
    requires Sees(s, v) && Enabled(s, Recv([], garbage))
    ensures Sees(Act(s, Recv([], garbage), responses), AfterEnd(v))
  {
    QuietMove(s.mutex, M.LockAsync(HANDLER, garbage), M.SetAwaiter);
  }

  lemma DrainStep(s: State, j: nat, responses: Responses, garbage: nat)
    requires Inv(s, j, responses) && Enabled(s, Recv([], garbage))
    ensures Inv(Act(s, Recv([], garbage), responses), j, responses)
  {
    var v :| Sees(s, v) && Core(v, j, responses);
    DrainSees(s, v, responses, garbage);
    DrainCore(v, j, responses);
  }

  /** The handler moves on by itself. */
  lemma PositionStep(s: State, j: nat, responses: Responses, p: Position)
    requires Inv(s, j, responses) && !s.position.Draining? && (p.Receiving? || p.Scanning? || p.Failed?)
    requires s.position.Calling? ==> Enabled(s, Return)
    ensures Inv(s.(position := p), j, responses)
  {
    var v :| Sees(s, v) && Core(v, j, responses);
    PositionCore(v, j, responses, p);
    assert Sees(s.(position := p), v.(position := p));
  }

  lemma SpawnedIsQuiet(m: M.State, c: nat, garbage: nat)
    requires M.Consistent(m) && M.Enabled(m, M.Create(c, garbage))
    ensures M.Consistent(Spawned(m, c, garbage)) && M.Abstract(Spawned(m, c, garbage)) == M.Abstract(m)
  {
    M.StepAbstract(m, M.Create(c, garbage));
    M.StepAbstract(M.Apply(m, M.Create(c, garbage)), M.LockAsync(c, garbage));
  }

  lemma SpawnedKinds(m: M.State, c: nat, garbage: nat)
    requires M.Enabled(m, M.Create(c, garbage))
    ensures Kinds(Spawned(m, c, garbage)) == Kinds(m)[c := Taking]
  {
    assert Spawned(m, c, garbage).pc == m.pc[c := M.SetAwaiter];
    KindsUpdate(m, Spawned(m, c, garbage), c, M.SetAwaiter);
  }

  /** The next byte starts no responder. */
  predicate Plain(s: State, l: Label)
    requires Enabled(s, l) && l.ScanByte?
  {
    Scan.Feed(s.scan, s.position.chunk[s.position.i]).started == s.scan.started
  }

  function ScanTarget(s: State, v: View, responses: Responses, l: Label): View
    requires Enabled(s, l) && l.ScanByte?
  {
    var chunk, i := s.position.chunk, s.position.i;
    if Plain(s, l) then AfterScan(v, chunk[i], Scanning(chunk, i + 1))
    else AfterSpawn(v, responses, chunk[i], Calling(chunk, i + 1, false))
  }

  lemma PlainSees(s: State, v: View, responses: Responses, l: Label)
    requires Sees(s, v) && Enabled(s, l) && l.ScanByte? && Plain(s, l)
    ensures Sees(Act(s, l, responses), ScanTarget(s, v, responses, l))
  {
  }

  lemma SpawnSees(s: State, v: View, responses: Responses, l: Label)
    requires Sees(s, v) && Enabled(s, l) && l.ScanByte? && !Plain(s, l)
    ensures Sees(Act(s, l, responses), ScanTarget(s, v, responses, l))
  {
    SpawnedIsQuiet(s.mutex, Addr(|s.tasks|), l.garbage);
    SpawnedKinds(s.mutex, Addr(|s.tasks|), l.garbage);
  }

  lemma ScanTargetCore(s: State, v: View, j: nat, responses: Responses, l: Label)
    requires Enabled(s, l) && l.ScanByte? && v.scan == s.scan && v.position == s.position && Core(v, j, responses)
    ensures Core(ScanTarget(s, v, responses, l), j, responses)
  {
    var chunk, i := s.position.chunk, s.position.i;
    if Plain(s, l) {
      ScanCore(v, j, responses, chunk[i], Scanning(chunk, i + 1));
    } else {
      SpawnCore(v, j, responses, chunk[i], Calling(chunk, i + 1, false));
    }
  }

  lemma ScanStep(s: State, j: nat, responses: Responses, l: Label)
    requires Enabled(s, l) && l.ScanByte? && Inv(s, j, responses)
    ensures Inv(Act(s, l, responses), j, responses)
  {
    var v :| Sees(s, v) && Core(v, j, responses);
    if Plain(s, l) {
      PlainSees(s, v, responses, l);
    } else {
      SpawnSees(s, v, responses, l);
    }
    ScanTargetCore(s, v, j, responses, l);
  }

  function NextJ(s: State, l: Label, j: nat): nat
    requires Enabled(s, l)
  {
    if l.LockStep? && MoveOf(s.mutex, l.c, l.spurious).Depart? then j + 1 else j
  }

  lemma SameStep(s: State, j: nat, responses: Responses, c: nat, spurious: bool)
    requires Enabled(s, LockStep(c, spurious)) && MoveOf(s.mutex, c, spurious).Same?
    requires Inv(s, j, responses)
    ensures Inv(Act(s, LockStep(c, spurious), responses), j, responses)
  {
    var v :| Sees(s, v) && Core(v, j, responses);
    SameKinds(s.mutex, c, spurious);
    MoveLine(s.mutex, c, spurious);
    assert Sees(Act(s, LockStep(c, spurious), responses), v);
  }

  lemma JoinSees(s: State, v: View, responses: Responses, c: nat, spurious: bool) returns (kind: Kind)
    requires Enabled(s, LockStep(c, spurious)) && MoveOf(s.mutex, c, spurious).Join? && Sees(s, v)
    ensures At(v, c) == Taking && kind in {Parked, Held}
    ensures Sees(Act(s, LockStep(c, spurious), responses), AfterJoin(v, c, kind))
  {
    JoinKinds(s.mutex, c, spurious);
    MoveLine(s.mutex, c, spurious);
    kind := KindOf(M.Apply(s.mutex, M.Step(c, spurious)).pc[c]);
  }

  lemma JoinStep(s: State, j: nat, responses: Responses, c: nat, spurious: bool)
    requires Enabled(s, LockStep(c, spurious)) && MoveOf(s.mutex, c, spurious).Join?
    requires Inv(s, j, responses)
    ensures Inv(Act(s, LockStep(c, spurious), responses), j, responses)
  {
    var v :| Sees(s, v) && Core(v, j, responses);
    var kind := JoinSees(s, v, responses, c, spurious);
    JoinCore(v, j, responses, c, kind);
  }

  lemma DepartSees(s: State, v: View, responses: Responses, c: nat, spurious: bool) returns (kind: Kind)
    requires Enabled(s, LockStep(c, spurious)) && MoveOf(s.mutex, c, spurious).Depart? && Sees(s, v)
    ensures At(v, c) == Unlocking && kind in {Outside, HandedOver} && v.line != [] && v.line[0] == c
    ensures Sees(Act(s, LockStep(c, spurious), responses), AfterDepart(v, c, kind))
  {
    DepartKinds(s.mutex, c, spurious);
    MoveLine(s.mutex, c, spurious);
    OwnerIsFirst(s.mutex, c);
    kind := KindOf(M.Apply(s.mutex, M.Step(c, spurious)).pc[c]);
  }

  lemma DepartStep(s: State, j: nat, responses: Responses, c: nat, spurious: bool)
    requires Enabled(s, LockStep(c, spurious)) && MoveOf(s.mutex, c, spurious).Depart?
    requires Inv(s, j, responses)
    ensures Inv(Act(s, LockStep(c, spurious), responses), j + 1, responses)
  {
    var v :| Sees(s, v) && Core(v, j, responses);
    var kind := DepartSees(s, v, responses, c, spurious);
    DepartCore(v, j, responses, c, kind);
  }

  lemma WakeSees(s: State, v: View, responses: Responses, c: nat, spurious: bool)
    requires Enabled(s, LockStep(c, spurious)) && MoveOf(s.mutex, c, spurious).Wake? && Sees(s, v)
    ensures var w := MoveOf(s.mutex, c, spurious).w;
      && w != c && At(v, c) == HandedOver && At(v, w) == Parked
      && Sees(Act(s, LockStep(c, spurious), responses), AfterWake(v, c, w))
  {
    WakeKinds(s.mutex, c, spurious);
    MoveLine(s.mutex, c, spurious);
  }

  lemma WakeStep(s: State, j: nat, responses: Responses, c: nat, spurious: bool)
    requires Enabled(s, LockStep(c, spurious)) && MoveOf(s.mutex, c, spurious).Wake?
    requires Inv(s, j, responses)
    ensures Inv(Act(s, LockStep(c, spurious), responses), j, responses)
  {
    var v :| Sees(s, v) && Core(v, j, responses);
    WakeSees(s, v, responses, c, spurious);
    WakeCore(v, j, responses, c, MoveOf(s.mutex, c, spurious).w);
  }

  lemma LockSteps(s: State, j: nat, responses: Responses, c: nat, spurious: bool)
    requires Enabled(s, LockStep(c, spurious)) && Inv(s, j, responses)
    ensures Inv(Act(s, LockStep(c, spurious), responses), NextJ(s, LockStep(c, spurious), j), responses)
  {
    match MoveOf(s.mutex, c, spurious) {
      case Join => JoinStep(s, j, responses, c, spurious);
      case Depart => DepartStep(s, j, responses, c, spurious);
      case Wake(_) => WakeStep(s, j, responses, c, spurious);
      case Same => SameStep(s, j, responses, c, spurious);
    }
  }

  lemma HandlerSteps(s: State, j: nat, responses: Responses, l: Label)
    requires Enabled(s, l) && (l.Recv? || l.RecvFailed? || l.EndChunk? || l.Return?) && Inv(s, j, responses)
    ensures Inv(Act(s, l, responses), j, responses)
  {
    if l.Recv? && l.chunk == [] {
      DrainStep(s, j, responses, l.garbage);
    } else {
      PositionStep(s, j, responses, Act(s, l, responses).position);
    }
  }

  lemma TaskSteps(s: State, j: nat, responses: Responses, l: Label)
    requires Enabled(s, l) && (l.Begin? || l.Io? || l.Leave?) && Inv(s, j, responses)
    ensures Inv(Act(s, l, responses), j, responses)
  {
    if l.Begin? {
      BeginStep(s, j, responses, l.k);
    } else if l.Io? {
      IoStep(s, j, responses, l.k, l.io);
    } else {
      LeaveStep(s, j, responses, l.k);
    }
  }

  lemma ActKeepsInv(s: State, j: nat, responses: Responses, l: Label)
    requires Enabled(s, l) && Inv(s, j, responses)
    ensures Inv(Act(s, l, responses), NextJ(s, l, j), responses)
  {
    if l.LockStep? {
      LockSteps(s, j, responses, l.c, l.spurious);
    } else if l.ScanByte? {
      ScanStep(s, j, responses, l);
    } else if l.Begin? || l.Io? || l.Leave? {
      TaskSteps(s, j, responses, l);
    } else {
      HandlerSteps(s, j, responses, l);
    }
  }

  lemma NotedCore(v: View, j: nat, responses: Responses, chunk: seq<char>, i: nat)
    requires Core(v, j, responses) && v.position.Calling? && At(v, Addr(|v.tasks| - 1)) != Taking
    ensures Core(v.(position := Calling(chunk, i, true)), j, responses)
  {
    var w := v.(position := Calling(chunk, i, true));
    forall k | 0 <= k < |w.tasks| ensures TaskOk(w, k, responses) {
      assert TaskOk(v, k, responses);
    }
  }

  lemma AwayIsNotTaking(s: State, v: View, k: nat, responses: Responses)
    requires v.kinds == Kinds(s.mutex) && v.tasks == s.tasks && TasksOk(v, responses)
    requires k < |s.tasks| && Away(s, k)
    ensures At(v, Addr(k)) != Taking
  {
    assert TaskOk(v, k, responses);
  }

  lemma NotedInv(s: State, j: nat, responses: Responses)
    requires Inv(s, j, responses)
    ensures Inv(Noted(s), j, responses)
  {
    if Noted(s) != s {
      var v :| Sees(s, v) && Core(v, j, responses);
      AwayIsNotTaking(s, v, |s.tasks| - 1, responses);
      NotedCore(v, j, responses, s.position.chunk, s.position.i);
      assert Sees(Noted(s), v.(position := Noted(s).position));
    }
  }

  lemma StepKeepsInv(s: State, j: nat, responses: Responses, l: Label)
    requires Enabled(s, l) && Inv(s, j, responses)
    ensures Inv(Apply(s, l, responses), NextJ(s, l, j), responses)
  {
    ActKeepsInv(s, j, responses, l);
    NotedInv(Act(s, l, responses), NextJ(s, l, j), responses);
  }

  // ---------------------------------------------------------------------------------------------
  // Runs.

  ghost predicate IsRun(ss: seq<State>, ls: seq<Label>, responses: Responses) {
    && |ss| == |ls| + 1
    && Init(ss[0])
    && forall i :: 0 <= i < |ls| ==> Enabled(ss[i], ls[i]) && ss[i + 1] == Apply(ss[i], ls[i], responses)
  }

  /** The bytes the kernel has delivered in the first `n` steps. */
  function Delivered(ls: seq<Label>, n: nat): seq<char>
    requires n <= |ls|
  {
    if n == 0 then [] else Delivered(ls, n - 1) + if ls[n - 1].Recv? then ls[n - 1].chunk else []
  }

  /** The delivered bytes that have not been scanned yet. */
  function Pending(p: Position): seq<char> {
    if (p.Scanning? || p.Calling?) && p.i <= |p.chunk| then p.chunk[p.i..] else []
  }

  lemma InitSees(s: State)
    requires Init(s)
    ensures Sees(s, View(map[HANDLER := Outside], [], Receiving, Scan.FRESH, [], [], []))
  {
    var v := M.View(M.NULL, [], [], []);
    assert M.Inv(s.mutex, v);
    M.AbstractIs(s.mutex, v);
  }

  lemma InitInv(s: State, responses: Responses)
    requires Init(s)
    ensures Inv(s, 0, responses)
  {
    InitSees(s);
    assert Core(View(map[HANDLER := Outside], [], Receiving, Scan.FRESH, [], [], []), 0, responses);
  }

  lemma {:induction false} RunInv(ss: seq<State>, ls: seq<Label>, responses: Responses, n: nat) returns (j: nat)
    requires IsRun(ss, ls, responses) && n <= |ls|
    ensures Inv(ss[n], j, responses)
  {
    if n == 0 {
      InitInv(ss[0], responses);
      j := 0;
    } else {
      j := RunInv(ss, ls, responses, n - 1);
      StepKeepsInv(ss[n - 1], j, responses, ls[n - 1]);
      j := NextJ(ss[n - 1], ls[n - 1], j);
    }
  }

  lemma StepScans(s: State, l: Label, responses: Responses)
    requires Enabled(s, l)
    ensures var t := Apply(s, l, responses);
      t.scanned + Pending(t.position) == s.scanned + Pending(s.position) + if l.Recv? then l.chunk else []
  {
    var t := Apply(s, l, responses);
    if l.ScanByte? {
      assert Pending(s.position) == [s.position.chunk[s.position.i]] + Pending(t.position);
    }
  }

  /** The handler goes on behind a call only after the responder has suspended itself or ended. */
  lemma {:induction false} BackMeansAway(ss: seq<State>, ls: seq<Label>, responses: Responses, n: nat) returns (m: nat)
    requires IsRun(ss, ls, responses) && n <= |ls| && ss[n].position.Calling? && ss[n].position.back
    ensures m <= n && 0 < |ss[m].tasks| == |ss[n].tasks| && Away(ss[m], |ss[m].tasks| - 1)
  {
    if |ss[n].tasks| > 0 && Away(ss[n], |ss[n].tasks| - 1) {
      m := n;
    } else {
      assert n > 0 && ss[n] == Act(ss[n - 1], ls[n - 1], responses);
      m := BackMeansAway(ss, ls, responses, n - 1);
    }
  }

  /** Every delivered byte is scanned once and in order. */
  lemma {:induction false} RunScans(ss: seq<State>, ls: seq<Label>, responses: Responses, n: nat)
    requires IsRun(ss, ls, responses) && n <= |ls|
    ensures ss[n].scanned + Pending(ss[n].position) == Delivered(ls, n)
  {
    if n == 0 {
    } else {
      RunScans(ss, ls, responses, n - 1);
      StepScans(ss[n - 1], ls[n - 1], responses);
    }
  }

  // ---------------------------------------------------------------------------------------------
  // The results.

  /** Responder `k` against the turn `j`. */
  predicate InTurn(t: Task, k: nat, j: nat, responses: Responses) {
    && S.Valid(t.op) && t.op.data == responses(k)
    && (k < j ==> t.op.phase.Continued?)
    && (k > j ==> t.op == S.Start(responses(k)))
  }

  lemma TasksInTurn(v: View, j: nat, responses: Responses)
    requires Core(v, j, responses)
    ensures forall k :: 0 <= k < |v.tasks| ==> InTurn(v.tasks[k], k, j, responses)
  {
    forall k | 0 <= k < |v.tasks| ensures InTurn(v.tasks[k], k, j, responses) {
      assert TaskOk(v, k, responses);
    }
  }

  /**
   Whatever `write` and the registration answer, errors included: the wire carries one prefix of each response, in the
   order of the requests. Only one responder can be part way; the earlier ones are done with the socket, the later ones
   have not begun.
   */
  lemma NeverInterleaved(ss: seq<State>, ls: seq<Label>, responses: Responses, n: nat) returns (j: nat)
    requires IsRun(ss, ls, responses) && n <= |ls|
    ensures ss[n].wire == Output(ss[n].tasks)
    ensures forall k :: 0 <= k < |ss[n].tasks| ==> InTurn(ss[n].tasks[k], k, j, responses)
  {
    j := RunInv(ss, ls, responses, n);
    TasksInTurn(ViewOf(ss[n]), j, responses);
  }

  /** No socket error: writes make progress or would block, and registrations succeed. */
  predicate Clean(s: State, l: Label) {
    l.Io? && l.k < |s.tasks| ==>
      match l.io
      case Write(Wrote(w)) => w > 0 || s.tasks[l.k].op.size == 0
      case Write(WriteFailed(_)) => false
      case Arm(ArmFailed(_)) => false
      case _ => true
  }

  ghost predicate CleanRun(ss: seq<State>, ls: seq<Label>, responses: Responses) {
    IsRun(ss, ls, responses) && forall i :: 0 <= i < |ls| ==> Clean(ss[i], ls[i])
  }

  ghost predicate EndedOnesAreWhole(s: State) {
    forall k :: 0 <= k < |s.tasks| ==> s.tasks[k].op.phase.Continued? ==> s.tasks[k].op.size == 0
  }

  lemma {:induction false} CleanRunSendsAll(ss: seq<State>, ls: seq<Label>, responses: Responses, n: nat)
    requires CleanRun(ss, ls, responses) && n <= |ls|
    ensures EndedOnesAreWhole(ss[n])
  {
    if n == 0 {
    } else {
      CleanRunSendsAll(ss, ls, responses, n - 1);
      CleanStepSendsAll(ss[n - 1], ls[n - 1], responses);
    }
  }

  lemma CleanStepSendsAll(s: State, l: Label, responses: Responses)
    requires Enabled(s, l) && Clean(s, l) && EndedOnesAreWhole(s)
    ensures EndedOnesAreWhole(Apply(s, l, responses))
  {
  }

  lemma {:induction false} OutputSplits(tasks: seq<Task>, responses: Responses, j: nat)
    requires forall k :: 0 <= k < |tasks| ==> InTurn(tasks[k], k, j, responses) && (k < j ==> tasks[k].op.size == 0)
    ensures j >= |tasks| ==> Output(tasks) == Whole(responses, |tasks|)
    ensures j < |tasks| ==> tasks[j].op.sent <= |responses(j)|
    ensures j < |tasks| ==> Output(tasks) == Whole(responses, j) + responses(j)[..tasks[j].op.sent]
    decreases |tasks|
  {
    if tasks == [] {
    } else if |tasks| > j + 1 {
      OutputSplits(tasks[..|tasks| - 1], responses, j);
    } else {
      OutputIsWhole(tasks[..|tasks| - 1], responses);
    }
  }

  /** Without socket errors the wire is whole responses followed by at most one partial one. */
  lemma WholeResponsesThenOnePartial(ss: seq<State>, ls: seq<Label>, responses: Responses, n: nat)
    returns (whole: nat, partial: nat)
    requires CleanRun(ss, ls, responses) && n <= |ls|
    ensures whole <= |ss[n].tasks| && partial <= |responses(whole)|
    ensures whole == |ss[n].tasks| ==> partial == 0
    ensures ss[n].wire == Whole(responses, whole) + responses(whole)[..partial]
  {
    whole := NeverInterleaved(ss, ls, responses, n);
    CleanRunSendsAll(ss, ls, responses, n);
    var tasks := ss[n].tasks;
    OutputSplits(tasks, responses, whole);
    if whole < |tasks| {
      partial := tasks[whole].op.sent;
    } else {
      whole, partial := |tasks|, 0;
    }
  }

  /** When the handler is at the front of the line, every responder has left. */
  lemma HandlerIsLast(v: View, j: nat, responses: Responses)
    requires Core(v, j, responses) && v.line != [] && v.line[0] == HANDLER && At(v, HANDLER) == Held
    ensures v.position.Draining?
    ensures forall k :: 0 <= k < |v.tasks| ==>
      && v.tasks[k].op.phase.Continued? && v.tasks[k].op.data == responses(k) && S.Valid(v.tasks[k].op)
      && Addr(k) in v.kinds && v.kinds[Addr(k)] in {Unlocking, HandedOver, Outside}
  {
    var first := v.line[0];
    assert j == Joined(v) || first == Addr(j);
    assert |v.tasks| > 0 ==> TaskOk(v, |v.tasks| - 1, responses);
    forall k | 0 <= k < |v.tasks|
      ensures v.tasks[k].stage.Leaving? && TaskOk(v, k, responses)
    {
      assert TaskOk(v, k, responses);
    }
  }

  lemma OthersAreOutside(s: State)
    requires M.Consistent(s.mutex) && Shape(ViewOf(s)) && At(ViewOf(s), HANDLER) == Held
    requires forall k :: 0 <= k < |s.tasks| ==>
      Addr(k) in ViewOf(s).kinds && ViewOf(s).kinds[Addr(k)] in {Unlocking, HandedOver, Outside}
    ensures forall c | c in s.mutex.pc && c != HANDLER :: s.mutex.pc[c].Idle?
  {
    OwnerIsFirst(s.mutex, HANDLER);
    forall c | c in s.mutex.pc && c != HANDLER ensures s.mutex.pc[c].Idle? {
      assert c in ViewOf(s).kinds;
      assert Addr(c - 3) == c;
    }
  }

  /** The granted handler: all responders have ended and are out of the mutex. */
  lemma Drained(s: State, j: nat, responses: Responses)
    requires Inv(s, j, responses) && At(ViewOf(s), HANDLER) == Held
    ensures s.position.Draining? && s.wire == Output(s.tasks)
    ensures |s.tasks| == Scan.HalfRuns(Scan.DropCr(s.scanned))
    ensures forall k :: 0 <= k < |s.tasks| ==>
      s.tasks[k].op.phase.Continued? && s.tasks[k].op.data == responses(k) && S.Valid(s.tasks[k].op)
    ensures forall c | c in s.mutex.pc && c != HANDLER :: s.mutex.pc[c].Idle?
  {
    OwnerIsFirst(s.mutex, HANDLER);
    HandlerIsLast(ViewOf(s), j, responses);
    OthersAreOutside(s);
    Scan.ResponsesStarted(s.scanned);
  }

  lemma DrainedIsScanned(ss: seq<State>, ls: seq<Label>, responses: Responses, n: nat)
    requires IsRun(ss, ls, responses) && n <= |ls| && ss[n].position.Draining?
    ensures ss[n].scanned == Delivered(ls, n)
  {
    RunScans(ss, ls, responses, n);
  }

  lemma WholeTasks(s: State, responses: Responses)
    requires EndedOnesAreWhole(s)
    requires forall k :: 0 <= k < |s.tasks| ==>
      s.tasks[k].op.phase.Continued? && s.tasks[k].op.data == responses(k) && S.Valid(s.tasks[k].op)
    ensures Output(s.tasks) == Whole(responses, |s.tasks|)
  {
    OutputIsWhole(s.tasks, responses);
  }

  lemma GrantedState(s: State, j: nat, responses: Responses)
    requires Inv(s, j, responses) && EndedOnesAreWhole(s) && At(ViewOf(s), HANDLER) == Held
    ensures s.wire == Whole(responses, Scan.HalfRuns(Scan.DropCr(s.scanned)))
    ensures forall c | c in s.mutex.pc && c != HANDLER :: s.mutex.pc[c].Idle?
    ensures s.position.Draining?
  {
    Drained(s, j, responses);
    WholeTasks(s, responses);
  }

  /**
   When the handler has been granted the lock for the last time, the wire holds exactly the responses to the requests
   in the bytes delivered, every responder is out of the mutex, and destroying the mutex is safe.
   */
  lemma FinalLockMeansAllSent(ss: seq<State>, ls: seq<Label>, responses: Responses, n: nat)
    requires CleanRun(ss, ls, responses) && n <= |ls|
    requires HANDLER in ss[n].mutex.pc && ss[n].mutex.pc[HANDLER].Holding?
    ensures ss[n].wire == Whole(responses, Scan.HalfRuns(Scan.DropCr(Delivered(ls, n))))
    ensures forall c | c in ss[n].mutex.pc && c != HANDLER :: ss[n].mutex.pc[c].Idle?
    ensures M.DestructorOk(ss[n].mutex)
  {
    var s := ss[n];
    var j := RunInv(ss, ls, responses, n);
    CleanRunSendsAll(ss, ls, responses, n);
    assert At(ViewOf(s), HANDLER) == Held;
    GrantedState(s, j, responses);
    DrainedIsScanned(ss, ls, responses, n);
    MR.DestructorSafe(s.mutex);
  }
}
