/** The POSIX `send` operation: partial writes, re-arming and the coroutine it resumes. */
module Send {

  /** What `write` reports. */
  datatype WriteResult =
    | Wrote(n: nat)
    | Again                   // EAGAIN
    | Interrupted             // EINTR
    | WriteFailed(code: int)

  /** What registering for writability reports. */
  datatype ArmResult = Armed | ArmFailed(code: int)

  datatype Phase =
    | Writing                 // about to call write
    | Arming                  // about to register
    | Suspended               // registered, waiting for the wake-up
    | Continued               // the awaiting coroutine runs again

  const NO_ERROR := 0

  /** `buffer_.data` (as an offset), `buffer_.size`, `size_`, `ec_` and the position of the operation. */
  datatype Op = Op(data: seq<char>, pos: nat, size: nat, sent: nat, ec: int, phase: Phase)

  function Start(data: seq<char>): Op {
    Op(data, 0, |data|, 0, NO_ERROR, Writing)
  }

  datatype Io = Write(w: WriteResult) | Arm(a: ArmResult) | WakeUp

  /** The operation is at this point, and the kernel claims no more than it was given. */
  predicate CanDo(op: Op, io: Io) {
    match io
    case Write(w) =>
      && op.phase.Writing?
      && (w.Wrote? ==> w.n <= op.size && op.pos + w.n <= |op.data|)
      && (w.WriteFailed? ==> w.code != NO_ERROR)
    case Arm(a) => op.phase.Arming? && (a.ArmFailed? ==> a.code != NO_ERROR)
    case WakeUp => op.phase.Suspended?
  }

  function Do(op: Op, io: Io): Op
    requires CanDo(op, io)
  {
    match io
    case Write(Wrote(n)) =>
      if n == 0 then op.(phase := Continued)
      else op.(pos := op.pos + n, size := op.size - n, sent := op.sent + n,
               phase := if op.size - n == 0 then Continued else Arming)
    case Write(Again) => op.(phase := Arming)
    case Write(Interrupted) => op.(phase := Arming)
    case Write(WriteFailed(code)) => op.(ec := code, phase := Continued)
    case Arm(Armed) => op.(phase := Suspended)
    case Arm(ArmFailed(code)) => op.(ec := code, phase := Continued)
    case WakeUp => op.(phase := Writing)
  }

  /** The bytes that enter the socket's stream. */
  function Bytes(op: Op, io: Io): seq<char>
    requires CanDo(op, io)
  {
    if io.Write? && io.w.Wrote? then op.data[op.pos..op.pos + io.w.n] else []
  }

  ghost predicate CanDoAll(op: Op, ios: seq<Io>)
    decreases |ios|
  {
    ios != [] ==> CanDo(op, ios[0]) && CanDoAll(Do(op, ios[0]), ios[1..])
  }

  function DoAll(op: Op, ios: seq<Io>): Op
    requires CanDoAll(op, ios)
    decreases |ios|
  {
    if ios == [] then op else DoAll(Do(op, ios[0]), ios[1..])
  }

  function Wire(op: Op, ios: seq<Io>): seq<char>
    requires CanDoAll(op, ios)
    decreases |ios|
  {
    if ios == [] then [] else Bytes(op, ios[0]) + Wire(Do(op, ios[0]), ios[1..])
  }

  /** Sent and remaining add up to the whole, and the cursor is where the count says. */
  predicate Valid(op: Op) {
    op.pos == op.sent && op.sent + op.size == |op.data|
  }

  lemma StepConserves(op: Op, io: Io)
    requires Valid(op) && CanDo(op, io)
    ensures var next := Do(op, io);
      && Valid(next) && next.data == op.data && op.sent <= next.sent
      && Bytes(op, io) == op.data[op.sent..next.sent]
  {
  }

  lemma {:induction false} RunConserves(op: Op, ios: seq<Io>)
    requires Valid(op) && CanDoAll(op, ios)
    ensures var end := DoAll(op, ios);
      && Valid(end) && end.data == op.data && op.sent <= end.sent
      && Wire(op, ios) == op.data[op.sent..end.sent]
    decreases |ios|
  {
    if ios == [] {
    } else {
      var next := Do(op, ios[0]);
      StepConserves(op, ios[0]);
      RunConserves(next, ios[1..]);
      var data, end := op.data, DoAll(op, ios);
      assert data[op.sent..next.sent] + data[next.sent..end.sent] == data[op.sent..end.sent];
    }
  }

  /**
   Conservation: whatever the kernel answers, sent and remaining bytes add up to the buffer, and the kernel was handed
   exactly the prefix of that length, once and in order.
   */
  lemma SendConserves(data: seq<char>, ios: seq<Io>)
    requires CanDoAll(Start(data), ios)
    ensures var end := DoAll(Start(data), ios);
      && end.sent + end.size == |data|
      && Wire(Start(data), ios) == data[..end.sent]
  {
    RunConserves(Start(data), ios);
  }

  predicate NoZeroWrite(ios: seq<Io>) {
    forall i :: 0 <= i < |ios| ==> ios[i] != Write(Wrote(0))
  }

  lemma {:induction false} RunCompletes(op: Op, ios: seq<Io>)
    requires Valid(op) && CanDoAll(op, ios) && NoZeroWrite(ios)
    requires op.phase.Continued? && op.ec == NO_ERROR ==> op.size == 0
    ensures var end := DoAll(op, ios); end.phase.Continued? && end.ec == NO_ERROR ==> end.size == 0
    decreases |ios|
  {
    if ios == [] {
    } else {
      RunCompletes(Do(op, ios[0]), ios[1..]);
    }
  }

  /** A zero-length write with bytes left ends the operation short. */
  lemma {:induction false} RunStopsShort(op: Op, ios: seq<Io>)
    requires Valid(op) && CanDoAll(op, ios) && !NoZeroWrite(ios) && op.size > 0
    ensures DoAll(op, ios).size > 0
    decreases |ios|
  {
    var i :| 0 <= i < |ios| && ios[i] == Write(Wrote(0));
    if i > 0 {
      assert ios[1..][i - 1] == ios[i];
      assert CanDoAll(Do(op, ios[0]), ios[1..]) && ios[1..] != [];
      RunStopsShort(Do(op, ios[0]), ios[1..]);
    } else {
      assert ios[1..] == [];
    }
  }

  /**
   A send that ends without an error has sent the whole buffer if and only if no write reported zero bytes, or there
   was nothing to send.
   */
  lemma CompletedSend(data: seq<char>, ios: seq<Io>)
    requires CanDoAll(Start(data), ios)
    ensures var end := DoAll(Start(data), ios);
      end.phase.Continued? && end.ec == NO_ERROR ==>
        (Wire(Start(data), ios) == data <==> NoZeroWrite(ios) || data == [])
  {
    SendConserves(data, ios);
    if NoZeroWrite(ios) {
      RunCompletes(Start(data), ios);
    } else if data != [] {
      RunStopsShort(Start(data), ios);
    }
  }

  /** A run that ends without an error and has sent nothing: the first `write` reports zero bytes. */
  lemma ShortSendExists()
    ensures var ios := [Write(Wrote(0))];
      && CanDoAll(Start("a"), ios)
      && DoAll(Start("a"), ios).phase.Continued? && DoAll(Start("a"), ios).ec == NO_ERROR
      && Wire(Start("a"), ios) == []
  {
    var op := Start("a");
    var ios := [Write(Wrote(0))];
    assert ios[1..] == [];
    assert CanDoAll(Do(op, ios[0]), ios[1..]);
    assert DoAll(op, ios) == Do(op, ios[0]);
    assert Wire(op, ios) == Bytes(op, ios[0]) + [];
  }

  // ---------------------------------------------------------------------------------------------
  // The outcome, read off the answers.

  predicate Fails(io: Io) {
    (io.Write? && io.w.WriteFailed?) || (io.Arm? && io.a.ArmFailed?)
  }

  function Code(io: Io): int
    requires Fails(io)
  {
    if io.Write? then io.w.code else io.a.code
  }

  /** The code of the first answer that is a failure. */
  function FirstFailure(ios: seq<Io>): int {
    if ios == [] then NO_ERROR else if Fails(ios[0]) then Code(ios[0]) else FirstFailure(ios[1..])
  }

  /** What the writes have accepted together. */
  function Accepted(ios: seq<Io>): nat {
    if ios == [] then 0 else (if ios[0].Write? && ios[0].w.Wrote? then ios[0].w.n else 0) + Accepted(ios[1..])
  }

  lemma {:induction false} RunAnswers(op: Op, ios: seq<Io>)
    requires CanDoAll(op, ios) && (op.ec != NO_ERROR ==> op.phase.Continued?)
    ensures DoAll(op, ios).sent == op.sent + Accepted(ios)
    ensures DoAll(op, ios).ec == if op.ec != NO_ERROR then op.ec else FirstFailure(ios)
    decreases |ios|
  {
    if ios == [] {
    } else {
      RunAnswers(Do(op, ios[0]), ios[1..]);
    }
  }

  /** The reported error is the first failure answered, if any, and the reported count what the writes have accepted. */
  lemma AnswersDecide(data: seq<char>, ios: seq<Io>)
    requires CanDoAll(Start(data), ios)
    ensures DoAll(Start(data), ios).ec == FirstFailure(ios)
    ensures DoAll(Start(data), ios).sent == Accepted(ios)
  {
    RunAnswers(Start(data), ios);
  }

  /** The answer ends the operation, `whole` saying whether everything has been accepted. */
  predicate Ends(io: Io, whole: bool) {
    match io
    case Write(Wrote(n)) => n == 0 || whole
    case Write(WriteFailed(_)) => true
    case Write(_) => false
    case Arm(a) => a.ArmFailed?
    case WakeUp => false
  }

  /** Write, register, wake up, and again. */
  function Turn(io: Io): nat {
    match io
    case Write(_) => 0
    case Arm(_) => 1
    case WakeUp => 2
  }

  function Next(phase: Phase): nat {
    match phase
    case Writing => 0
    case Arming => 1
    case Suspended => 2
    case Continued => 3
  }

  lemma {:induction false} RunAlternates(op: Op, ios: seq<Io>)
    requires Valid(op) && CanDoAll(op, ios)
    ensures forall i :: 0 <= i < |ios| ==> Turn(ios[i]) == (Next(op.phase) + i) % 3
    ensures var end := DoAll(op, ios);
      if ios == [] then end == op
      else if Ends(ios[|ios| - 1], end.size == 0) then end.phase.Continued?
      else Next(end.phase) == (Next(op.phase) + |ios|) % 3
    decreases |ios|
  {
    if ios == [] {
    } else {
      var next := Do(op, ios[0]);
      StepConserves(op, ios[0]);
      RunAlternates(next, ios[1..]);
      if ios[1..] == [] {
        assert DoAll(op, ios) == next;
      } else {
        assert CanDo(next, ios[1]);
        assert forall i :: 1 <= i < |ios| ==> ios[i] == ios[1..][i - 1];
      }
    }
  }

  /**
   The steps of a send are write, register, wake up, over and over, and it goes on to its awaiter with the first answer
   that ends it.
   */
  lemma WritesAgainAfterEachWakeUp(data: seq<char>, ios: seq<Io>)
    requires CanDoAll(Start(data), ios)
    ensures forall i :: 0 <= i < |ios| ==> Turn(ios[i]) == i % 3
    ensures DoAll(Start(data), ios).phase.Continued? <==>
      ios != [] && Ends(ios[|ios| - 1], Accepted(ios) == |data|)
  {
    RunAlternates(Start(data), ios);
    AnswersDecide(data, ios);
    SendConserves(data, ios);
  }

  /** The caller's comparison of the returned count with the size detects exactly the short sends. */
  lemma CountDetectsShortSend(data: seq<char>, ios: seq<Io>)
    requires CanDoAll(Start(data), ios)
    ensures DoAll(Start(data), ios).sent == |data| <==> Wire(Start(data), ios) == data
  {
    SendConserves(data, ios);
  }

  // ---------------------------------------------------------------------------------------------
  // The operation object.

  class Socket {
    var stream: seq<char>

    constructor ()
      ensures stream == []
    {
      stream := [];
    }
  }

  /** One write attempt, with the registration that follows it if the attempt does not end the operation. */
  datatype Attempt = Attempt(w: WriteResult, a: ArmResult)

  predicate CanAttempt(op: Op, t: Attempt) {
    CanDo(op, Write(t.w)) && (Do(op, Write(t.w)).phase.Arming? ==> CanDo(Do(op, Write(t.w)), Arm(t.a)))
  }

  /** What the attempt amounts to in steps. */
  function StepsOf(op: Op, t: Attempt): seq<Io>
    requires CanAttempt(op, t)
  {
    if Do(op, Write(t.w)).phase.Arming? then [Write(t.w), Arm(t.a)] else [Write(t.w)]
  }

  lemma AttemptSteps(op: Op, t: Attempt)
    requires CanAttempt(op, t)
    ensures CanDoAll(op, StepsOf(op, t))
    ensures DoAll(op, StepsOf(op, t)) ==
      if Do(op, Write(t.w)).phase.Arming? then Do(Do(op, Write(t.w)), Arm(t.a)) else Do(op, Write(t.w))
    ensures Wire(op, StepsOf(op, t)) == Bytes(op, Write(t.w))
  {
    var op1 := Do(op, Write(t.w));
    if op1.phase.Arming? {
      assert StepsOf(op, t)[1..] == [Arm(t.a)];
      assert [Arm(t.a)][1..] == [];
      assert DoAll(op1, [Arm(t.a)]) == DoAll(Do(op1, Arm(t.a)), []);
      assert Wire(op1, [Arm(t.a)]) == Bytes(op1, Arm(t.a)) + [];
    }
  }

  class SendOperation {
    const socket: Socket
    const data: seq<char>
    var pos: nat
    var size: nat
    var sent: nat
    var ec: int
    var registered: bool       // a one-shot registration is outstanding
    var continued: nat         // how often the awaiting coroutine went on
    ghost var phase: Phase

    /** The operation as a value. */
    ghost function View(): Op
      reads this
    {
      Op(data, pos, size, sent, ec, phase)
    }

    ghost predicate Ok()
      reads this
    {
      && Valid(View())
      && (registered <==> phase.Suspended?)
      && continued == (if phase.Continued? then 1 else 0)
    }

    constructor (socket: Socket, data: seq<char>)
      ensures Ok() && View() == Start(data) && this.socket == socket
    {
      this.socket := socket;
      this.data := data;
      pos, size, sent := 0, |data|, 0;
      ec := NO_ERROR;
      registered, continued := false, 0;
      phase := Writing;
    }

    /** `await_ready`, which is also `resume`: one call of `write`. */
    method AwaitReady(w: WriteResult) returns (done: bool)
      requires Ok() && CanDo(View(), Write(w))
      modifies this`pos, this`size, this`sent, this`ec, this`phase, socket
      ensures View() == Do(old(View()), Write(w)).(phase := phase)
      ensures phase == if done then Writing else Arming
      ensures done <==> Do(old(View()), Write(w)).phase.Continued?
      ensures socket.stream == old(socket.stream) + Bytes(old(View()), Write(w))
    {
      match w {
        case Wrote(n) =>
          if n > 0 {
            socket.stream := socket.stream + data[pos..pos + n];
            pos := pos + n;
            size := size - n;
            sent := sent + n;
            done := size == 0;
          } else {
            done := true;
          }
        case WriteFailed(code) =>
          ec := code;
          done := true;
        case Again => done := false;
        case Interrupted => done := false;
      }
      phase := if done then Writing else Arming;
    }

    /** `suspend`: registers for one wake-up. */
    method Suspend(a: ArmResult) returns (suspended: bool)
      requires CanDo(View(), Arm(a)) && !registered
      modifies this`ec, this`registered, this`phase
      ensures View() == Do(old(View()), Arm(a)).(phase := phase)
      ensures registered == suspended == Do(old(View()), Arm(a)).phase.Suspended?
      ensures phase == if suspended then Suspended else Arming
    {
      match a {
        case Armed =>
          registered := true;
          phase := Suspended;
          suspended := true;
        case ArmFailed(code) =>
          ec := code;
          suspended := false;
      }
    }

    /** `co_await`: the coroutine goes on at once unless the write would block and the registration succeeds. */
    method CoAwait(t: Attempt)
      requires Ok() && phase.Writing? && CanAttempt(View(), t)
      modifies this, socket
      ensures Ok() && CanDoAll(old(View()), StepsOf(old(View()), t))
      ensures View() == DoAll(old(View()), StepsOf(old(View()), t))
      ensures socket.stream == old(socket.stream) + Wire(old(View()), StepsOf(old(View()), t))
    {
      AttemptSteps(View(), t);
      var done := AwaitReady(t.w);
      if !done {
        var suspended := Suspend(t.a);
        done := !suspended;
      }
      if done {
        continued := continued + 1;
        phase := Continued;
      }
    }

    /** `event::await_resume`: a wake-up uses up the registration, and the coroutine goes on unless it is renewed. */
    method AwaitResume(t: Attempt)
      requires Ok() && registered && CanAttempt(Do(View(), WakeUp), t)
      modifies this, socket
      ensures Ok() && CanDoAll(old(Do(View(), WakeUp)), StepsOf(old(Do(View(), WakeUp)), t))
      ensures View() == DoAll(old(Do(View(), WakeUp)), StepsOf(old(Do(View(), WakeUp)), t))
      ensures socket.stream == old(socket.stream) + Wire(old(Do(View(), WakeUp)), StepsOf(old(Do(View(), WakeUp)), t))
    {
      registered := false;
      phase := Writing;
      AttemptSteps(View(), t);
      var done := AwaitReady(t.w);
      if !done {
        var suspended := Suspend(t.a);
        done := !suspended;
      }
      if done {
        continued := continued + 1;
        phase := Continued;
      }
    }
  }
}
