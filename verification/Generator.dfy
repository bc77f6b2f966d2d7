/**
 The producer/consumer protocol of `async_generator`, with one step for every access to the shared promise.

 Resuming the other side makes it runnable and lets the resumer go on at any later time, which covers both the nested
 call and a coroutine that carries on in another thread. The consumer awaits every begin and increment, does not
 advance past the end, and destroys the generator only outside an advance; the producer may run, yield, return or
 throw as it likes.
 */
module Generator {

  import opened Wrappers

  /** `m_state`. */
  datatype Shared =
    | NotReadyConsumerActive
    | NotReadyConsumerSuspended
    | ReadyProducerActive
    | ReadyProducerSuspended
    | Cancelled

  /** `m_currentValue`: indeterminate, null, or the address of a value. */
  datatype Cell = Unset | Null | Value(v: int)

  /** The producer. `final` tells the final suspend point from a yield. */
  datatype Producer =
    | Parked(final: bool)        // suspended, m_state says so or is about to be told
    | Body                       // running the user's code
    | Thrown(e: int)             // unhandled_exception: about to load m_state
    | Finish                     // final_suspend: about to store null
    | Entry(final: bool)         // internal_yield_value: about to load m_state
    | Publish(final: bool)       // about to store value_ready_producer_active
    | Wake(final: bool)          // about to resume the consumer
    | Reload(final: bool)
    | TryPark(final: bool)       // await_suspend: first compare-exchange
    | PublishLate(final: bool)
    | WakeLate(final: bool)
    | ReloadLate(final: bool)
    | TryParkLate(final: bool)   // await_suspend: second compare-exchange
    | Destroy(seen: Shared)      // about to destroy its own frame
    | Gone
    | Overrun                    // ran past the final suspend point

  datatype Consumer =
    | Active                     // running the user's code, not inside an advance
    | Load                       // constructor: about to load m_state
    | Start                      // about to store value_not_ready_consumer_active
    | Push                       // about to resume the producer
    | Check                      // about to reload m_state
    | SetHandle(seen: Shared)    // await_suspend: about to store m_consumerCoroutine
    | TrySleep                   // compare-exchange from value_ready_producer_active
    | Restart
    | PushAgain
    | CheckAgain
    | TrySleepLate(seen: Shared) // compare-exchange from value_not_ready_consumer_active
    | Asleep
    | Collect                    // await_resume: about to read m_currentValue
    | Cancel                     // destructor: about to exchange m_state
    | DestroyFrame
    | Dropped

  datatype State = State(
    shared: Shared,
    cell: Cell,
    exception: Option<int>,      // m_exception
    handle: nat,                 // m_consumerCoroutine, as the number of the await that stored it
    p: Producer,
    c: Consumer,
    awaits: nat,                 // advances begun so far
    readable: bool,              // the iterator refers to a value
    ended: bool,                 // the consumer has seen the end
    yielded: seq<int>,
    observed: seq<int>,
    thrown: Option<int>,         // what the producer's body threw
    caught: Option<int>,         // what the consumer was given at the end
    destroyed: nat)

  const INITIAL :=
    State(ReadyProducerSuspended, Unset, None, 0, Parked(false), Active, 0, false, false, [], [], None, None, 0)

  datatype Label =
    | Yield(v: int)
    | Return
    | Throw(e: int)
    | ProducerStep
    | Advance                    // begin() or ++
    | Deref
    | Drop                       // the generator's destructor
    | ConsumerStep

  predicate Enabled(s: State, l: Label) {
    match l
    case Yield(_) => s.p.Body?
    case Return => s.p.Body?
    case Throw(_) => s.p.Body?
    case ProducerStep => !(s.p.Parked? || s.p.Body? || s.p.Gone? || s.p.Overrun?)
    case Advance => s.c.Active? && !s.ended
    case Deref => s.c.Active? && s.readable
    case Drop => s.c.Active?
    case ConsumerStep => !(s.c.Active? || s.c.Asleep? || s.c.Dropped?)
  }

  function Apply(s: State, l: Label): State
    requires Enabled(s, l)
  {
    match l
    case Yield(v) => s.(cell := Value(v), yielded := s.yielded + [v], p := Entry(false))
    case Return => s.(p := Finish)
    case Throw(e) => s.(thrown := Some(e), p := Thrown(e))
    case ProducerStep => StepProducer(s)
    case Advance => s.(awaits := s.awaits + 1, c := Load)
    case Deref => s
    case Drop => s.(c := Cancel)
    case ConsumerStep => StepConsumer(s)
  }

  /** The producer goes on behind its yield. */
  function GoOn(final: bool): Producer {
    if final then Overrun else Body
  }

  /** The tail of the producer's `await_suspend`, with its local copy of m_state. */
  function ParkOrDestroy(final: bool, seen: Shared): Producer {
    if seen.ReadyProducerActive? then TryParkLate(final) else Destroy(seen)
  }

  /** `await_ready` and the head of `await_suspend`. */
  function AfterYield(final: bool, seen: Shared): Producer {
    match seen
    case NotReadyConsumerSuspended => GoOn(final)
    case NotReadyConsumerActive => TryPark(final)
    case _ => ParkOrDestroy(final, seen)
  }

  function StepProducer(s: State): State
    requires Enabled(s, ProducerStep)
  {
    match s.p
    case Thrown(e) => s.(exception := if s.shared != Cancelled then Some(e) else s.exception, p := Finish)
    case Finish => s.(cell := Null, p := Entry(true))
    case Entry(final) =>
      s.(p := if s.shared.NotReadyConsumerSuspended? then Publish(final) else AfterYield(final, s.shared))
    case Publish(final) => s.(shared := ReadyProducerActive, p := Wake(final))
    case Wake(final) => s.(c := Collect, p := Reload(final))
    case Reload(final) => s.(p := AfterYield(final, s.shared))
    case TryPark(final) =>
      if s.shared.NotReadyConsumerActive? then s.(shared := ReadyProducerSuspended, p := Parked(final))
      else if s.shared.NotReadyConsumerSuspended? then s.(p := PublishLate(final))
      else s.(p := ParkOrDestroy(final, s.shared))
    case PublishLate(final) => s.(shared := ReadyProducerActive, p := WakeLate(final))
    case WakeLate(final) => s.(c := Collect, p := ReloadLate(final))
    case ReloadLate(final) =>
      s.(p := if s.shared.NotReadyConsumerSuspended? then GoOn(final) else ParkOrDestroy(final, s.shared))
    case TryParkLate(final) =>
      if s.shared.ReadyProducerActive? then s.(shared := ReadyProducerSuspended, p := Parked(final))
      else if s.shared.NotReadyConsumerSuspended? then s.(p := GoOn(final))
      else s.(p := Destroy(s.shared))
    case Destroy(_) => s.(destroyed := s.destroyed + 1, p := Gone)
    case _ => s
  }

  /** The producer's resumption by the consumer. */
  function Resumed(p: Producer): Producer {
    if p.Parked? then GoOn(p.final) else p
  }

  /** The consumer's `await_ready`. */
  function AfterLoad(seen: Shared): Consumer {
    if seen.ReadyProducerSuspended? then Collect else SetHandle(seen)
  }

  function StepConsumer(s: State): State
    requires Enabled(s, ConsumerStep)
  {
    match s.c
    case Load => s.(c := if s.shared.ReadyProducerSuspended? then Start else AfterLoad(s.shared))
    case Start => s.(shared := NotReadyConsumerActive, c := Push)
    case Push => s.(p := Resumed(s.p), c := Check)
    case Check => s.(c := AfterLoad(s.shared))
    case SetHandle(seen) =>
      s.(handle := s.awaits, c := if seen.ReadyProducerActive? then TrySleep else TrySleepLate(seen))
    case TrySleep =>
      if s.shared.ReadyProducerActive? then s.(shared := NotReadyConsumerSuspended, c := Asleep)
      else s.(c := Restart)
    case Restart => s.(shared := NotReadyConsumerActive, c := PushAgain)
    case PushAgain => s.(p := Resumed(s.p), c := CheckAgain)
    case CheckAgain => s.(c := if s.shared.ReadyProducerSuspended? then Collect else TrySleepLate(s.shared))
    case TrySleepLate(seen) =>
      if s.shared == seen then s.(shared := NotReadyConsumerSuspended, c := Asleep) else s.(c := Collect)
    case Collect =>
      if s.cell.Value? then s.(observed := s.observed + [s.cell.v], readable := true, c := Active)
      else s.(ended := true, readable := false, caught := s.exception, c := Active)
    case Cancel =>
      s.(shared := Cancelled, c := if s.shared.ReadyProducerSuspended? then DestroyFrame else Dropped)
    case DestroyFrame => s.(destroyed := s.destroyed + 1, p := Gone, c := Dropped)
    case _ => s
  }

  /** The consumer may read `m_currentValue` and the value behind it. */
  predicate MayRead(s: State) {
    s.c.Collect? || (s.c.Active? && s.readable)
  }

  /**
   The assertions of the source; no access to a destroyed promise; the other side is resumed or destroyed only while
   it is suspended, and the consumer through the handle of its current await; the current value is not written while
   it may be read, and not read before it is written.
   */
  predicate Safe(s: State, l: Label)
    requires Enabled(s, l)
  {
    s.destroyed == 0 &&
    match l
    case Yield(_) => !MayRead(s)
    case ProducerStep => (
      match s.p
      case Finish => !MayRead(s)
      case Entry(_) => !s.shared.ReadyProducerActive? && !s.shared.ReadyProducerSuspended?
      case Wake(_) => s.c.Asleep? && s.handle == s.awaits
      case WakeLate(_) => s.c.Asleep? && s.handle == s.awaits
      case Destroy(seen) => seen.Cancelled?
      case _ => true)
    case Deref => s.cell.Value? && s.observed != [] && s.cell.v == s.observed[|s.observed| - 1]
    case ConsumerStep => (
      match s.c
      case Push => s.p == Parked(false)
      case PushAgain => s.p == Parked(false)
      case TrySleep => s.shared.ReadyProducerActive? || s.shared.ReadyProducerSuspended?
      case TrySleepLate(seen) => seen.NotReadyConsumerActive?
      case Collect => !s.cell.Unset?
      case Cancel => !s.shared.NotReadyConsumerSuspended? && !s.shared.Cancelled?
      case DestroyFrame => s.p.Parked?
      case _ => true)
    case _ => true
  }

  // ---------------------------------------------------------------------------------------------
  // The invariant.

  /** In the producer's body, or on the way from it to the next store of the current value. */
  predicate InBody(p: Producer) {
    p.Body? || p.Thrown? || p.Finish?
  }

  /** The producer has woken the consumer and not looked at m_state since. */
  predicate HasWoken(p: Producer) {
    p.Reload? || p.ReloadLate? || p.TryParkLate?
  }

  /** The consumer has resumed the producer and neither gone to sleep nor seen a result yet. */
  predicate HasPushed(c: Consumer) {
    c.Check? || c.CheckAgain? || c == SetHandle(NotReadyConsumerActive) || c == TrySleepLate(NotReadyConsumerActive)
  }

  /** The consumer has dealt with the last result and not changed m_state since. */
  predicate BetweenResults(c: Consumer) {
    c.Active? || c.Load? || c == SetHandle(ReadyProducerActive) || c.TrySleep? || c.Cancel?
  }

  /** Everything published has been observed. */
  predicate Settled(s: State) {
    && s.observed == s.yielded
    && (s.ended <==> s.cell.Null?)
    && (s.readable ==> s.cell.Value?)
    && (s.cell.Value? ==> s.observed != [] && s.cell.v == s.observed[|s.observed| - 1])
    && (s.ended ==> s.caught == s.thrown)
  }

  /** One value, or the end, has been stored and not observed. */
  predicate Fresh(s: State, final: bool) {
    && !s.ended
    && (if final then s.cell.Null? && s.observed == s.yielded
        else s.cell.Value? && s.yielded == s.observed + [s.cell.v])
  }

  predicate Working(s: State) {
    s.observed == s.yielded && !s.ended
  }

  predicate Turns(s: State) {
    match s.shared
    case ReadyProducerSuspended =>
      && s.p.Parked?
      && (if HasPushed(s.c) || s.c.Collect? then Fresh(s, s.p.final)
          else (BetweenResults(s.c) || s.c.Start? || s.c.Restart?) && Settled(s) && (s.p.final <==> s.ended))
    case NotReadyConsumerActive =>
      if s.c.Push? || s.c.PushAgain? then s.p == Parked(false) && Settled(s) && !s.ended
      else HasPushed(s.c) && (if InBody(s.p) then Working(s) else (s.p.Entry? || s.p.TryPark?) && Fresh(s, s.p.final))
    case NotReadyConsumerSuspended =>
      && s.c.Asleep? && s.handle == s.awaits
      && (if InBody(s.p) then Working(s)
          else if HasWoken(s.p) then Settled(s) && !s.ended && !s.p.final
          else (s.p.Entry? || s.p.TryPark? || s.p.Publish? || s.p.PublishLate?) && Fresh(s, s.p.final))
    case ReadyProducerActive =>
      if s.p.Wake? || s.p.WakeLate? then s.c.Asleep? && s.handle == s.awaits && Fresh(s, s.p.final)
      else HasWoken(s.p) && (if s.c.Collect? then Fresh(s, s.p.final)
                             else BetweenResults(s.c) && Settled(s) && (s.p.final <==> s.ended))
    case Cancelled =>
      && Settled(s)
      && (if s.c.DestroyFrame? then s.p.Parked?
          else s.c.Dropped? && (HasWoken(s.p) || s.p == Destroy(Cancelled) || s.p.Gone?))
  }

  /** The consumer has stored the handle of its current await. */
  predicate HandleStored(c: Consumer) {
    c.TrySleep? || c.Restart? || c.PushAgain? || c.CheckAgain? || c.TrySleepLate?
  }

  predicate Inv(s: State) {
    && Turns(s)
    && (HandleStored(s.c) ==> s.handle == s.awaits)
    && (s.ended ==> s.c.Active? || s.c.Cancel? || s.c.DestroyFrame? || s.c.Dropped?)
    && s.destroyed == (if s.p.Gone? then 1 else 0)
    && (s.p.Thrown? ==> s.thrown == Some(s.p.e))
    && (!s.p.Thrown? ==> s.exception == s.thrown)
  }

  /** The producer, up to the point where the consumer has been told about the value. */
  lemma ProducerPublishes(s: State)
    requires Inv(s) && Enabled(s, ProducerStep) && !(HasWoken(s.p) || s.p.TryPark? || s.p.Destroy?)
    ensures Safe(s, ProducerStep) && Inv(Apply(s, ProducerStep))
  {
  }

  lemma ProducerParks(s: State)
    requires Inv(s) && Enabled(s, ProducerStep) && HasWoken(s.p)
    ensures Safe(s, ProducerStep) && Inv(Apply(s, ProducerStep))
  {
  }

  lemma ProducerLeaves(s: State)
    requires Inv(s) && Enabled(s, ProducerStep) && (s.p.TryPark? || s.p.Destroy?)
    ensures Safe(s, ProducerStep) && Inv(Apply(s, ProducerStep))
  {
  }

  lemma ConsumerStarts(s: State)
    requires Inv(s) && Enabled(s, ConsumerStep)
    requires s.c.Load? || s.c.Start? || s.c.Push? || s.c.Check? || s.c.SetHandle?
    ensures Safe(s, ConsumerStep) && Inv(Apply(s, ConsumerStep))
  {
  }

  lemma ConsumerSleeps(s: State)
    requires Inv(s) && Enabled(s, ConsumerStep)
    requires s.c.TrySleep? || s.c.Restart? || s.c.PushAgain? || s.c.CheckAgain? || s.c.TrySleepLate?
    ensures Safe(s, ConsumerStep) && Inv(Apply(s, ConsumerStep))
  {
  }

  lemma ConsumerEnds(s: State)
    requires Inv(s) && Enabled(s, ConsumerStep) && (s.c.Collect? || s.c.Cancel? || s.c.DestroyFrame?)
    ensures Safe(s, ConsumerStep) && Inv(Apply(s, ConsumerStep))
  {
  }

  lemma UserKeepsInv(s: State, l: Label)
    requires Inv(s) && Enabled(s, l) && !l.ProducerStep? && !l.ConsumerStep?
    ensures Safe(s, l) && Inv(Apply(s, l))
  {
  }

  /** Every step of every interleaving is safe and keeps the invariant. */
  lemma StepKeepsInv(s: State, l: Label)
    requires Inv(s) && Enabled(s, l)
    ensures Safe(s, l) && Inv(Apply(s, l))
  {
    if l.ProducerStep? {
      if HasWoken(s.p) {
        ProducerParks(s);
      } else if s.p.TryPark? || s.p.Destroy? {
        ProducerLeaves(s);
      } else {
        ProducerPublishes(s);
      }
    } else if l.ConsumerStep? {
      match s.c {
        case Collect => ConsumerEnds(s);
        case Cancel => ConsumerEnds(s);
        case DestroyFrame => ConsumerEnds(s);
        case Load => ConsumerStarts(s);
        case Start => ConsumerStarts(s);
        case Push => ConsumerStarts(s);
        case Check => ConsumerStarts(s);
        case SetHandle(_) => ConsumerStarts(s);
        case _ => ConsumerSleeps(s);
      }
    } else {
      UserKeepsInv(s, l);
    }
  }

  // ---------------------------------------------------------------------------------------------
  // Runs.

  ghost predicate IsRun(ss: seq<State>, ls: seq<Label>) {
    && |ss| == |ls| + 1
    && ss[0] == INITIAL
    && forall i :: 0 <= i < |ls| ==> Enabled(ss[i], ls[i]) && ss[i + 1] == Apply(ss[i], ls[i])
  }

  lemma {:induction false} RunInv(ss: seq<State>, ls: seq<Label>, n: nat)
    requires IsRun(ss, ls) && n <= |ls|
    ensures Inv(ss[n])
  {
    if n == 0 {
    } else {
      RunInv(ss, ls, n - 1);
      StepKeepsInv(ss[n - 1], ls[n - 1]);
    }
  }

  /** No assertion fails, no access is out of turn and nothing touches the promise after its destruction, in any run. */
  lemma AlwaysSafe(ss: seq<State>, ls: seq<Label>)
    requires IsRun(ss, ls)
    ensures forall i :: 0 <= i < |ls| ==> Safe(ss[i], ls[i])
    ensures forall i :: 0 <= i < |ss| ==> !ss[i].p.Overrun?
  {
    forall i | 0 <= i < |ls| ensures Safe(ss[i], ls[i]) {
      RunInv(ss, ls, i);
      StepKeepsInv(ss[i], ls[i]);
    }
    forall i | 0 <= i < |ss| ensures !ss[i].p.Overrun? {
      RunInv(ss, ls, i);
    }
  }

  /**
   The values observed are the values yielded, each once and in order, with a lag of at most one; a consumer that has
   seen the end has observed every value and has been given the exception the producer's body threw, if any.
   */
  lemma ObservesWhatIsYielded(ss: seq<State>, ls: seq<Label>, n: nat)
    requires IsRun(ss, ls) && n <= |ls|
    ensures ss[n].observed <= ss[n].yielded
    ensures |ss[n].yielded| <= |ss[n].observed| + 1
    ensures ss[n].ended ==> ss[n].observed == ss[n].yielded && ss[n].caught == ss[n].thrown
  {
    RunInv(ss, ls, n);
  }

  // ---------------------------------------------------------------------------------------------
  // What the two bodies did, read off the labels.

  /** The values of the `co_yield`s so far. */
  function Yields(ls: seq<Label>, n: nat): seq<int>
    requires n <= |ls|
  {
    if n == 0 then [] else Yields(ls, n - 1) + if ls[n - 1].Yield? then [ls[n - 1].v] else []
  }

  /** What the producer's body has thrown. */
  function Throws(ls: seq<Label>, n: nat): Option<int>
    requires n <= |ls|
  {
    if n == 0 then None else if ls[n - 1].Throw? then Some(ls[n - 1].e) else Throws(ls, n - 1)
  }

  /** The producer's body has returned or thrown. */
  predicate BodyEnded(ls: seq<Label>, n: nat)
    requires n <= |ls|
  {
    exists i :: 0 <= i < n && (ls[i].Return? || ls[i].Throw?)
  }

  function Advances(ls: seq<Label>, n: nat): nat
    requires n <= |ls|
  {
    if n == 0 then 0 else Advances(ls, n - 1) + if ls[n - 1].Advance? then 1 else 0
  }

  lemma SidesDoNotRecord(s: State)
    ensures Enabled(s, ProducerStep) ==>
      var t := Apply(s, ProducerStep); t.yielded == s.yielded && t.thrown == s.thrown && t.awaits == s.awaits
    ensures Enabled(s, ConsumerStep) ==>
      var t := Apply(s, ConsumerStep); t.yielded == s.yielded && t.thrown == s.thrown && t.awaits == s.awaits
  {
  }

  lemma StepRecords(s: State, l: Label)
    requires Enabled(s, l)
    ensures Apply(s, l).yielded == s.yielded + if l.Yield? then [l.v] else []
    ensures Apply(s, l).thrown == if l.Throw? then Some(l.e) else s.thrown
    ensures Apply(s, l).awaits == s.awaits + if l.Advance? then 1 else 0
  {
    SidesDoNotRecord(s);
  }

  /** The state records the labels. */
  lemma {:induction false} RunRecords(ss: seq<State>, ls: seq<Label>, n: nat)
    requires IsRun(ss, ls) && n <= |ls|
    ensures ss[n].yielded == Yields(ls, n) && ss[n].thrown == Throws(ls, n) && ss[n].awaits == Advances(ls, n)
  {
    if n == 0 {
    } else {
      RunRecords(ss, ls, n - 1);
      StepRecords(ss[n - 1], ls[n - 1]);
    }
  }

  /**
   The consumer observes what the producer's body yields, each value once and in order, with a lag of at most one. When
   it has been told the end, it has observed everything and been given the exception that ended the body, if any.
   */
  lemma ObservesTheBody(ss: seq<State>, ls: seq<Label>, n: nat)
    requires IsRun(ss, ls) && n <= |ls|
    ensures ss[n].observed <= Yields(ls, n) && |Yields(ls, n)| <= |ss[n].observed| + 1
    ensures ss[n].ended ==>
      BodyEnded(ls, n) && ss[n].observed == Yields(ls, n) && ss[n].caught == Throws(ls, n)
  {
    ObservesWhatIsYielded(ss, ls, n);
    RunRecords(ss, ls, n);
    EndingIsRecorded(ss, ls, n);
    RunInv(ss, ls, n);
  }

  /** The producer is past its body. */
  predicate Ending(s: State) {
    match s.p
    case Thrown(_) => true
    case Finish => true
    case Parked(final) => final
    case Entry(final) => final
    case Publish(final) => final
    case Wake(final) => final
    case Reload(final) => final
    case TryPark(final) => final
    case PublishLate(final) => final
    case WakeLate(final) => final
    case ReloadLate(final) => final
    case TryParkLate(final) => final
    case _ => false
  }

  /** The producer's frame is being destroyed or has been. */
  predicate Vanishing(s: State) {
    s.p.Destroy? || s.p.Gone?
  }

  lemma ProducerKeepsEnding(s: State)
    requires Inv(s) && Enabled(s, ProducerStep) && !Vanishing(Apply(s, ProducerStep))
    ensures Ending(Apply(s, ProducerStep)) <==> Ending(s)
  {
  }

  lemma EndingChanges(s: State, l: Label)
    requires Inv(s) && Enabled(s, l) && !Vanishing(Apply(s, l))
    ensures Ending(Apply(s, l)) <==> Ending(s) || l.Return? || l.Throw?
  {
    if l.ProducerStep? {
      ProducerKeepsEnding(s);
    }
  }

  lemma ProducerVanishes(s: State)
    requires Inv(s) && Enabled(s, ProducerStep)
    ensures Vanishing(s) ==> Vanishing(Apply(s, ProducerStep))
    ensures Vanishing(Apply(s, ProducerStep)) && !Vanishing(s) ==> Dropping(Apply(s, ProducerStep).c)
  {
  }

  lemma VanishingChanges(s: State, l: Label)
    requires Inv(s) && Enabled(s, l)
    ensures Vanishing(s) ==> Vanishing(Apply(s, l))
    ensures Vanishing(Apply(s, l)) && !Vanishing(s) ==> Dropping(Apply(s, l).c)
  {
    if l.ProducerStep? {
      ProducerVanishes(s);
    }
  }

  lemma EndIsTold(s: State, l: Label)
    requires Inv(s) && Enabled(s, l) && !s.ended && Apply(s, l).ended
    ensures Ending(s) && !Vanishing(s)
  {
  }

  /** The generator's destructor has been called. */
  predicate Dropping(c: Consumer) {
    c.Cancel? || c.DestroyFrame? || c.Dropped?
  }

  lemma EndingStep(s: State, l: Label)
    requires Inv(s) && Enabled(s, l) && Safe(s, l) && (Vanishing(s) ==> Dropping(s.c))
    ensures Vanishing(s) ==> Vanishing(Apply(s, l))
    ensures Vanishing(Apply(s, l)) ==> Dropping(Apply(s, l).c)
    ensures !Vanishing(Apply(s, l)) ==> (Ending(Apply(s, l)) <==> Ending(s) || l.Return? || l.Throw?)
    ensures !s.ended && Apply(s, l).ended ==> Ending(s) && !Vanishing(s)
  {
    VanishingChanges(s, l);
    if Vanishing(s) {
      DroppingStays(s, l);
    }
    if !Vanishing(Apply(s, l)) {
      EndingChanges(s, l);
    }
    if !s.ended && Apply(s, l).ended {
      EndIsTold(s, l);
    }
  }

  lemma {:induction false} EndingIsRecorded(ss: seq<State>, ls: seq<Label>, n: nat)
    requires IsRun(ss, ls) && n <= |ls|
    ensures !Vanishing(ss[n]) ==> (Ending(ss[n]) <==> BodyEnded(ls, n))
    ensures Vanishing(ss[n]) ==> Dropping(ss[n].c)
    ensures ss[n].ended ==> BodyEnded(ls, n)
  {
    if n == 0 {
    } else {
      EndingIsRecorded(ss, ls, n - 1);
      RunInv(ss, ls, n - 1);
      StepKeepsInv(ss[n - 1], ls[n - 1]);
      EndingStep(ss[n - 1], ls[n - 1]);
      assert BodyEnded(ls, n) <==> BodyEnded(ls, n - 1) || ls[n - 1].Return? || ls[n - 1].Throw?;
    }
  }

  /** Once the body has returned or thrown, a consumer that is not destroying the generator is told the end. */
  lemma EndArrives(ss: seq<State>, ls: seq<Label>, n: nat)
    requires IsRun(ss, ls) && n <= |ls| && BodyEnded(ls, n)
    requires !Enabled(ss[n], ProducerStep) && !Enabled(ss[n], ConsumerStep) && !ss[n].c.Dropped?
    ensures ss[n].ended && ss[n].observed == Yields(ls, n) && ss[n].caught == Throws(ls, n)
  {
    RunInv(ss, ls, n);
    EndingIsRecorded(ss, ls, n);
    ObservesTheBody(ss, ls, n);
  }

  /**
   Every completed advance has brought one more value, or the end; between two advances the iterator can be dereferenced
   exactly if the last one brought a value, and then refers to it.
   */
  lemma OneValuePerAdvance(ss: seq<State>, ls: seq<Label>, n: nat)
    requires IsRun(ss, ls) && n <= |ls| && ss[n].c.Active?
    ensures |ss[n].observed| + (if ss[n].ended then 1 else 0) == Advances(ls, n)
    ensures Enabled(ss[n], Deref) <==> Advances(ls, n) > 0 && !ss[n].ended
    ensures Enabled(ss[n], Deref) ==>
      ss[n].observed != [] && ss[n].cell == Value(ss[n].observed[|ss[n].observed| - 1])
  {
    ResultsCount(ss, ls, n);
    RunInv(ss, ls, n);
  }

  predicate InAdvance(c: Consumer) {
    !c.Active? && !Dropping(c)
  }

  lemma {:induction false} ResultsCount(ss: seq<State>, ls: seq<Label>, n: nat)
    requires IsRun(ss, ls) && n <= |ls|
    ensures !Dropping(ss[n].c) ==>
      && |ss[n].observed| + (if ss[n].ended then 1 else 0) + (if InAdvance(ss[n].c) then 1 else 0) == Advances(ls, n)
      && (ss[n].c.Active? ==> (ss[n].readable <==> Advances(ls, n) > 0 && !ss[n].ended))
  {
    if n == 0 {
    } else {
      ResultsCount(ss, ls, n - 1);
      RunInv(ss, ls, n - 1);
      StepKeepsInv(ss[n - 1], ls[n - 1]);
      ResultsStep(ss[n - 1], ls[n - 1]);
    }
  }

  function Results(s: State): nat {
    |s.observed| + (if s.ended then 1 else 0) + (if InAdvance(s.c) then 1 else 0)
  }

  lemma ResultsStep(s: State, l: Label)
    requires Inv(s) && Enabled(s, l) && Safe(s, l)
    ensures Dropping(s.c) ==> Dropping(Apply(s, l).c)
    ensures !Dropping(Apply(s, l).c) ==>
      && Results(Apply(s, l)) == Results(s) + (if l.Advance? then 1 else 0)
      && (Apply(s, l).c.Active? ==>
            if s.c.Active? then Apply(s, l).readable == s.readable && Apply(s, l).ended == s.ended
            else Apply(s, l).readable == !Apply(s, l).ended)
  {
  }

  /** The two sides never sleep at the same time, and a sleeping consumer has a producer that can move. */
  lemma NeverBothAsleep(ss: seq<State>, ls: seq<Label>, n: nat)
    requires IsRun(ss, ls) && n <= |ls|
    ensures !(ss[n].c.Asleep? && ss[n].p.Parked?)
    ensures ss[n].c.Asleep? ==> ss[n].p.Body? || Enabled(ss[n], ProducerStep)
    ensures !ss[n].c.Active? && !ss[n].c.Dropped? && !Enabled(ss[n], ConsumerStep) ==>
      ss[n].p.Body? || Enabled(ss[n], ProducerStep)
  {
    RunInv(ss, ls, n);
  }

  /** Steps the producer still takes once the generator has been destroyed. */
  function StepsToDestruction(p: Producer): nat {
    match p
    case Reload(_) => 2
    case ReloadLate(_) => 2
    case TryParkLate(_) => 2
    case Destroy(_) => 1
    case _ => 0
  }

  /**
   The frame is destroyed at most once. After the generator's destructor it has been destroyed, or the producer is on
   its way to do so and needs at most two steps of its own.
   */
  lemma DestroyedExactlyOnce(ss: seq<State>, ls: seq<Label>, n: nat)
    requires IsRun(ss, ls) && n <= |ls|
    ensures ss[n].destroyed <= 1
    ensures ss[n].destroyed == 1 ==> ss[n].c.Dropped?
    ensures ss[n].c.Dropped? ==> (ss[n].destroyed == 1 <==> StepsToDestruction(ss[n].p) == 0)
    ensures ss[n].c.Dropped? && ss[n].destroyed == 0 ==>
      && Enabled(ss[n], ProducerStep)
      && StepsToDestruction(Apply(ss[n], ProducerStep).p) == StepsToDestruction(ss[n].p) - 1
  {
    RunInv(ss, ls, n);
  }

  function Sleeps(s: State, l: Label): nat
    requires Enabled(s, l)
  {
    if !s.c.Asleep? && Apply(s, l).c.Asleep? then 1 else 0
  }

  function ConsumerWakes(s: State, l: Label): nat
    requires Enabled(s, l)
  {
    if l.ProducerStep? && (s.p.Wake? || s.p.WakeLate?) then 1 else 0
  }

  function Parks(s: State, l: Label): nat
    requires Enabled(s, l)
  {
    if !s.p.Parked? && Apply(s, l).p.Parked? then 1 else 0
  }

  function ProducerWakes(s: State, l: Label): nat
    requires Enabled(s, l)
  {
    if l.ConsumerStep? && (s.c.Push? || s.c.PushAgain?) then 1 else 0
  }

  ghost function Total(f: (State, Label) --> nat, ss: seq<State>, ls: seq<Label>, n: nat): nat
    requires IsRun(ss, ls) && n <= |ls|
    requires forall i :: 0 <= i < |ls| ==> f.requires(ss[i], ls[i])
  {
    if n == 0 then 0 else Total(f, ss, ls, n - 1) + f(ss[n - 1], ls[n - 1])
  }

  function FrameDestructions(s: State, l: Label): nat
    requires Enabled(s, l)
  {
    if l.ConsumerStep? && s.c.DestroyFrame? then 1 else 0
  }

  lemma StepBalances(s: State, l: Label)
    requires Inv(s) && Enabled(s, l) && Safe(s, l)
    ensures (if s.c.Asleep? then 1 else 0) + Sleeps(s, l)
         == ConsumerWakes(s, l) + if Apply(s, l).c.Asleep? then 1 else 0
    ensures (if s.p.Parked? then 1 else 0) + Parks(s, l)
         == ProducerWakes(s, l) + FrameDestructions(s, l) + if Apply(s, l).p.Parked? then 1 else 0
  {
  }

  /**
   Each suspension of the consumer is ended by exactly one resumption or is still going on; each suspension of the
   producer, which begins with one, is ended by exactly one resumption or by the generator's destructor, or is still
   going on.
   */
  lemma {:induction false} ResumedOncePerSuspension(ss: seq<State>, ls: seq<Label>, n: nat)
    requires IsRun(ss, ls) && n <= |ls|
    ensures Total(Sleeps, ss, ls, n) == Total(ConsumerWakes, ss, ls, n) + if ss[n].c.Asleep? then 1 else 0
    ensures Total(Parks, ss, ls, n) + 1
         == Total(ProducerWakes, ss, ls, n) + Total(FrameDestructions, ss, ls, n) + if ss[n].p.Parked? then 1 else 0
  {
    if n == 0 {
    } else {
      ResumedOncePerSuspension(ss, ls, n - 1);
      RunInv(ss, ls, n - 1);
      StepKeepsInv(ss[n - 1], ls[n - 1]);
      StepBalances(ss[n - 1], ls[n - 1]);
    }
  }

  // ---------------------------------------------------------------------------------------------
  // The protocol terminates.

  /** Steps of the producer's protocol until it is suspended or has woken the consumer and come to rest. */
  function ProducerWeight(p: Producer): nat {
    match p
    case Body => 8
    case Thrown(_) => 8
    case Finish => 7
    case Entry(_) => 6
    case TryPark(_) => 5
    case Publish(_) => 4
    case PublishLate(_) => 4
    case Wake(_) => 3
    case WakeLate(_) => 3
    case Reload(_) => 2
    case ReloadLate(_) => 2
    case TryParkLate(_) => 1
    case Destroy(_) => 1
    case _ => 0
  }

  /** Steps of the consumer, those included that a producer it resumes will take. */
  function ConsumerWeight(c: Consumer): nat {
    match c
    case Load => 16
    case SetHandle(seen) => if seen.ReadyProducerActive? then 15 else 3
    case TrySleep => 14
    case Start => 14
    case Restart => 13
    case Push => 13
    case PushAgain => 12
    case Check => 4
    case CheckAgain => 3
    case TrySleepLate(_) => 2
    case Cancel => 2
    case Collect => 1
    case Asleep => 1
    case DestroyFrame => 1
    case _ => 0
  }

  /** The producer has woken the consumer, which has meanwhile asked for more or cancelled. */
  function Overtaken(s: State): nat {
    if !HasWoken(s.p) then 0
    else if s.shared.NotReadyConsumerSuspended? then 8
    else if s.shared.Cancelled? then 1
    else 0
  }

  function Rank(s: State): nat {
    ProducerWeight(s.p) + ConsumerWeight(s.c) + Overtaken(s)
  }

  predicate IsProtocol(l: Label) {
    l.ProducerStep? || l.ConsumerStep?
  }

  /** What the consumer's own calls add. */
  function CallPrice(l: Label): nat {
    if l.Advance? then 16 else if l.Drop? then 2 else 0
  }

  lemma ProducerDescends(s: State)
    requires Inv(s) && Enabled(s, ProducerStep) && !HasWoken(s.p)
    ensures Rank(Apply(s, ProducerStep)) + 1 <= Rank(s)
  {
  }

  lemma WokenDescends(s: State)
    requires Inv(s) && Enabled(s, ProducerStep) && HasWoken(s.p)
    ensures Rank(Apply(s, ProducerStep)) + 1 <= Rank(s)
  {
  }

  lemma ConsumerDescends(s: State)
    requires Inv(s) && Enabled(s, ConsumerStep)
    requires s.c.Load? || s.c.Start? || s.c.Push? || s.c.Check? || s.c.SetHandle?
    ensures Rank(Apply(s, ConsumerStep)) + 1 <= Rank(s)
  {
  }

  lemma SleeperDescends(s: State)
    requires Inv(s) && Enabled(s, ConsumerStep)
    requires s.c.TrySleep? || s.c.Restart? || s.c.PushAgain? || s.c.CheckAgain? || s.c.TrySleepLate?
    ensures Rank(Apply(s, ConsumerStep)) + 1 <= Rank(s)
  {
  }

  lemma EndDescends(s: State)
    requires Inv(s) && Enabled(s, ConsumerStep) && (s.c.Collect? || s.c.Cancel? || s.c.DestroyFrame?)
    ensures Rank(Apply(s, ConsumerStep)) + 1 <= Rank(s)
  {
  }

  /** Every step of the protocol lowers the rank; the producer's body does not raise it. */
  lemma StepDescends(s: State, l: Label)
    requires Inv(s) && Enabled(s, l)
    ensures Rank(Apply(s, l)) + (if IsProtocol(l) then 1 else 0) <= Rank(s) + CallPrice(l)
  {
    if l.ProducerStep? {
      if HasWoken(s.p) {
        WokenDescends(s);
      } else {
        ProducerDescends(s);
      }
    } else if l.ConsumerStep? {
      if s.c.Collect? || s.c.Cancel? || s.c.DestroyFrame? {
        EndDescends(s);
      } else if s.c.Load? || s.c.Start? || s.c.Push? || s.c.Check? || s.c.SetHandle? {
        ConsumerDescends(s);
      } else {
        SleeperDescends(s);
      }
    }
  }

  /** Steps of the protocol, of both sides, between two positions of a run. */
  function ProtocolSteps(ls: seq<Label>, i: nat, j: nat): nat
    requires i <= j <= |ls|
  {
    if i == j then 0 else ProtocolSteps(ls, i, j - 1) + if IsProtocol(ls[j - 1]) then 1 else 0
  }

  function Calls(ls: seq<Label>, i: nat, j: nat): nat
    requires i <= j <= |ls|
  {
    if i == j then 0 else Calls(ls, i, j - 1) + CallPrice(ls[j - 1])
  }

  lemma {:induction false} RunDescends(ss: seq<State>, ls: seq<Label>, i: nat, j: nat)
    requires IsRun(ss, ls) && i <= j <= |ls|
    ensures ProtocolSteps(ls, i, j) + Rank(ss[j]) <= Rank(ss[i]) + Calls(ls, i, j)
    decreases j
  {
    if i == j {
    } else {
      RunDescends(ss, ls, i, j - 1);
      RunInv(ss, ls, j - 1);
      StepDescends(ss[j - 1], ls[j - 1]);
    }
  }

  lemma DroppingStays(s: State, l: Label)
    requires Enabled(s, l) && Safe(s, l) && Dropping(s.c)
    ensures Dropping(Apply(s, l).c) && CallPrice(l) == 0
  {
  }

  lemma {:induction false} CallsOfRun(ss: seq<State>, ls: seq<Label>, n: nat)
    requires IsRun(ss, ls) && n <= |ls|
    ensures Calls(ls, 0, n) <= 16 * Advances(ls, n) + if Dropping(ss[n].c) then 2 else 0
  {
    if n == 0 {
    } else {
      var s, l := ss[n - 1], ls[n - 1];
      CallsOfRun(ss, ls, n - 1);
      AlwaysSafe(ss, ls);
      if Dropping(s.c) {
        DroppingStays(s, l);
      }
    }
  }

  /** Over a whole run: at most 16 steps of the protocol for every advance, and two for the destructor. */
  lemma ProtocolIsBounded(ss: seq<State>, ls: seq<Label>)
    requires IsRun(ss, ls)
    ensures ProtocolSteps(ls, 0, |ls|) <= 16 * Advances(ls, |ls|) + 2
  {
    RunDescends(ss, ls, 0, |ls|);
    CallsOfRun(ss, ls, |ls|);
  }

  lemma AdvanceRank(s: State)
    requires Inv(s) && Enabled(s, Advance)
    ensures Rank(Apply(s, Advance)) <= 18
  {
  }

  /** One advance, as long as the consumer makes no other call, takes at most 18 steps of the protocol of both sides. */
  lemma AdvanceIsBounded(ss: seq<State>, ls: seq<Label>, i: nat, j: nat)
    requires IsRun(ss, ls) && i < j <= |ls| && ls[i].Advance?
    requires forall k :: i < k < j ==> !ls[k].Advance? && !ls[k].Drop?
    ensures ProtocolSteps(ls, i + 1, j) <= 18
  {
    RunInv(ss, ls, i);
    AdvanceRank(ss[i]);
    RunDescends(ss, ls, i + 1, j);
    NoCalls(ls, i + 1, j);
  }

  /** When no step of the protocol is left and the producer's body is not running, the result has been collected. */
  lemma AdvanceCompletes(ss: seq<State>, ls: seq<Label>, i: nat, j: nat)
    requires IsRun(ss, ls) && i < j <= |ls| && ls[i].Advance?
    requires forall k :: i < k < j ==> !ls[k].Advance? && !ls[k].Drop?
    requires !Enabled(ss[j], ProducerStep) && !Enabled(ss[j], ConsumerStep) && !ss[j].p.Body?
    ensures ss[j].c.Active?
  {
    StillAdvancing(ss, ls, i, j);
    NeverBothAsleep(ss, ls, j);
  }

  lemma {:induction false} NoCalls(ls: seq<Label>, i: nat, j: nat)
    requires i <= j <= |ls| && forall k :: i <= k < j ==> !ls[k].Advance? && !ls[k].Drop?
    ensures Calls(ls, i, j) == 0
    decreases j
  {
    if i == j {
    } else {
      NoCalls(ls, i, j - 1);
    }
  }

  lemma {:induction false} StillAdvancing(ss: seq<State>, ls: seq<Label>, i: nat, j: nat)
    requires IsRun(ss, ls) && i < j <= |ls| && ls[i].Advance?
    requires forall k :: i < k < j ==> !ls[k].Advance? && !ls[k].Drop?
    ensures !Dropping(ss[j].c)
    decreases j
  {
    if j == i + 1 {
    } else {
      StillAdvancing(ss, ls, i, j - 1);
    }
  }
}
