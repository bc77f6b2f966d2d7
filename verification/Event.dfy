/**
 The retry loop that drives every asynchronous operation: register, wake up, try again, register again.

 Registrations, undelivered packets and the worker threads busy with a packet are counted separately, so that nothing
 in the model itself prevents two of them from existing for one operation.
 */
module Event {

  datatype Coroutine = Running | Suspending | Suspended

  datatype State = State(
    coroutine: Coroutine,
    armed: nat,         // registrations with the kernel
    queued: nat,        // packets posted but not picked up
    resuming: nat,      // threads about to call resume()
    rearming: nat)      // threads about to call suspend() again

  const INITIAL := State(Running, 0, 0, 0, 0)

  datatype Label =
    | Await(ready: bool)     // co_await, with the result of await_ready()
    | Suspend(ok: bool)      // suspend() called by await_suspend
    | Deliver                // the kernel uses up a one-shot registration
    | PickUp                 // a thread in context::run takes the packet
    | Resume(done: bool)     // resume() called by await_resume
    | Rearm(ok: bool)        // suspend() called by await_resume

  predicate Enabled(s: State, l: Label) {
    match l
    case Await(_) => s.coroutine.Running?
    case Suspend(_) => s.coroutine.Suspending?
    case Deliver => s.armed > 0
    case PickUp => s.queued > 0
    case Resume(_) => s.resuming > 0
    case Rearm(_) => s.rearming > 0
  }

  function Apply(s: State, l: Label): State
    requires Enabled(s, l)
  {
    match l
    case Await(ready) => if ready then s else s.(coroutine := Suspending)
    case Suspend(ok) =>
      if ok then s.(coroutine := Suspended, armed := s.armed + 1) else s.(coroutine := Running)
    case Deliver => s.(armed := s.armed - 1, queued := s.queued + 1)
    case PickUp => s.(queued := s.queued - 1, resuming := s.resuming + 1)
    case Resume(done) =>
      if done then s.(resuming := s.resuming - 1, coroutine := Running)
      else s.(resuming := s.resuming - 1, rearming := s.rearming + 1)
    case Rearm(ok) =>
      if ok then s.(rearming := s.rearming - 1, armed := s.armed + 1)
      else s.(rearming := s.rearming - 1, coroutine := Running)
  }

  /** The step lets the awaiting coroutine go on. */
  predicate Continues(l: Label) {
    match l
    case Await(ready) => ready
    case Suspend(ok) => !ok
    case Resume(done) => done
    case Rearm(ok) => !ok
    case _ => false
  }

  /** The step does so by resuming the suspended coroutine, not by returning to it. */
  predicate Resumes(l: Label) {
    (l.Resume? && l.done) || (l.Rearm? && !l.ok)
  }

  function Tokens(s: State): nat {
    s.armed + s.queued + s.resuming + s.rearming
  }

  predicate Inv(s: State) {
    Tokens(s) == if s.coroutine.Suspended? then 1 else 0
  }

  ghost predicate IsRun(ss: seq<State>, ls: seq<Label>) {
    && |ss| == |ls| + 1
    && ss[0] == INITIAL
    && forall i :: 0 <= i < |ls| ==> Enabled(ss[i], ls[i]) && ss[i + 1] == Apply(ss[i], ls[i])
  }

  function Awaits(ls: seq<Label>): nat {
    if ls == [] then 0 else Awaits(ls[..|ls| - 1]) + if ls[|ls| - 1].Await? then 1 else 0
  }

  function Continuations(ls: seq<Label>): nat {
    if ls == [] then 0 else Continuations(ls[..|ls| - 1]) + if Continues(ls[|ls| - 1]) then 1 else 0
  }

  lemma StepKeepsInv(s: State, l: Label)
    requires Inv(s) && Enabled(s, l)
    ensures Inv(Apply(s, l)) && (Resumes(l) ==> s.coroutine.Suspended?)
    ensures (if s.coroutine.Running? then 0 else 1) + (if l.Await? then 1 else 0)
         == (if Apply(s, l).coroutine.Running? then 0 else 1) + (if Continues(l) then 1 else 0)
  {
  }

  /**
   Over any number of wake-ups: while the coroutine is suspended there is exactly one registration, packet or busy
   thread for it and otherwise none; only a suspended coroutine is resumed; and every await lets it go on exactly once.
   */
  lemma {:induction false} OneWakeUpPerAwait(ss: seq<State>, ls: seq<Label>, n: nat)
    requires IsRun(ss, ls) && n <= |ls|
    ensures Tokens(ss[n]) == if ss[n].coroutine.Suspended? then 1 else 0
    ensures n < |ls| && Resumes(ls[n]) ==> ss[n].coroutine.Suspended?
    ensures Awaits(ls[..n]) == Continuations(ls[..n]) + if ss[n].coroutine.Running? then 0 else 1
  {
    if n == 0 {
    } else {
      OneWakeUpPerAwait(ss, ls, n - 1);
      StepKeepsInv(ss[n - 1], ls[n - 1]);
      assert ls[..n][..n - 1] == ls[..n - 1];
    }
    if n < |ls| {
      StepKeepsInv(ss[n], ls[n]);
    }
  }

  /** Registrations made, by either call of `suspend`. */
  function Registrations(ls: seq<Label>): nat {
    if ls == [] then 0
    else Registrations(ls[..|ls| - 1]) + if ls[|ls| - 1] == Suspend(true) || ls[|ls| - 1] == Rearm(true) then 1 else 0
  }

  function Deliveries(ls: seq<Label>): nat {
    if ls == [] then 0 else Deliveries(ls[..|ls| - 1]) + if ls[|ls| - 1].Deliver? then 1 else 0
  }

  function PickUps(ls: seq<Label>): nat {
    if ls == [] then 0 else PickUps(ls[..|ls| - 1]) + if ls[|ls| - 1].PickUp? then 1 else 0
  }

  function Attempts(ls: seq<Label>): nat {
    if ls == [] then 0 else Attempts(ls[..|ls| - 1]) + if ls[|ls| - 1].Resume? then 1 else 0
  }

  function FailedAttempts(ls: seq<Label>): nat {
    if ls == [] then 0 else FailedAttempts(ls[..|ls| - 1]) + if ls[|ls| - 1] == Resume(false) then 1 else 0
  }

  function Rearms(ls: seq<Label>): nat {
    if ls == [] then 0 else Rearms(ls[..|ls| - 1]) + if ls[|ls| - 1].Rearm? then 1 else 0
  }

  /**
   Every registration is delivered once or outstanding, every delivery picked up once or queued, every packet picked up
   leads to one attempt, and every attempt that is not done to one more call of `suspend`.
   */
  lemma {:induction false} WakeUpsAreConserved(ss: seq<State>, ls: seq<Label>, n: nat)
    requires IsRun(ss, ls) && n <= |ls|
    ensures ss[n].armed + Deliveries(ls[..n]) == Registrations(ls[..n])
    ensures ss[n].queued + PickUps(ls[..n]) == Deliveries(ls[..n])
    ensures ss[n].resuming + Attempts(ls[..n]) == PickUps(ls[..n])
    ensures ss[n].rearming + Rearms(ls[..n]) == FailedAttempts(ls[..n])
  {
    if n == 0 {
    } else {
      WakeUpsAreConserved(ss, ls, n - 1);
      assert ls[..n][..n - 1] == ls[..n - 1];
    }
  }

  /** A suspended coroutine is never forgotten: some step towards its wake-up can be taken. */
  lemma SuspendedIsDriven(ss: seq<State>, ls: seq<Label>, n: nat)
    requires IsRun(ss, ls) && n <= |ls| && ss[n].coroutine.Suspended?
    ensures Enabled(ss[n], Deliver) || Enabled(ss[n], PickUp)
         || Enabled(ss[n], Resume(true)) || Enabled(ss[n], Rearm(true))
  {
    OneWakeUpPerAwait(ss, ls, n);
  }
}
