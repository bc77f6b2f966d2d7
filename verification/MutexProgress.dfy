/** A measure that every step of the mutex lowers, and with it a bound on the runs of any number of coroutines. */
module MutexProgress {
  import opened Sequences
  import opened Mutex
  import MR = MutexRuns

  predicate Entering(p: Pc) {
    p.SetAwaiter? || p.Load? || p.Check? || p.Push?
  }

  /**
   Own steps that a coroutine may still need, the reversal loop aside. A write of the lock word that it has still to
   make counts for the expectations of up to `k` entering coroutines, its own included, that the write makes outdated.
   */
  function PcWeight(p: Pc, k: nat): nat {
    match p
    case Idle => 0
    case SetAwaiter => 11 + 4 * k
    case Load => 10 + 4 * k
    case Check(_) => 9 + 4 * k
    case Push(_) => 8 + 4 * k
    case Waiting => 7 + 2 * k
    case Holding => 7 + 2 * k
    case UAssert => 6 + 2 * k
    case UReadWaiters => 5 + 2 * k
    case UCas => 4 + 2 * k
    case UExchange => 3 + 2 * k
    case URead(_, _) => 2
    case UWrite(_, _, _) => 2
    case UPop(_) => 2
    case UResume(_) => 1
  }

  /** A compare-exchange that expects another word than there is costs a retry. */
  function StaleAt(p: Pc, word: nat): nat {
    if (p.Check? || p.Push?) && p.seen != word then 2 else 0
  }

  function WeightAt(pc: map<nat, Pc>, word: nat, k: nat, c: nat): nat {
    if c in pc then PcWeight(pc[c], k) + StaleAt(pc[c], word) else 0
  }

  /** The weights of the coroutines at the `n` addresses from 2 on. */
  function Weights(pc: map<nat, Pc>, word: nat, k: nat, n: nat): (r: seq<nat>)
    ensures |r| == n && forall i :: 0 <= i < n ==> r[i] == WeightAt(pc, word, k, i + 2)
  {
    seq(n, i requires 0 <= i < n => WeightAt(pc, word, k, i + 2))
  }

  function PcSum(pc: map<nat, Pc>, word: nat, k: nat, n: nat): nat {
    Sum(Weights(pc, word, k, n))
  }

  lemma PcSumUpdate(pc: map<nat, Pc>, word: nat, k: nat, n: nat, c: nat, p: Pc)
    requires 2 <= c < n + 2
    ensures PcSum(pc[c := p], word, k, n) + WeightAt(pc, word, k, c)
         == PcSum(pc, word, k, n) + PcWeight(p, k) + StaleAt(p, word)
  {
    var x := PcWeight(p, k) + StaleAt(p, word);
    assert Weights(pc[c := p], word, k, n) == Weights(pc, word, k, n)[c - 2 := x];
    SumUpdate(Weights(pc, word, k, n), c - 2, x);
  }

  lemma PcSumGrows(pc: map<nat, Pc>, word: nat, k: nat, n: nat)
    ensures PcSum(pc, word, k, n + 1) == PcSum(pc, word, k, n) + WeightAt(pc, word, k, n + 2)
  {
    assert Weights(pc, word, k, n + 1)[..n] == Weights(pc, word, k, n);
  }

  lemma PcSumAgrees(pc: map<nat, Pc>, qc: map<nat, Pc>, word: nat, k: nat, n: nat)
    requires forall c :: 2 <= c < n + 2 ==> WeightAt(pc, word, k, c) == WeightAt(qc, word, k, c)
    ensures PcSum(pc, word, k, n) == PcSum(qc, word, k, n)
  {
    assert Weights(pc, word, k, n) == Weights(qc, word, k, n);
  }

  /** The coroutines below address `n + 2` that are entering the mutex. */
  ghost function Entrants(pc: map<nat, Pc>, n: nat): set<nat> {
    set c | c in pc && 2 <= c < n + 2 && Entering(pc[c])
  }

  lemma EntrantsGrow(pc: map<nat, Pc>, n: nat)
    ensures |Entrants(pc, n + 1)| == |Entrants(pc, n)| + if n + 2 in pc && Entering(pc[n + 2]) then 1 else 0
  {
    if n + 2 in pc && Entering(pc[n + 2]) {
      assert Entrants(pc, n + 1) == Entrants(pc, n) + {n + 2};
    } else {
      assert Entrants(pc, n + 1) == Entrants(pc, n);
    }
  }

  /** Writing the lock word makes at most the expectations of the entering coroutines outdated. */
  lemma {:induction false} WordChanges(pc: map<nat, Pc>, word: nat, new_word: nat, k: nat, n: nat)
    ensures PcSum(pc, new_word, k, n) <= PcSum(pc, word, k, n) + 2 * |Entrants(pc, n)|
  {
    if n == 0 {
    } else {
      WordChanges(pc, word, new_word, k, n - 1);
      PcSumGrows(pc, word, k, n - 1);
      PcSumGrows(pc, new_word, k, n - 1);
      EntrantsGrow(pc, n - 1);
    }
  }

  function RunnerPc(s: State, v: View): Pc {
    if v.runner in s.pc then s.pc[v.runner] else Idle
  }

  /** Steps that the coroutines below address `n + 2` can still take, with at most `k` of them entering at a time. */
  ghost function Weight(s: State, k: nat, n: nat, v: View): nat {
    PcSum(s.pc, s.word, k, n) + 2 * |v.stack| + MR.Left(RunnerPc(s, v), v)
  }

  /** What a spurious failure of a compare-exchange may cost. */
  function Price(spurious: bool): nat {
    if spurious then 2 else 0
  }

  /** A coroutine moves, and perhaps writes the lock word. */
  lemma MoveWeighs(s: State, t: State, k: nat, n: nat, c: nat)
    requires 2 <= c < n + 2 && c in s.pc && c in t.pc && t.pc == s.pc[c := t.pc[c]]
    ensures PcSum(t.pc, t.word, k, n) + WeightAt(s.pc, s.word, k, c)
         <= PcSum(s.pc, s.word, k, n) + PcWeight(t.pc[c], k) + StaleAt(t.pc[c], s.word)
            + if t.word == s.word then 0 else 2 * |Entrants(t.pc, n)|
  {
    PcSumUpdate(s.pc, s.word, k, n, c, t.pc[c]);
    if t.word != s.word {
      WordChanges(t.pc, s.word, t.word, k, n);
    }
  }

  /** One step of `await_suspend`, for the coroutine that takes it; a success counts for the other entrants. */
  lemma EnteringStep(s: State, c: nat, spurious: bool, k: nat)
    requires Enabled(s, Step(c, spurious)) && Entering(s.pc[c]) && k > 0
    ensures var t := ApplyStep(s, c, spurious);
      && c in t.pc && t.pc == s.pc[c := t.pc[c]] && (t.word != s.word ==> !Entering(t.pc[c]))
      && PcWeight(t.pc[c], k) + StaleAt(t.pc[c], s.word) + 1
           + (if EventOf(s, Step(c, spurious)).Enqueue? then 2 else 0) + (if t.word == s.word then 0 else 2 * (k - 1))
           <= PcWeight(s.pc[c], k) + StaleAt(s.pc[c], s.word) + Price(spurious)
  {
  }

  /** A step of `await_suspend` touches neither the owner nor what it is reversing. */
  lemma EnteringView(s: State, c: nat, spurious: bool, v: View)
    requires Inv(s, v) && Enabled(s, Step(c, spurious)) && Entering(s.pc[c])
    ensures var t, w := ApplyStep(s, c, spurious), NextView(s, Step(c, spurious), v);
      && MR.Left(RunnerPc(t, w), w) == MR.Left(RunnerPc(s, v), v)
      && |w.stack| == |v.stack| + if EventOf(s, Step(c, spurious)).Enqueue? then 1 else 0
  {
  }

  /** A coroutine that has left `await_suspend` is no longer among the entrants; the others still are. */
  lemma EntrantsAfter(s: State, t: State, c: nat, n: nat)
    requires c in s.pc && c in t.pc && t.pc == s.pc[c := t.pc[c]] && !Entering(t.pc[c]) && 2 <= c < n + 2
    ensures |Entrants(t.pc, n)| + (if Entering(s.pc[c]) then 1 else 0) == |Entrants(s.pc, n)|
  {
    if Entering(s.pc[c]) {
      assert Entrants(s.pc, n) == Entrants(t.pc, n) + {c};
    } else {
      assert Entrants(s.pc, n) == Entrants(t.pc, n);
    }
  }

  lemma SomeEntrant(s: State, c: nat, n: nat)
    requires c in s.pc && Entering(s.pc[c]) && 2 <= c < n + 2
    ensures |Entrants(s.pc, n)| > 0
  {
    assert c in Entrants(s.pc, n);
  }

  lemma EnteringDescends(s: State, c: nat, spurious: bool, k: nat, n: nat, v: View)
    requires Inv(s, v) && Enabled(s, Step(c, spurious)) && Entering(s.pc[c]) && 2 <= c < n + 2
    requires |Entrants(s.pc, n)| <= k
    ensures Weight(ApplyStep(s, c, spurious), k, n, NextView(s, Step(c, spurious), v)) + 1
         <= Weight(s, k, n, v) + Price(spurious)
  {
    var t := ApplyStep(s, c, spurious);
    SomeEntrant(s, c, n);
    EnteringStep(s, c, spurious, k);
    EnteringView(s, c, spurious, v);
    MoveWeighs(s, t, k, n, c);
    if t.word != s.word {
      EntrantsAfter(s, t, c, n);
    }
  }

  /** One step of the owner inside `unlock`, the reversal aside. */
  lemma OwnerView(s: State, c: nat, spurious: bool, v: View)
    requires Inv(s, v) && Enabled(s, Step(c, spurious)) && Owns(s.pc[c]) && !MR.Reversing(s.pc[c])
    ensures c == v.runner && MR.Left(RunnerPc(s, v), v) == 0
    ensures var t, w := ApplyStep(s, c, spurious), NextView(s, Step(c, spurious), v);
      MR.Left(RunnerPc(t, w), w) + 2 * |w.stack| <= 2 * |v.stack|
  {
  }

  lemma OwnerPc(s: State, c: nat, spurious: bool, k: nat)
    requires Enabled(s, Step(c, spurious)) && Owns(s.pc[c]) && !s.pc[c].UResume? && !MR.Reversing(s.pc[c])
    ensures var t := ApplyStep(s, c, spurious);
      && c in t.pc && t.pc == s.pc[c := t.pc[c]] && !Entering(t.pc[c])
      && PcWeight(t.pc[c], k) + 1 + (if t.word == s.word then 0 else 2 * k) <= PcWeight(s.pc[c], k)
  {
  }

  lemma OwnerDescends(s: State, c: nat, spurious: bool, k: nat, n: nat, v: View)
    requires Inv(s, v) && Enabled(s, Step(c, spurious)) && Owns(s.pc[c])
    requires !s.pc[c].UResume? && !MR.Reversing(s.pc[c]) && 2 <= c < n + 2 && |Entrants(s.pc, n)| <= k
    ensures Weight(ApplyStep(s, c, spurious), k, n, NextView(s, Step(c, spurious), v)) + 1 <= Weight(s, k, n, v)
  {
    var t := ApplyStep(s, c, spurious);
    OwnerView(s, c, spurious, v);
    OwnerPc(s, c, spurious, k);
    MoveWeighs(s, t, k, n, c);
    EntrantsAfter(s, t, c, n);
  }

  lemma ReversalPc(s: State, c: nat, spurious: bool, k: nat)
    requires Enabled(s, Step(c, spurious)) && MR.Reversing(s.pc[c])
    ensures var t := ApplyStep(s, c, spurious);
      && c in t.pc && t.pc == s.pc[c := t.pc[c]] && t.word == s.word
      && PcWeight(t.pc[c], k) == PcWeight(s.pc[c], k) && StaleAt(t.pc[c], s.word) == 0
  {
  }

  lemma ReversalDescends(s: State, c: nat, spurious: bool, k: nat, n: nat, v: View)
    requires Inv(s, v) && Enabled(s, Step(c, spurious)) && MR.Reversing(s.pc[c]) && 2 <= c < n + 2
    ensures Weight(ApplyStep(s, c, spurious), k, n, NextView(s, Step(c, spurious), v)) + 1 <= Weight(s, k, n, v)
  {
    MR.ReversalStep(s, v, Step(c, spurious));
    MR.ReversalFrame(s, v, Step(c, spurious));
    ReversalPc(s, c, spurious, k);
    MoveWeighs(s, ApplyStep(s, c, spurious), k, n, c);
  }

  lemma ResumePc(s: State, c: nat, k: nat, n: nat)
    requires c in s.pc && s.pc[c].UResume? && 2 <= c < n + 2 && 2 <= s.pc[c].head < n + 2 && s.pc[c].head != c
    requires s.pc[c].head in s.pc && s.pc[s.pc[c].head].Waiting?
    ensures PcSum(AfterResume(s, c).pc, s.word, k, n) + 1 == PcSum(s.pc, s.word, k, n)
  {
    PcSumUpdate(s.pc, s.word, k, n, c, Idle);
    PcSumUpdate(s.pc[c := Idle], s.word, k, n, s.pc[c].head, Holding);
  }

  lemma ResumeDescends(s: State, c: nat, spurious: bool, k: nat, n: nat, v: View)
    requires Inv(s, v) && Enabled(s, Step(c, spurious)) && s.pc[c].UResume?
    requires 2 <= c < n + 2 && 2 <= s.pc[c].head < n + 2
    ensures Weight(ApplyStep(s, c, spurious), k, n, NextView(s, Step(c, spurious), v)) + 1 <= Weight(s, k, n, v)
  {
    ResumeThreads(s, c, v);
    ResumePc(s, c, k, n);
    OwnerView(s, c, spurious, v);
  }

  /** With at most `k` coroutines entering, every step of `await_suspend` and `unlock` lowers the measure. */
  lemma StepDescends(s: State, c: nat, spurious: bool, k: nat, n: nat, v: View)
    requires Inv(s, v) && Enabled(s, Step(c, spurious)) && |Entrants(s.pc, n)| <= k
    requires forall d :: d in s.pc ==> d < n + 2
    ensures Weight(Apply(s, Step(c, spurious)), k, n, NextView(s, Step(c, spurious), v)) + 1
         <= Weight(s, k, n, v) + Price(spurious)
  {
    assert 2 <= c < n + 2;
    if Entering(s.pc[c]) {
      EnteringDescends(s, c, spurious, k, n, v);
    } else if MR.Reversing(s.pc[c]) {
      ReversalDescends(s, c, spurious, k, n, v);
    } else if s.pc[c].UResume? {
      ResumeThreads(s, c, v);
      assert s.pc[c].head in s.pc;
      ResumeDescends(s, c, spurious, k, n, v);
    } else {
      OwnerDescends(s, c, spurious, k, n, v);
    }
  }

  // ---------------------------------------------------------------------------------------------
  // The measure of a consistent state.

  ghost predicate Weighs(s: State, k: nat, n: nat, w: nat) {
    exists v :: Inv(s, v) && w == Weight(s, k, n, v)
  }

  lemma StepWeighs(s: State, c: nat, spurious: bool, k: nat, n: nat, w: nat) returns (x: nat)
    requires Enabled(s, Step(c, spurious)) && |Entrants(s.pc, n)| <= k && (forall d :: d in s.pc ==> d < n + 2)
    requires Weighs(s, k, n, w)
    ensures Weighs(Apply(s, Step(c, spurious)), k, n, x) && x + 1 <= w + Price(spurious)
  {
    var v :| Inv(s, v) && w == Weight(s, k, n, v);
    StepKeepsInv(s, Step(c, spurious), v);
    StepDescends(s, c, spurious, k, n, v);
    x := Weight(Apply(s, Step(c, spurious)), k, n, NextView(s, Step(c, spurious), v));
  }

  lemma QuietView(s: State, l: Label, v: View)
    requires Inv(s, v) && Enabled(s, l) && (l.LockAsync? || l.Unlock? || l.Create?)
    ensures NextView(s, l, v) == v && MR.Left(RunnerPc(Apply(s, l), v), v) == MR.Left(RunnerPc(s, v), v)
  {
  }

  /** What beginning to take the lock, or to give it up, adds. */
  function EntryPrice(l: Label, k: nat): nat {
    if l.LockAsync? then 11 + 4 * k else 0
  }

  lemma EntryPc(s: State, l: Label, k: nat, n: nat)
    requires Enabled(s, l) && (l.LockAsync? || l.Unlock?) && 2 <= l.c < n + 2
    ensures var x := PcSum(Apply(s, l).pc, Apply(s, l).word, k, n);
      if l.Unlock? then x + 1 == PcSum(s.pc, s.word, k, n) else x == PcSum(s.pc, s.word, k, n) + EntryPrice(l, k)
  {
    PcSumUpdate(s.pc, s.word, k, n, l.c, if l.Unlock? then UAssert else SetAwaiter);
  }

  /** Beginning to take the lock, or to give it up. */
  lemma EntryWeighs(s: State, l: Label, k: nat, n: nat, w: nat) returns (x: nat)
    requires Enabled(s, l) && (l.LockAsync? || l.Unlock?) && 2 <= l.c < n + 2 && Weighs(s, k, n, w)
    ensures Weighs(Apply(s, l), k, n, x) && if l.Unlock? then x + 1 <= w else x <= w + EntryPrice(l, k)
  {
    var v :| Inv(s, v) && w == Weight(s, k, n, v);
    StepKeepsInv(s, l, v);
    QuietView(s, l, v);
    EntryPc(s, l, k, n);
    x := Weight(Apply(s, l), k, n, v);
  }

  lemma CreatePc(s: State, l: Label, k: nat, n: nat)
    requires Enabled(s, l) && l.Create?
    ensures PcSum(Apply(s, l).pc, s.word, k, n) == PcSum(s.pc, s.word, k, n)
  {
    PcSumAgrees(Apply(s, l).pc, s.pc, s.word, k, n);
  }

  lemma CreateWeighs(s: State, l: Label, k: nat, n: nat, w: nat) returns (x: nat)
    requires Enabled(s, l) && l.Create? && Weighs(s, k, n, w)
    ensures Weighs(Apply(s, l), k, n, x) && x <= w
  {
    var v :| Inv(s, v) && w == Weight(s, k, n, v);
    StepKeepsInv(s, l, v);
    QuietView(s, l, v);
    CreatePc(s, l, k, n);
    x := Weight(Apply(s, l), k, n, v);
  }

  /** One more address, with a coroutine that is outside the mutex. */
  lemma WiderWeighs(s: State, k: nat, n: nat, w: nat)
    requires Weighs(s, k, n, w) && (n + 2 in s.pc ==> s.pc[n + 2].Idle?)
    ensures Weighs(s, k, n + 1, w)
  {
    var v :| Inv(s, v) && w == Weight(s, k, n, v);
    PcSumGrows(s.pc, s.word, k, n);
    assert w == Weight(s, k, n + 1, v);
  }

  lemma TryLockView(s: State, l: Label, v: View)
    requires Inv(s, v) && Enabled(s, l) && l.TryLock?
    ensures var t, w := Apply(s, l), NextView(s, l, v);
      2 * |w.stack| + MR.Left(RunnerPc(t, w), w) == 2 * |v.stack| + MR.Left(RunnerPc(s, v), v)
  {
  }

  lemma TryLockPc(s: State, l: Label, k: nat, n: nat)
    requires Enabled(s, l) && l.TryLock? && 2 <= l.c < n + 2 && |Entrants(s.pc, n)| <= k
    ensures PcSum(Apply(s, l).pc, Apply(s, l).word, k, n) <= PcSum(s.pc, s.word, k, n) + 7 + 4 * k
  {
    var t := Apply(s, l);
    if s.word == NOT_LOCKED {
      MoveWeighs(s, t, k, n, l.c);
      EntrantsAfter(s, t, l.c, n);
    }
  }

  lemma TryLockWeighs(s: State, l: Label, k: nat, n: nat, w: nat) returns (x: nat)
    requires Enabled(s, l) && l.TryLock? && 2 <= l.c < n + 2 && |Entrants(s.pc, n)| <= k && Weighs(s, k, n, w)
    ensures Weighs(Apply(s, l), k, n, x) && x <= w + 7 + 4 * k
  {
    var v :| Inv(s, v) && w == Weight(s, k, n, v);
    StepKeepsInv(s, l, v);
    TryLockView(s, l, v);
    TryLockPc(s, l, k, n);
    x := Weight(Apply(s, l), k, n, NextView(s, l, v));
  }

  // ---------------------------------------------------------------------------------------------
  // Every run is finite, for any number of coroutines.

  /** What a call or a spurious failure pays for. */
  function LabelPrice(l: Label, k: nat): nat {
    match l
    case Create(_, _) => 1
    case TryLock(_) => 8 + 4 * k
    case LockAsync(_, _) => 12 + 4 * k
    case Unlock(_) => 0
    case Step(_, spurious) => Price(spurious)
  }

  lemma LabelWeighs(s: State, l: Label, k: nat, n: nat, w: nat) returns (x: nat)
    requires Enabled(s, l) && l.c < n + 2 && |Entrants(s.pc, n)| <= k && (forall c :: c in s.pc ==> 2 <= c < n + 2)
    requires Weighs(s, k, n, w)
    ensures Weighs(Apply(s, l), k, n, x) && x + 1 <= w + LabelPrice(l, k)
  {
    match l {
      case Create(_, _) => x := CreateWeighs(s, l, k, n, w);
      case TryLock(_) => x := TryLockWeighs(s, l, k, n, w);
      case LockAsync(_, _) => x := EntryWeighs(s, l, k, n, w);
      case Unlock(_) => x := EntryWeighs(s, l, k, n, w);
      case Step(c, spurious) => x := StepWeighs(s, c, spurious, k, n, w);
    }
  }

  function Creates(ls: seq<Label>, m: nat): nat
    requires m <= |ls|
  {
    if m == 0 then 0 else Creates(ls, m - 1) + if ls[m - 1].Create? then 1 else 0
  }

  function TryLocks(ls: seq<Label>, m: nat): nat
    requires m <= |ls|
  {
    if m == 0 then 0 else TryLocks(ls, m - 1) + if ls[m - 1].TryLock? then 1 else 0
  }

  function LockAsyncs(ls: seq<Label>, m: nat): nat
    requires m <= |ls|
  {
    if m == 0 then 0 else LockAsyncs(ls, m - 1) + if ls[m - 1].LockAsync? then 1 else 0
  }

  function Spurious(ls: seq<Label>, m: nat): nat
    requires m <= |ls|
  {
    if m == 0 then 0 else Spurious(ls, m - 1) + if ls[m - 1].Step? && ls[m - 1].spurious then 1 else 0
  }

  function Budget(ls: seq<Label>, k: nat, m: nat): nat
    requires m <= |ls|
  {
    if m == 0 then 0 else Budget(ls, k, m - 1) + LabelPrice(ls[m - 1], k)
  }

  lemma {:induction false} BudgetIs(ls: seq<Label>, k: nat, m: nat)
    requires m <= |ls|
    ensures Budget(ls, k, m)
         == Creates(ls, m) + (8 + 4 * k) * TryLocks(ls, m) + (12 + 4 * k) * LockAsyncs(ls, m) + 2 * Spurious(ls, m)
  {
    if m == 0 {
    } else {
      BudgetIs(ls, k, m - 1);
      var t, a := TryLocks(ls, m - 1), LockAsyncs(ls, m - 1);
      assert (8 + 4 * k) * (t + 1) == (8 + 4 * k) * t + (8 + 4 * k);
      assert (12 + 4 * k) * (a + 1) == (12 + 4 * k) * a + (12 + 4 * k);
    }
  }

  /** An address beyond all coroutines of a run. */
  function Beyond(ls: seq<Label>): (n: nat)
    ensures forall i :: 0 <= i < |ls| ==> ls[i].c < n + 2
  {
    if ls == [] then 0
    else
      var n := Beyond(ls[..|ls| - 1]);
      if n < ls[|ls| - 1].c then ls[|ls| - 1].c else n
  }

  /** Coroutines come, and none goes. */
  lemma StepKeys(s: State, l: Label)
    requires Enabled(s, l) && Safe(s, l)
    ensures Apply(s, l).pc.Keys == s.pc.Keys + if l.Create? then {l.c} else {}
    ensures l.Create? ==> l.c >= 2 && l.c !in s.pc
  {
  }

  lemma RunKeys(ss: seq<State>, ls: seq<Label>, m: nat)
    requires IsRun(ss, ls) && 0 < m <= |ls|
    ensures ss[m].pc.Keys == ss[m - 1].pc.Keys + if ls[m - 1].Create? then {ls[m - 1].c} else {}
    ensures ls[m - 1].Create? ==> ls[m - 1].c >= 2 && ls[m - 1].c !in ss[m - 1].pc.Keys
  {
    RunConsistent(ss, ls, m - 1);
    StepAbstract(ss[m - 1], ls[m - 1]);
    StepKeys(ss[m - 1], ls[m - 1]);
  }

  /** The addresses of all coroutines are below `n + 2`. */
  ghost predicate Below(s: State, n: nat) {
    forall c :: c in s.pc.Keys ==> 2 <= c < n + 2
  }

  lemma {:induction false} Addresses(ss: seq<State>, ls: seq<Label>, n: nat, m: nat)
    requires IsRun(ss, ls) && m <= |ls| && forall i :: 0 <= i < |ls| ==> ls[i].c < n + 2
    ensures Below(ss[m], n)
    decreases m
  {
    if m == 0 {
    } else {
      Addresses(ss, ls, n, m - 1);
      RunKeys(ss, ls, m);
    }
  }

  ghost function AllEntrants(s: State): set<nat> {
    set c | c in s.pc && Entering(s.pc[c])
  }

  /** At most `k` coroutines are entering the mutex in this state. */
  ghost predicate Contention(s: State, k: nat) {
    |AllEntrants(s)| <= k
  }

  lemma ContentionCounts(s: State, k: nat, n: nat)
    requires Contention(s, k) && Below(s, n)
    ensures |Entrants(s.pc, n)| <= k
  {
    assert Entrants(s.pc, n) == AllEntrants(s);
  }

  lemma InitWeighs(s: State, k: nat, n: nat)
    requires Init(s)
    ensures Weighs(s, k, n, 0)
  {
    var v := View(NULL, [], [], []);
    EmptySum(s.word, k, n);
    assert Inv(s, v) && Weight(s, k, n, v) == 0;
  }

  lemma {:induction false} EmptySum(word: nat, k: nat, n: nat)
    ensures PcSum(map[], word, k, n) == 0
  {
    if n == 0 {
    } else {
      EmptySum(word, k, n - 1);
      PcSumGrows(map[], word, k, n - 1);
    }
  }

  lemma RunStep(s: State, l: Label, k: nat, n: nat, w: nat) returns (x: nat)
    requires Enabled(s, l) && l.c < n + 2 && Contention(s, k)
    requires Below(s, n) && Weighs(s, k, n, w)
    ensures Weighs(Apply(s, l), k, n, x) && x + 1 <= w + LabelPrice(l, k)
  {
    ContentionCounts(s, k, n);
    x := LabelWeighs(s, l, k, n, w);
  }

  lemma RunStepAt(ss: seq<State>, ls: seq<Label>, k: nat, n: nat, m: nat, w: nat) returns (x: nat)
    requires IsRun(ss, ls) && 0 < m <= |ls| && Contention(ss[m - 1], k) && Weighs(ss[m - 1], k, n, w)
    requires forall i :: 0 <= i < |ls| ==> ls[i].c < n + 2
    ensures Weighs(ss[m], k, n, x) && x + 1 <= w + LabelPrice(ls[m - 1], k)
  {
    Addresses(ss, ls, n, m - 1);
    x := RunStep(ss[m - 1], ls[m - 1], k, n, w);
  }

  lemma {:induction false} RunDescends(ss: seq<State>, ls: seq<Label>, k: nat, n: nat, m: nat) returns (w: nat)
    requires IsRun(ss, ls) && m <= |ls|
    requires forall i :: 0 <= i < |ls| ==> Contention(ss[i], k) && ls[i].c < n + 2
    ensures Weighs(ss[m], k, n, w) && w + m <= Budget(ls, k, m)
    decreases m
  {
    if m == 0 {
      InitWeighs(ss[0], k, n);
      w := 0;
    } else {
      w := RunDescends(ss, ls, k, n, m - 1);
      w := RunStepAt(ss, ls, k, n, m, w);
    }
  }

  /**
   The mutex is lock-free: with at most `k` coroutines entering at a time, a run has at most this many steps, so all
   retries of all compare-exchanges together are bounded by the calls made and by the spurious failures.
   */
  lemma RunIsBounded(ss: seq<State>, ls: seq<Label>, k: nat)
    requires IsRun(ss, ls) && forall i :: 0 <= i < |ls| ==> Contention(ss[i], k)
    ensures var m := |ls|;
      m <= Creates(ls, m) + (8 + 4 * k) * TryLocks(ls, m) + (12 + 4 * k) * LockAsyncs(ls, m) + 2 * Spurious(ls, m)
  {
    var w := RunDescends(ss, ls, k, Beyond(ls), |ls|);
    BudgetIs(ls, k, |ls|);
  }

  lemma {:induction false} CoroutinesCreated(ss: seq<State>, ls: seq<Label>, m: nat)
    requires IsRun(ss, ls) && m <= |ls|
    ensures |ss[m].pc.Keys| == Creates(ls, m)
    decreases m
  {
    if m == 0 {
    } else {
      CoroutinesCreated(ss, ls, m - 1);
      RunKeys(ss, ls, m);
    }
  }

  lemma {:induction false} CreatesMonotone(ls: seq<Label>, i: nat, m: nat)
    requires i <= m <= |ls|
    ensures Creates(ls, i) <= Creates(ls, m)
    decreases m
  {
    if i == m {
    } else {
      CreatesMonotone(ls, i, m - 1);
    }
  }

  lemma SubsetCount(a: set<nat>, b: set<nat>)
    requires a <= b
    ensures |a| <= |b|
  {
    assert |b| == |a| + |b - a| by {
      assert a + (b - a) == b;
    }
  }

  /** The contention is never more than the number of coroutines. */
  lemma ContentionOfRun(ss: seq<State>, ls: seq<Label>, i: nat)
    requires IsRun(ss, ls) && i <= |ls|
    ensures Contention(ss[i], Creates(ls, |ls|))
  {
    CoroutinesCreated(ss, ls, i);
    CreatesMonotone(ls, i, |ls|);
    SubsetCount(AllEntrants(ss[i]), ss[i].pc.Keys);
  }

  /** Without any condition on the run: the number of coroutines bounds the contention. */
  lemma EveryRunIsBounded(ss: seq<State>, ls: seq<Label>)
    requires IsRun(ss, ls)
    ensures var m, k := |ls|, Creates(ls, |ls|);
      m <= k + (8 + 4 * k) * TryLocks(ls, m) + (12 + 4 * k) * LockAsyncs(ls, m) + 2 * Spurious(ls, m)
  {
    forall i | 0 <= i < |ls| ensures Contention(ss[i], Creates(ls, |ls|)) {
      ContentionOfRun(ss, ls, i);
    }
    RunIsBounded(ss, ls, Creates(ls, |ls|));
  }
}
