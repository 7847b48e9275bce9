/** The waiting counter shared by all submitters and the worker, as a state machine
    over their atomic steps. */
module Admission {

  type Thread = nat

  /** Where a submitting thread stands. `Loaded` holds the value it read; `Refused` is
      the fallback of the infallible entry point; `Admitted` has counted itself and not
      yet sent its job. */
  datatype Where = Outside | Entered(tries: bool) | Loaded(tries: bool, cur: int) | Refused | Admitted

  /** `queued` jobs are in the channel; `received` while the worker has taken one and
      not yet counted it down; `overflows` counts the unchecked increments. */
  datatype State = State(limit: nat, waiting: int, queued: nat, received: bool, threads: map<Thread, Where>,
      overflows: nat)

  datatype Step =
    | Enter(t: Thread, tries: bool)
    | Load(t: Thread)
    | TurnAway(t: Thread)
    | Swap(t: Thread)
    | SwapLost(t: Thread)
    | AddUnchecked(t: Thread)
    | Send(t: Thread)
    | Receive
    | CountDown

  function At(s: State, t: Thread): Where {
    if t in s.threads then s.threads[t] else Outside
  }

  function Put(s: State, t: Thread, w: Where): State {
    s.(threads := s.threads[t := w])
  }

  ghost predicate Enabled(s: State, step: Step) {
    match step
    case Enter(t, _) => At(s, t) == Outside
    case Load(t) => At(s, t).Entered?
    case TurnAway(t) => At(s, t).Loaded? && (s.limit == 0 || At(s, t).cur >= s.limit)
    case Swap(t) => At(s, t).Loaded? && s.limit != 0 && At(s, t).cur < s.limit && s.waiting == At(s, t).cur
    case SwapLost(t) => At(s, t).Loaded? && s.limit != 0 && At(s, t).cur < s.limit && s.waiting != At(s, t).cur
    case AddUnchecked(t) => At(s, t).Refused?
    case Send(t) => At(s, t).Admitted?
    case Receive => s.queued > 0 && !s.received
    case CountDown => s.received
  }

  function Do(s: State, step: Step): State
    requires Enabled(s, step)
  {
    match step
    case Enter(t, tries) => Put(s, t, Entered(tries))
    case Load(t) => Put(s, t, Loaded(At(s, t).tries, s.waiting))
    case TurnAway(t) => Put(s, t, if At(s, t).tries then Outside else Refused)
    case Swap(t) => Put(s, t, Admitted).(waiting := s.waiting + 1)
    case SwapLost(t) => Put(s, t, Entered(At(s, t).tries))
    case AddUnchecked(t) => Put(s, t, Admitted).(waiting := s.waiting + 1, overflows := s.overflows + 1)
    case Send(t) => Put(s, t, Outside).(queued := s.queued + 1)
    case Receive => s.(queued := s.queued - 1, received := true)
    case CountDown => s.(waiting := s.waiting - 1, received := false)
  }

  ghost function Admissions(threads: map<Thread, Where>): set<Thread> {
    set t | t in threads && threads[t].Admitted?
  }

  /** Every unit of the counter is a job on its way. */
  ghost predicate Balanced(s: State) {
    s.waiting == s.queued + |Admissions(s.threads)| + if s.received then 1 else 0
  }

  ghost predicate Start(s: State) {
    s.waiting == 0 && s.queued == 0 && !s.received && s.threads == map[] && s.overflows == 0
  }

  lemma PutCounts(s: State, t: Thread, w: Where)
    ensures |Admissions(Put(s, t, w).threads)| ==
            |Admissions(s.threads)| + (if w.Admitted? then 1 else 0) - (if At(s, t).Admitted? then 1 else 0)
  {
    var before, after := Admissions(s.threads), Admissions(Put(s, t, w).threads);
    assert after - {t} == before - {t};
    assert t in after <==> w.Admitted?;
    assert t in before <==> At(s, t).Admitted?;
    assert |after| == |after - {t}| + if t in after then 1 else 0;
    assert |before| == |before - {t}| + if t in before then 1 else 0;
  }

  lemma StepKeepsBalance(s: State, step: Step)
    requires Balanced(s) && Enabled(s, step)
    ensures Balanced(Do(s, step))
  {
    hide Admissions;
    match step
    case Enter(t, tries) => PutCounts(s, t, Entered(tries));
    case Load(t) => PutCounts(s, t, Loaded(At(s, t).tries, s.waiting));
    case TurnAway(t) => PutCounts(s, t, if At(s, t).tries then Outside else Refused);
    case Swap(t) => PutCounts(s, t, Admitted);
    case SwapLost(t) => PutCounts(s, t, Entered(At(s, t).tries));
    case AddUnchecked(t) => PutCounts(s, t, Admitted);
    case Send(t) => PutCounts(s, t, Outside);
    case Receive =>
    case CountDown =>
  }

  /** An interleaving: each state follows from the one before by some thread's step. */
  ghost predicate Interleaving(run: seq<State>, steps: seq<Step>) {
    && |run| == |steps| + 1
    && forall i :: 0 <= i < |steps| ==> Enabled(run[i], steps[i]) && run[i + 1] == Do(run[i], steps[i])
  }

  /** In every reachable state the counter is exactly the queued jobs, the submitters
      about to send and a job received but not counted down; it is never negative, and
      it exceeds the limit by no more than the unchecked increments made so far. */
  lemma {:induction false} CounterIsExact(run: seq<State>, steps: seq<Step>)
    requires Interleaving(run, steps) && Start(run[0])
    ensures
      var s := run[|steps|];
      && s.waiting == s.queued + |Admissions(s.threads)| + (if s.received then 1 else 0)
      && 0 <= s.waiting <= s.limit + s.overflows
      && s.limit == run[0].limit
    decreases |steps|
  {
    if steps == [] {
      assert Admissions(run[0].threads) == {};
    } else {
      var n := |steps| - 1;
      CounterIsExact(run[..n + 1], steps[..n]);
      StepKeepsBalance(run[n], steps[n]);
    }
  }

  /** With `try_generate` alone the counter stays within the limit. */
  lemma TryStaysWithinLimit(run: seq<State>, steps: seq<Step>)
    requires Interleaving(run, steps) && Start(run[0])
    requires forall i :: 0 <= i < |steps| && steps[i].Enter? ==> steps[i].tries
    ensures run[|steps|].waiting <= run[0].limit
  {
    CounterIsExact(run, steps);
    NoOverflow(run, steps);
  }

  lemma {:induction false} NoOverflow(run: seq<State>, steps: seq<Step>)
    requires Interleaving(run, steps) && Start(run[0])
    requires forall i :: 0 <= i < |steps| && steps[i].Enter? ==> steps[i].tries
    ensures run[|steps|].overflows == 0
    ensures forall t :: t in run[|steps|].threads ==>
      var w := run[|steps|].threads[t];
      !w.Refused? && (w.Entered? || w.Loaded? ==> w.tries)
    decreases |steps|
  {
    if steps != [] {
      var n := |steps| - 1;
      assert forall i :: 0 <= i < n ==> steps[..n][i] == steps[i];
      NoOverflow(run[..n + 1], steps[..n]);
    }
  }

  /** A submission is turned away only if the counter stood at the limit when it looked. */
  lemma TurnedAwayWhenFull(run: seq<State>, steps: seq<Step>, t: Thread, i: nat)
    requires Interleaving(run, steps) && Start(run[0])
    requires i < |steps| && steps[i] == TurnAway(t)
    ensures exists k :: 0 <= k < i && steps[k] == Load(t) && run[k].waiting >= run[0].limit
  {
    assert Enabled(run[i], steps[i]);
    LoadedEarlier(run, steps, t, i);
  }

  lemma PrefixCounts(run: seq<State>, steps: seq<Step>, i: nat)
    requires Interleaving(run, steps) && Start(run[0]) && i <= |steps|
    ensures run[i].limit == run[0].limit && run[i].waiting >= 0
  {
    hide Start;
    assert Interleaving(run[..i + 1], steps[..i]) by { hide Enabled, Do; }
    hide Interleaving;
    CounterIsExact(run[..i + 1], steps[..i]);
  }

  lemma LoadedBy(s: State, step: Step, t: Thread)
    requires Enabled(s, step) && At(Do(s, step), t).Loaded?
    ensures if step == Load(t) then At(Do(s, step), t).cur == s.waiting else At(Do(s, step), t) == At(s, t)
  {
  }

  lemma {:induction false} LoadedEarlier(run: seq<State>, steps: seq<Step>, t: Thread, i: nat)
    requires Interleaving(run, steps) && Start(run[0]) && i <= |steps|
    requires At(run[i], t).Loaded?
    ensures exists k :: 0 <= k < i && steps[k] == Load(t) && run[k].waiting == At(run[i], t).cur
    ensures run[i].limit == run[0].limit && At(run[i], t).cur >= 0
    decreases i
  {
    hide Enabled, Do;
    PrefixCounts(run, steps, i);
    if i > 0 {
      assert Enabled(run[i - 1], steps[i - 1]) && run[i] == Do(run[i - 1], steps[i - 1]);
      PrefixCounts(run, steps, i - 1);
      hide Interleaving;
      LoadedBy(run[i - 1], steps[i - 1], t);
      if steps[i - 1] != Load(t) {
        LoadedEarlier(run, steps, t, i - 1);
      }
    }
  }

  // ---- nobody is stuck, and only `try_generate` can be turned away ----

  /** The one step a submitter inside is at: it always has exactly one, whatever the
      others did meanwhile. */
  ghost function Next(s: State, t: Thread): Step
    requires At(s, t) != Outside
  {
    match At(s, t)
    case Entered(_) => Load(t)
    case Loaded(_, cur) =>
      if s.limit == 0 || cur >= s.limit then TurnAway(t)
      else if s.waiting == cur then Swap(t)
      else SwapLost(t)
    case Refused => AddUnchecked(t)
    case Admitted => Send(t)
  }

  ghost predicate By(step: Step, t: Thread) {
    match step
    case Enter(u, _) => u == t
    case Load(u) => u == t
    case TurnAway(u) => u == t
    case Swap(u) => u == t
    case SwapLost(u) => u == t
    case AddUnchecked(u) => u == t
    case Send(u) => u == t
    case Receive => false
    case CountDown => false
  }

  lemma NeverStuck(s: State, t: Thread, step: Step)
    requires At(s, t) != Outside && By(step, t)
    ensures Enabled(s, step) <==> step == Next(s, t)
  {
  }

  /** Where a submission can stand that has neither sent its job nor been turned away. */
  ghost predicate UnderWay(w: Where, tries: bool) {
    match w
    case Entered(u) => u == tries
    case Loaded(u, _) => u == tries
    case Refused => !tries
    case Admitted => true
    case Outside => false
  }

  /** A submission is over exactly when it has sent its job or, with `try_generate`, been
      turned away; the infallible one always sends. */
  lemma {:induction false} SentOrTurnedAway(run: seq<State>, steps: seq<Step>, t: Thread, tries: bool, i: nat, k: nat)
    requires Interleaving(run, steps) && i < k <= |steps| && steps[i] == Enter(t, tries)
    requires forall m :: i < m < k ==> steps[m] != Send(t) && (tries ==> steps[m] != TurnAway(t))
    ensures UnderWay(At(run[k], t), tries)
    decreases k
  {
    assert Enabled(run[k - 1], steps[k - 1]) && run[k] == Do(run[k - 1], steps[k - 1]);
    if k > i + 1 {
      SentOrTurnedAway(run, steps, t, tries, i, k - 1);
      hide Interleaving;
      StaysUnderWay(run[k - 1], steps[k - 1], t, tries);
    }
  }

  lemma StaysUnderWay(s: State, step: Step, t: Thread, tries: bool)
    requires Enabled(s, step) && UnderWay(At(s, t), tries)
    requires step != Send(t) && (tries ==> step != TurnAway(t))
    ensures UnderWay(At(Do(s, step), t), tries)
  {
  }
}
