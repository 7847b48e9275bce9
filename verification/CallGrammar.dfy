/** The calls one session sees, as a grammar: whole jobs, each opened and closed by a
    reset of its own. */
module CallGrammar {
  import opened Strings
  import opened EngineModel

  /** Decodes, refused joins and stays in the group in any order; a failed decode ends it. */
  ghost predicate Work(t: seq<Call>)
    decreases |t|
  {
    || t == []
    || t == [Call(Decode, false)]
    || ((t[0] == Call(Decode, true) || t[0] == Call(Add, false)) && Work(t[1..]))
    || exists k: nat :: Stay(t, k) && Work(t[k + 1..])
  }

  /** A stay in the group up to its end at `k`: nothing but batch steps in between. */
  ghost predicate Stay(t: seq<Call>, k: nat) {
    0 < k < |t| && t[0] == Call(Add, true) && t[k].op == Remove && forall i :: 0 < i < k ==> t[i].op == Step
  }

  /** One job: an opening reset, a prefill, the work, a closing reset; a failed reset or
      prefill is followed by the closing reset at once. */
  ghost predicate Job(t: seq<Call>) {
    && |t| >= 2 && t[0].op == Reset && t[|t| - 1].op == Reset
    && (if !t[0].ok then |t| == 2
        else |t| >= 3 && t[1].op == Prefill && (if !t[1].ok then |t| == 3 else Work(t[2..|t| - 1])))
  }

  ghost predicate Jobs(t: seq<Call>)
    decreases |t|
  {
    t == [] || exists k :: 0 < k <= |t| && Job(t[..k]) && Jobs(t[k..])
  }

  /** The phase after all of `t`, call by call. */
  ghost function RunFrom(phase: Phase, t: seq<Call>): Option<Phase>
    decreases |t|
  {
    if t == [] then Some(phase)
    else match After(phase, t[0])
      case None => None
      case Some(p) => RunFrom(p, t[1..])
  }

  lemma {:induction false} RunSnoc(phase: Phase, t: seq<Call>, c: Call)
    ensures RunFrom(phase, t + [c]) == match RunFrom(phase, t) case None => None case Some(p) => After(p, c)
    decreases |t|
  {
    if t == [] {
      assert t + [c] == [c] && [c][1..] == [];
    } else {
      assert (t + [c])[1..] == t[1..] + [c];
      match After(phase, t[0])
      case None =>
      case Some(p) => RunSnoc(p, t[1..], c);
    }
  }

  lemma {:induction false} ReplayIsRun(t: seq<Call>)
    ensures Replay(t) == RunFrom(Idle, t)
    decreases |t|
  {
    if t != [] {
      var before, last := t[..|t| - 1], t[|t| - 1];
      assert before + [last] == t;
      ReplayIsRun(before);
      RunSnoc(Idle, before, last);
    }
  }

  lemma {:induction false} RunJoin(phase: Phase, a: seq<Call>, b: seq<Call>)
    requires RunFrom(phase, a).Some?
    ensures RunFrom(phase, a + b) == RunFrom(RunFrom(phase, a).value, b)
    decreases |a|
  {
    if a == [] {
      assert a + b == b;
    } else {
      assert (a + b)[1..] == a[1..] + b;
      RunJoin(After(phase, a[0]).value, a[1..], b);
    }
  }

  lemma Parts(t: seq<Call>, k: nat)
    requires k <= |t|
    ensures t[..k] + t[k..] == t
  {
  }

  // ---- what the grammar allows is in order ----

  lemma {:induction false} StepsRun(t: seq<Call>)
    requires forall i :: 0 <= i < |t| ==> t[i].op == Step
    ensures RunFrom(Grouped, t) == Some(Grouped)
    decreases |t|
  {
    if t != [] {
      StepsRun(t[1..]);
    }
  }

  lemma StayRuns(t: seq<Call>, k: nat)
    requires Stay(t, k)
    ensures RunFrom(Running, t[..k + 1]) == Some(Running)
  {
    var inside := t[1..k];
    StepsRun(inside);
    RunSnoc(Grouped, inside, t[k]);
    assert t[..k + 1][1..] == inside + [t[k]];
  }

  lemma {:induction false} WorkRuns(t: seq<Call>)
    requires Work(t)
    ensures RunFrom(Running, t).Some? && Closable(RunFrom(Running, t).value)
    decreases |t|
  {
    if t == [] {
    } else if t == [Call(Decode, false)] {
      assert t[1..] == [];
    } else if (t[0] == Call(Decode, true) || t[0] == Call(Add, false)) && Work(t[1..]) {
      WorkRuns(t[1..]);
    } else {
      var k: nat :| Stay(t, k) && Work(t[k + 1..]);
      StayRuns(t, k);
      WorkRuns(t[k + 1..]);
      Parts(t, k + 1);
      RunJoin(Running, t[..k + 1], t[k + 1..]);
    }
  }

  lemma JobRuns(t: seq<Call>)
    requires Job(t)
    ensures RunFrom(Idle, t) == Some(Idle)
  {
    var last := t[|t| - 1];
    var before := t[..|t| - 1];
    assert before + [last] == t;
    RunSnoc(Idle, before, last);
    assert before[0] == t[0];
    if !t[0].ok {
      assert before[1..] == [];
    } else {
      assert before[1] == t[1] && before[1..][0] == t[1];
      if !t[1].ok {
        assert before[1..][1..] == [];
        assert RunFrom(Cleared, before[1..]) == Some(Spent);
      } else {
        assert before[1..][1..] == t[2..|t| - 1];
        WorkRuns(t[2..|t| - 1]);
      }
    }
  }

  lemma {:induction false} JobsRun(t: seq<Call>)
    requires Jobs(t)
    ensures RunFrom(Idle, t) == Some(Idle)
    decreases |t|
  {
    if t != [] {
      hide RunFrom, Job;
      var k :| 0 < k <= |t| && Job(t[..k]) && Jobs(t[k..]);
      hide Jobs;
      JobRuns(t[..k]);
      JobsRun(t[k..]);
      Parts(t, k);
      RunJoin(Idle, t[..k], t[k..]);
    }
  }

  // ---- what is in order the grammar allows ----

  /** A stay that ends is steps and then the remove. */
  lemma {:induction false} StayEnds(t: seq<Call>) returns (k: nat)
    requires RunFrom(Grouped, t) == Some(Idle)
    ensures k < |t| && t[k].op == Remove && (forall i :: 0 <= i < k ==> t[i].op == Step)
    ensures RunFrom(Running, t[k + 1..]) == Some(Idle)
    decreases |t|
  {
    if t[0].op == Remove {
      k := 0;
    } else {
      k := StayEnds(t[1..]);
      assert t[1..][k + 1..] == t[k + 2..];
      k := k + 1;
    }
  }

  lemma SpentGoes(t: seq<Call>)
    requires RunFrom(Spent, t) == Some(Idle)
    ensures t != [] && t[0].op == Reset && RunFrom(Idle, t[1..]) == Some(Idle)
  {
  }

  lemma ClearedGoes(t: seq<Call>)
    requires RunFrom(Cleared, t) == Some(Idle)
    ensures t != [] && t[0].op == Prefill && RunFrom(if t[0].ok then Running else Spent, t[1..]) == Some(Idle)
  {
  }

  lemma IdleGoes(t: seq<Call>)
    requires RunFrom(Idle, t) == Some(Idle) && t != []
    ensures t[0].op == Reset && RunFrom(if t[0].ok then Cleared else Spent, t[1..]) == Some(Idle)
  {
  }

  lemma RunningGoes(t: seq<Call>)
    requires RunFrom(Running, t) == Some(Idle)
    ensures t != [] && t[0].op in {Reset, Decode, Add}
    ensures t[0].op == Reset ==> RunFrom(Idle, t[1..]) == Some(Idle)
    ensures t[0] == Call(Decode, false) ==> RunFrom(Spent, t[1..]) == Some(Idle)
    ensures t[0] == Call(Add, true) ==> RunFrom(Grouped, t[1..]) == Some(Idle)
    ensures t[0] == Call(Decode, true) || t[0] == Call(Add, false) ==> RunFrom(Running, t[1..]) == Some(Idle)
  {
  }

  lemma WorkMore(t: seq<Call>, k: nat)
    requires k < |t| && (t[0] == Call(Decode, true) || t[0] == Call(Add, false)) && Work(t[1..][..k])
    ensures Work(t[..k + 1])
  {
    assert t[..k + 1][1..] == t[1..][..k];
    assert t[..k + 1][0] == t[0];
  }

  lemma StayMore(t: seq<Call>, m: nat, k: nat)
    requires m + 1 + k <= |t| && Stay(t, m) && Work(t[m + 1..][..k])
    ensures Work(t[..m + 1 + k])
  {
    var work := t[..m + 1 + k];
    assert work[m + 1..] == t[m + 1..][..k];
    assert Stay(work, m);
  }

  lemma Rest(t: seq<Call>, n: nat, k: nat)
    requires n + k <= |t|
    ensures t[n..][k..] == t[n + k..] && t[n..][..k] == t[..n + k][n..]
  {
  }

  /** Work that is closed is work followed by the closing reset. */
  lemma {:induction false} WorkEnds(t: seq<Call>) returns (k: nat)
    requires RunFrom(Running, t) == Some(Idle)
    ensures k < |t| && t[k].op == Reset && Work(t[..k]) && RunFrom(Idle, t[k + 1..]) == Some(Idle)
    decreases |t|, 1
  {
    hide RunFrom;
    RunningGoes(t);
    if t[0].op == Reset {
      k := 0;
      assert t[..0] == [];
    } else if t[0] == Call(Decode, false) {
      SpentGoes(t[1..]);
      k := 1;
      Rest(t, 1, 1);
      assert t[..1] == [Call(Decode, false)];
    } else if t[0] != Call(Add, true) {
      hide Work;
      k := WorkEnds(t[1..]);
      WorkMore(t, k);
      Rest(t, 1, k + 1);
      k := k + 1;
    } else {
      k := StayThenWork(t);
    }
  }

  lemma {:induction false} StayThenWork(t: seq<Call>) returns (k: nat)
    requires t != [] && t[0] == Call(Add, true) && RunFrom(Running, t) == Some(Idle)
    ensures k < |t| && t[k].op == Reset && Work(t[..k]) && RunFrom(Idle, t[k + 1..]) == Some(Idle)
    decreases |t|, 0
  {
    hide RunFrom, Work;
    RunningGoes(t);
    var m := StayEnds(t[1..]);
    assert forall i :: 0 < i <= m + 1 ==> t[i] == t[1..][i - 1];
    m := m + 1;
    Rest(t, 1, m);
    k := WorkEnds(t[m + 1..]);
    StayMore(t, m, k);
    Rest(t, m + 1, k + 1);
    k := k + m + 1;
  }

  lemma JobEnds(t: seq<Call>) returns (k: nat)
    requires t != [] && RunFrom(Idle, t) == Some(Idle)
    ensures 0 < k <= |t| && Job(t[..k]) && RunFrom(Idle, t[k..]) == Some(Idle)
  {
    hide RunFrom, Work;
    IdleGoes(t);
    if !t[0].ok {
      SpentGoes(t[1..]);
      Rest(t, 1, 1);
      k := 2;
    } else {
      ClearedGoes(t[1..]);
      Rest(t, 1, 1);
      if !t[1].ok {
        SpentGoes(t[2..]);
        Rest(t, 2, 1);
        k := 3;
      } else {
        k := WorkEnds(t[2..]);
        Rest(t, 2, k + 1);
        Rest(t, 2, k);
        assert t[..k + 3][2..|t[..k + 3]| - 1] == t[..k + 2][2..];
        k := k + 3;
      }
    }
  }

  lemma {:induction false} RunsAreJobs(t: seq<Call>)
    requires RunFrom(Idle, t) == Some(Idle)
    ensures Jobs(t)
    decreases |t|
  {
    if t != [] {
      var k := JobEnds(t);
      RunsAreJobs(t[k..]);
    }
  }

  // ---- results ----

  /** A session stands between jobs exactly if its whole trace is a sequence of whole
      jobs. */
  lemma WholeTrace(trace: seq<Call>)
    ensures Replay(trace) == Some(Idle) <==> Jobs(trace)
  {
    ReplayIsRun(trace);
    if Replay(trace) == Some(Idle) {
      RunsAreJobs(trace);
    }
    if Jobs(trace) {
      JobsRun(trace);
    }
  }

  function Closing(phase: Phase): seq<Call> {
    match phase
    case Idle => []
    case Cleared => [Call(Prefill, false), Call(Reset, true)]
    case Grouped => [Call(Remove, true), Call(Reset, true)]
    case _ => [Call(Reset, true)]
  }

  lemma ClosingRuns(phase: Phase)
    ensures RunFrom(phase, Closing(phase)) == Some(Idle)
  {
    var rest := Closing(phase);
    if |rest| == 1 {
      assert rest[1..] == [];
    } else if |rest| == 2 {
      assert rest[1..] == [rest[1]] && rest[1..][1..] == [];
      assert RunFrom(if phase.Cleared? then Spent else Running, rest[1..]) == Some(Idle);
    }
  }

  /** The traces in order are the beginnings of sequences of whole jobs. */
  lemma TraceInOrder(trace: seq<Call>)
    ensures Replay(trace).Some? <==> exists rest :: Jobs(trace + rest)
  {
    ReplayIsRun(trace);
    if Replay(trace).Some? {
      var rest := Closing(Replay(trace).value);
      RunJoin(Idle, trace, rest);
      ClosingRuns(Replay(trace).value);
      RunsAreJobs(trace + rest);
    }
    if rest :| Jobs(trace + rest) {
      JobsRun(trace + rest);
      BeginningRuns(Idle, trace, rest);
    }
  }

  lemma {:induction false} BeginningRuns(phase: Phase, a: seq<Call>, b: seq<Call>)
    requires RunFrom(phase, a + b).Some?
    ensures RunFrom(phase, a).Some?
    decreases |a|
  {
    if a != [] {
      assert (a + b)[1..] == a[1..] + b && (a + b)[0] == a[0];
      BeginningRuns(After(phase, a[0]).value, a[1..], b);
    }
  }

  lemma {:induction false} CountJoin(a: seq<Call>, b: seq<Call>)
    ensures ResetCount(a + b) == ResetCount(a) + ResetCount(b)
    decreases |b|
  {
    if b == [] {
      assert a + b == a;
    } else {
      CountJoin(a, b[..|b| - 1]);
      assert (a + b)[..|a + b| - 1] == a + b[..|b| - 1];
    }
  }

  lemma {:induction false} NoResets(t: seq<Call>)
    requires forall i :: 0 <= i < |t| ==> t[i].op != Reset
    ensures ResetCount(t) == 0
    decreases |t|
  {
    if t != [] {
      NoResets(t[..|t| - 1]);
    }
  }

  lemma {:induction false} WorkHasNoReset(t: seq<Call>)
    requires Work(t)
    ensures forall i :: 0 <= i < |t| ==> t[i].op != Reset
    decreases |t|
  {
    if t == [] || t == [Call(Decode, false)] {
    } else if (t[0] == Call(Decode, true) || t[0] == Call(Add, false)) && Work(t[1..]) {
      WorkHasNoReset(t[1..]);
      assert forall i :: 0 < i < |t| ==> t[i] == t[1..][i - 1];
    } else {
      var k: nat :| Stay(t, k) && Work(t[k + 1..]);
      WorkHasNoReset(t[k + 1..]);
      assert forall i :: k < i < |t| ==> t[i] == t[k + 1..][i - k - 1];
    }
  }

  /** Every whole job has exactly two resets. */
  lemma JobHasTwoResets(t: seq<Call>)
    requires Job(t)
    ensures ResetCount(t) == 2
  {
    var inside := t[1..|t| - 1];
    if t[0].ok && t[1].ok {
      WorkHasNoReset(t[2..|t| - 1]);
      assert forall i :: 1 <= i < |inside| ==> inside[i] == t[2..|t| - 1][i - 1];
    }
    NoResets(inside);
    assert t == [t[0]] + inside + [t[|t| - 1]];
    CountJoin([t[0]], inside);
    CountJoin([t[0]] + inside, [t[|t| - 1]]);
    One(t[0]);
    One(t[|t| - 1]);
  }

  lemma One(c: Call)
    ensures ResetCount([c]) == if c.op == Reset then 1 else 0
  {
    assert [c][..0] == [];
  }
}
