// The dialling of a necessary peer: components/connection_supervisor.go. An actuator's
// Run, its goroutines and the supervisor's calls on it are the steps of a machine.
module DialActuator {
  type RunId = nat

  /** What Dial gave: an error or a nil connection, the peer itself, or another peer. */
  datatype Answer = Failed | Reached | Stranger

  /** Where a Run that got stateC stands. */
  datatype Pc = Entered | AtTop | Dialling | Dialled(answer: Answer) | Deciding | Leaving

  /**
   * An actuator and its goroutines. `detached`: the supervisor marked it finished and
   * dropped it; `midRun`: it did so while a Run was past its first test. The last five
   * count what happened since the last Reset, `dials` what happened ever.
   */
  datatype World = World(
    f: seq<nat>, tryTimes: nat, giveUp: bool, finished: bool, runs: map<RunId, Pc>,
    detached: bool, midRun: bool, dials: nat,
    failed: nat, overtaken: nat, cutOff: nat, slept: nat)

  datatype Step =
    | Start(id: RunId)
    | Check(id: RunId)
    | Look(id: RunId, closed: bool, connected: bool)
    | Dial(id: RunId, answer: Answer)
    | LookAgain(id: RunId, closed: bool, connected: bool)
    | Decide(id: RunId)
    | Leave(id: RunId)
    | MarkFinished
    | Reset

  function New(f: seq<nat>): World {
    World(f, 0, false, false, map[], false, false, 0, 0, 0, 0, 0)
  }

  predicate Past(pc: Pc) {
    pc.AtTop? || pc.Dialling? || pc.Dialled? || pc.Deciding?
  }

  /** A Run is past its first test of the flags and has not broken out of its loop. */
  predicate Running(w: World) {
    exists id :: id in w.runs && Past(w.runs[id])
  }

  predicate Possible(w: World, s: Step) {
    match s
    case Start(id) => id !in w.runs
    case Check(id) => id in w.runs && w.runs[id].Entered?
    case Look(id, _, _) => id in w.runs && w.runs[id].AtTop?
    case Dial(id, _) => id in w.runs && w.runs[id].Dialling?
    case LookAgain(id, _, _) => id in w.runs && w.runs[id].Dialled?
    case Decide(id) => id in w.runs && w.runs[id].Deciding?
    case Leave(id) => id in w.runs && w.runs[id].Leaving?
    case MarkFinished => !w.detached
    case Reset => !w.detached && !w.giveUp && w.finished
  }

  function To(w: World, id: RunId, pc: Pc): World {
    w.(runs := w.runs[id := pc])
  }

  function After(w: World, s: Step): World
    requires Possible(w, s)
  {
    match s
    case Start(id) => if w.runs == map[] then To(w, id, Entered) else w
    case Check(id) => To(w, id, if w.giveUp || w.finished then Leaving else AtTop)
    case Look(id, closed, connected) =>
      if closed then To(w, id, Leaving)
      else if connected then To(w, id, Leaving).(finished := true)
      else To(w, id, Dialling)
    case Dial(id, answer) => To(w, id, Dialled(answer)).(dials := w.dials + 1)
    case LookAgain(id, closed, connected) =>
      var answer := w.runs[id].answer;
      var stop := closed || connected;
      var lost := if answer.Failed? then 1 else 0;
      w.(runs := w.runs[id := if answer.Failed? && !stop then Deciding else Leaving],
         failed := w.failed + lost,
         tryTimes := if stop then w.tryTimes else w.tryTimes + lost,
         cutOff := if closed then w.cutOff + lost else w.cutOff,
         overtaken := if !closed && connected then w.overtaken + lost else w.overtaken,
         finished := w.finished || (!closed && (connected || answer.Reached?)),
         giveUp := w.giveUp || (!stop && answer.Stranger?))
    case Decide(id) =>
      if w.finished || w.giveUp then To(w, id, AtTop)
      else if w.tryTimes >= |w.f| then To(w, id, Leaving).(giveUp := true)
      else To(w, id, AtTop).(slept := w.slept + w.f[w.tryTimes])
    case Leave(id) => w.(runs := w.runs - {id})
    case MarkFinished => w.(finished := true, detached := true, midRun := Running(w))
    case Reset => w.(tryTimes := 0, giveUp := false, finished := false,
                     failed := 0, overtaken := 0, cutOff := 0, slept := 0)
  }

  predicate CanRun(w: World, run: seq<Step>)
    decreases |run|
  {
    run == [] || (Possible(w, run[0]) && CanRun(After(w, run[0]), run[1..]))
  }

  function Run(w: World, run: seq<Step>): World
    requires CanRun(w, run)
    decreases |run|
  {
    if run == [] then w else Run(After(w, run[0]), run[1..])
  }

  /** f[1] + ... + f[k]: the seconds slept after k counted failures. */
  function SleepSum(f: seq<nat>, k: nat): nat
    requires k < |f|
  {
    if k == 0 then 0 else SleepSum(f, k - 1) + f[k]
  }

  predicate Recurs(f: seq<nat>, i: nat)
    requires 2 <= i < |f|
  {
    f[i] == f[i - 1] + f[i - 2]
  }

  /** The Fibonacci recurrence, whatever the first two terms. */
  predicate Fibonacci(f: seq<nat>) {
    forall i: nat :: 2 <= i < |f| ==> Recurs(f, i)
  }

  // ---- the invariant ----

  predicate OneRun(w: World) {
    forall a, b :: a in w.runs && b in w.runs ==> a == b
  }

  /** Every failed dial was counted, or its Run broke out before it could be. */
  predicate Accounted(w: World) {
    && w.failed == w.tryTimes + w.overtaken + w.cutOff
    && w.overtaken <= 1
    && (w.overtaken == 1 ==> w.finished)
    && ((w.giveUp || w.overtaken == 1) ==> !Running(w))
  }

  /** A failure was counted, and its Run has not yet slept or given up for it. */
  predicate AtDecision(w: World) {
    exists id :: id in w.runs && w.runs[id].Deciding?
  }

  /** How many sleeps the counted failures have led to: none for the one that used the budget up. */
  function Sleeps(w: World): nat
    requires |w.f| > 0
  {
    if AtDecision(w) then (if w.tryTimes == 0 then 0 else w.tryTimes - 1)
    else if w.tryTimes < |w.f| then w.tryTimes
    else |w.f| - 1
  }

  /** The budget, as long as nobody marked the actuator finished during a Run. */
  predicate InBudget(w: World)
    requires |w.f| > 0
  {
    && w.tryTimes <= |w.f|
    && (w.tryTimes == |w.f| ==> w.giveUp || AtDecision(w))
    && (AtDecision(w) ==> w.tryTimes >= 1)
    && (Running(w) ==> !w.finished)
    && w.slept == SleepSum(w.f, Sleeps(w))
  }

  predicate Inv(w: World) {
    && |w.f| > 0
    && OneRun(w)
    && Accounted(w)
    && (w.detached ==> w.finished)
    && (w.midRun ==> w.detached)
    && (!w.midRun ==> InBudget(w))
  }

  lemma OnlyRun(w: World, id: RunId)
    requires OneRun(w) && id in w.runs
    ensures w.runs == map[id := w.runs[id]] && w.runs - {id} == map[]
    ensures Running(w) <==> Past(w.runs[id])
    ensures AtDecision(w) <==> w.runs[id].Deciding?
  {
  }

  lemma NoRun(w: World)
    requires w.runs == map[]
    ensures OneRun(w) && !Running(w) && !AtDecision(w)
  {
  }

  lemma Moved(w: World, id: RunId, pc: Pc)
    requires OneRun(w) && (id in w.runs || w.runs == map[])
    ensures w.runs[id := pc] == map[id := pc]
  {
  }

  /** A step of a Run leaves it the only one, or leaves none. */
  lemma StepKeepsOne(w: World, s: Step)
    requires OneRun(w) && Possible(w, s)
    requires !s.MarkFinished? && !s.Reset?
    ensures s.Start? && w.runs != map[] ==> After(w, s) == w
    ensures s.Leave? ==> After(w, s).runs == map[]
    ensures !s.Leave? && !(s.Start? && w.runs != map[]) ==>
              s.id in After(w, s).runs && After(w, s).runs == map[s.id := After(w, s).runs[s.id]]
  {
    if s.Leave? {
      OnlyRun(w, s.id);
    } else if s.id in w.runs || w.runs == map[] {
      Moved(w, s.id, After(w, s).runs[s.id]);
      assert After(w, s).runs == w.runs[s.id := After(w, s).runs[s.id]];
    }
  }

  lemma StepKeepsAccounts(w: World, s: Step)
    requires OneRun(w) && Accounted(w) && Possible(w, s)
    ensures OneRun(After(w, s)) && Accounted(After(w, s))
    ensures |After(w, s).f| == |w.f|
  {
    if s.MarkFinished? || s.Reset? {
    } else {
      StepKeepsOne(w, s);
      var n := After(w, s);
      if n == w {
      } else if s.Leave? {
        NoRun(n);
      } else {
        OnlyRun(n, s.id);
        if s.Start? {
          NoRun(w);
        } else {
          OnlyRun(w, s.id);
        }
      }
    }
  }

  lemma StepKeepsBudget(w: World, s: Step)
    requires |w.f| > 0 && OneRun(w) && Accounted(w) && !w.midRun && InBudget(w)
    requires w.detached ==> w.finished
    requires Possible(w, s)
    ensures !After(w, s).midRun ==> InBudget(After(w, s))
  {
    var n := After(w, s);
    if s.MarkFinished? {
      assert AtDecision(n) == AtDecision(w) && Running(n) == Running(w);
    } else if s.Reset? {
      DecidingRuns(w);
      assert AtDecision(n) == AtDecision(w) && Running(n) == Running(w);
    } else {
      StepKeepsOne(w, s);
      if n != w {
        if s.id in w.runs { OnlyRun(w, s.id); } else { NoRun(w); }
        if s.Leave? { NoRun(n); } else { OnlyRun(n, s.id); }
      }
    }
  }

  lemma DecidingRuns(w: World)
    ensures AtDecision(w) ==> Running(w)
  {
    if AtDecision(w) {
      var id :| id in w.runs && w.runs[id].Deciding?;
      assert Past(w.runs[id]);
    }
  }

  lemma StepKeepsInv(w: World, s: Step)
    requires Inv(w) && Possible(w, s)
    ensures Inv(After(w, s))
  {
    StepKeepsAccounts(w, s);
    if !w.midRun {
      StepKeepsBudget(w, s);
    }
  }

  lemma {:induction false} RunKeepsInv(w: World, run: seq<Step>)
    requires Inv(w) && CanRun(w, run)
    ensures Inv(Run(w, run)) && Run(w, run).f == w.f
    decreases |run|
  {
    if run != [] {
      StepKeepsInv(w, run[0]);
      RunKeepsInv(After(w, run[0]), run[1..]);
    }
  }

  // ---- what it means for every run ----

  /**
   * The retry budget. Since the last Reset, every failed dial was counted except those
   * overtaken by a connection (at most one) or cut off by Stop; and unless the actuator
   * was marked finished during a Run, at most len(fibonacci) were counted.
   */
  lemma RetryBudget(f: seq<nat>, run: seq<Step>)
    requires |f| > 0 && CanRun(New(f), run)
    ensures var w := Run(New(f), run);
            && w.failed == w.tryTimes + w.overtaken + w.cutOff
            && w.overtaken <= 1
            && (!w.midRun ==> w.tryTimes <= |f| && w.failed <= |f| + 1 + w.cutOff)
            && (!w.midRun && w.giveUp && w.tryTimes < |f| ==> w.slept == SleepSum(f, w.tryTimes))
            && (!w.midRun && w.giveUp && w.tryTimes == |f| ==> w.slept == SleepSum(f, |f| - 1))
  {
    assert New(f).slept == SleepSum(f, 0);
    RunKeepsInv(New(f), run);
    var w := Run(New(f), run);
    DecidingRuns(w);
  }

  /** The failure of this dial is never counted: the second break check comes first. */
  predicate Uncounted(w: World, s: Step)
    requires Possible(w, s)
  {
    s.LookAgain? && w.runs[s.id].answer.Failed? && (s.closed || s.connected)
  }

  ghost predicate EverUncounted(w: World, run: seq<Step>)
    requires CanRun(w, run)
    decreases |run|
  {
    run != [] && (Uncounted(w, run[0]) || EverUncounted(After(w, run[0]), run[1..]))
  }

  lemma StepCounts(w: World, s: Step)
    requires Possible(w, s) && !s.Reset?
    ensures After(w, s).failed - After(w, s).tryTimes == w.failed - w.tryTimes + if Uncounted(w, s) then 1 else 0
  {
  }

  /** Between two Resets the counter is the number of failed dials exactly if no failure met a break check. */
  lemma {:induction false} CountedIff(w: World, run: seq<Step>)
    requires CanRun(w, run) && forall i :: 0 <= i < |run| ==> !run[i].Reset?
    ensures Run(w, run).failed - Run(w, run).tryTimes >= w.failed - w.tryTimes
    ensures Run(w, run).failed - Run(w, run).tryTimes == w.failed - w.tryTimes <==> !EverUncounted(w, run)
    decreases |run|
  {
    if run != [] {
      var n := After(w, run[0]);
      StepCounts(w, run[0]);
      CountedIff(n, run[1..]);
    }
  }

  lemma AtMostOneRun(f: seq<nat>, run: seq<Step>)
    requires |f| > 0 && CanRun(New(f), run)
    ensures var w := Run(New(f), run);
            forall a, b :: a in w.runs && b in w.runs ==> a == b
  {
    assert New(f).slept == SleepSum(f, 0);
    RunKeepsInv(New(f), run);
  }

  function DialsIn(run: seq<Step>): nat {
    if run == [] then 0 else (if run[0].Dial? then 1 else 0) + DialsIn(run[1..])
  }

  /** No step but a dial counts as one, and no Reset forgets one. */
  lemma {:induction false} DialsCounted(w: World, run: seq<Step>)
    requires CanRun(w, run)
    ensures Run(w, run).dials == w.dials + DialsIn(run)
    decreases |run|
  {
    if run != [] {
      DialsCounted(After(w, run[0]), run[1..]);
    }
  }

  /** A given-up actuator never dials again: Reset is never reached for it. */
  lemma {:induction false} GiveUpIsFinal(w: World, run: seq<Step>)
    requires Inv(w) && w.giveUp && CanRun(w, run)
    ensures Run(w, run).giveUp && Run(w, run).dials == w.dials
    decreases |run|
  {
    if run != [] {
      var s := run[0];
      if !s.Reset? && !s.MarkFinished? && s.id in w.runs {
        assert Past(w.runs[s.id]) ==> Running(w);
      }
      StepKeepsInv(w, s);
      GiveUpIsFinal(After(w, s), run[1..]);
    }
  }

  /** So nobody dials after the budget is spent. */
  lemma {:induction false} SpentBudgetIsFinal(w: World, run: seq<Step>)
    requires Inv(w) && CanRun(w, run)
    requires w.tryTimes >= |w.f| && !w.midRun
    ensures Run(w, run).dials == w.dials || Run(w, run).midRun
    decreases |run|
  {
    if w.giveUp {
      GiveUpIsFinal(w, run);
    } else if run != [] {
      var s := run[0];
      StepKeepsInv(w, s);
      DecidingRuns(w);
      if s.MarkFinished? {
        StaysMarked(After(w, s), run[1..]);
      } else {
        SpentBudgetIsFinal(After(w, s), run[1..]);
      }
    }
  }

  lemma {:induction false} StaysMarked(w: World, run: seq<Step>)
    requires w.detached && CanRun(w, run)
    ensures Run(w, run).detached && Run(w, run).midRun == w.midRun
    decreases |run|
  {
    if run != [] {
      StaysMarked(After(w, run[0]), run[1..]);
    }
  }

  /** The sleeps telescope. */
  lemma {:induction false} SleepSumClosed(f: seq<nat>, k: nat)
    requires Fibonacci(f) && 1 <= k < |f|
    ensures SleepSum(f, k) + f[0] + f[1] == 2 * f[k] + f[k - 1]
    ensures k + 2 < |f| ==> SleepSum(f, k) + f[2] == f[k + 2]
  {
    if k == 1 {
      assert SleepSum(f, 0) == 0;
    } else {
      SleepSumClosed(f, k - 1);
      assert Recurs(f, k);
    }
    if k + 2 < |f| {
      assert Recurs(f, k + 2) && Recurs(f, k + 1) && Recurs(f, 2);
    }
  }

  // ---- where the budget does not hold ----

  lemma {:induction false} RunAppend(w: World, a: seq<Step>, b: seq<Step>)
    requires CanRun(w, a) && CanRun(Run(w, a), b)
    ensures CanRun(w, a + b) && Run(w, a + b) == Run(Run(w, a), b)
    decreases |a|
  {
    if a == [] {
      assert a + b == b;
    } else {
      assert (a + b)[0] == a[0] && (a + b)[1..] == a[1..] + b;
      RunAppend(After(w, a[0]), a[1..], b);
    }
  }

  lemma RunTwo(w: World, a: Step, b: Step)
    requires Possible(w, a) && Possible(After(w, a), b)
    ensures CanRun(w, [a, b]) && Run(w, [a, b]) == After(After(w, a), b)
  {
    var t := After(w, a);
    assert [a, b][1..] == [b] && [b][1..] == [];
    assert CanRun(After(t, b), []);
    assert CanRun(t, [b]) && Run(t, [b]) == After(t, b);
  }

  lemma RunOne(w: World, a: Step)
    requires Possible(w, a)
    ensures CanRun(w, [a]) && Run(w, [a]) == After(w, a)
  {
    assert CanRun(After(w, a), []) && [a][1..] == [];
  }

  /** In a marked actuator the loop neither sleeps nor gives up: one turn of failure leads to the next. */
  lemma FailOnce(w: World, id: RunId) returns (run: seq<Step>)
    requires w.finished && id in w.runs && w.runs[id] == AtTop
    ensures CanRun(w, run)
    ensures Run(w, run) == w.(tryTimes := w.tryTimes + 1, failed := w.failed + 1, dials := w.dials + 1)
  {
    var looked, dial := Look(id, false, false), Dial(id, Failed);
    var again, decide := LookAgain(id, false, false), Decide(id);
    RunTwo(w, looked, dial);
    var v := After(After(w, looked), dial);
    RunTwo(v, again, decide);
    RunAppend(w, [looked, dial], [again, decide]);
    run := [looked, dial] + [again, decide];
    assert Run(w, run).runs == w.runs;
  }

  lemma {:induction false} FailMany(w: World, id: RunId, n: nat) returns (run: seq<Step>)
    requires w.finished && id in w.runs && w.runs[id] == AtTop
    ensures CanRun(w, run)
    ensures Run(w, run) == w.(tryTimes := w.tryTimes + n, failed := w.failed + n, dials := w.dials + n)
    decreases n
  {
    if n == 0 {
      run := [];
    } else {
      var first := FailOnce(w, id);
      var rest := FailMany(Run(w, first), id, n - 1);
      RunAppend(w, first, rest);
      run := first + rest;
    }
  }

  /** A Run stands where its dial, the one under way or a later one, can still be counted as failed. */
  predicate CanStillFail(w: World) {
    exists id :: id in w.runs && (w.runs[id].AtTop? || w.runs[id].Dialling? || w.runs[id] == Dialled(Failed) || w.runs[id].Deciding?)
  }

  lemma BackToTop(w: World, id: RunId) returns (run: seq<Step>)
    requires w.finished && id in w.runs
    requires w.runs[id].AtTop? || w.runs[id].Dialling? || w.runs[id] == Dialled(Failed) || w.runs[id].Deciding?
    ensures CanRun(w, run)
    ensures var v := Run(w, run); v.finished && id in v.runs && v.runs[id] == AtTop && v.tryTimes >= w.tryTimes
  {
    var dial, again, decide := Dial(id, Failed), LookAgain(id, false, false), Decide(id);
    match w.runs[id] {
      case AtTop =>
        run := [];
      case Dialling =>
        RunOne(w, dial);
        RunTwo(After(w, dial), again, decide);
        RunAppend(w, [dial], [again, decide]);
        run := [dial] + [again, decide];
      case Dialled(_) =>
        RunTwo(w, again, decide);
        run := [again, decide];
      case Deciding =>
        RunOne(w, decide);
        run := [decide];
    }
  }

  lemma StepCannotFail(w: World, s: Step)
    requires w.detached && w.finished && !CanStillFail(w) && Possible(w, s)
    ensures var v := After(w, s); v.detached && v.finished && !CanStillFail(v) && v.tryTimes == w.tryTimes
  {
  }

  lemma {:induction false} CannotFail(w: World, run: seq<Step>)
    requires w.detached && w.finished && !CanStillFail(w) && CanRun(w, run)
    ensures Run(w, run).tryTimes == w.tryTimes
    decreases |run|
  {
    if run != [] {
      StepCannotFail(w, run[0]);
      CannotFail(After(w, run[0]), run[1..]);
    }
  }

  ghost predicate Reaches(w: World, n: nat) {
    exists run :: CanRun(w, run) && Run(w, run).tryTimes >= n
  }

  /**
   * A marked actuator has no budget at all, or counts no further failure. The first is
   * so exactly if it was marked during a Run whose dial can still fail; otherwise the
   * budget of RetryBudget stands.
   */
  lemma MarkedBudgetIff(w: World)
    requires Inv(w) && w.detached
    ensures (forall n: nat :: Reaches(w, n)) <==> CanStillFail(w)
    ensures CanStillFail(w) ==> w.midRun
    ensures !CanStillFail(w) ==> forall run :: CanRun(w, run) ==> Run(w, run).tryTimes == w.tryTimes
  {
    if CanStillFail(w) {
      var id :| id in w.runs && (w.runs[id].AtTop? || w.runs[id].Dialling? || w.runs[id] == Dialled(Failed) || w.runs[id].Deciding?);
      assert Past(w.runs[id]) && Running(w);
      var first := BackToTop(w, id);
      forall n: nat ensures Reaches(w, n) {
        var rest := FailMany(Run(w, first), id, n);
        RunAppend(w, first, rest);
        assert CanRun(w, first + rest);
      }
    } else {
      forall run | CanRun(w, run) ensures Run(w, run).tryTimes == w.tryTimes {
        CannotFail(w, run);
      }
      assert !Reaches(w, w.tryTimes + 1);
    }
  }

  /** For instance a Run marked at its first turn. */
  lemma MarkedRunHasNoBudget(f: seq<nat>, n: nat) returns (run: seq<Step>)
    ensures CanRun(New(f), run)
    ensures var w := Run(New(f), run);
            && w.tryTimes == n && w.failed == n && w.slept == 0 && w.finished && !w.giveUp
            && w.runs == map[0 := AtTop]
  {
    RunTwo(New(f), Start(0), Check(0));
    run := [Start(0), Check(0)];
    var w := Run(New(f), run);
    RunOne(w, MarkFinished);
    RunAppend(New(f), run, [MarkFinished]);
    run := run + [MarkFinished];
    var rest := FailMany(Run(New(f), run), 0, n);
    RunAppend(New(f), run, rest);
    run := run + rest;
  }

  /** Each Stop can cut off a failed dial before it is counted: no number of them uses the budget up. */
  lemma {:induction false} CutOffDialsAreFree(f: seq<nat>, n: nat) returns (run: seq<Step>)
    ensures CanRun(New(f), run)
    ensures var w := Run(New(f), run);
            && w.failed == n && w.cutOff == n && w.tryTimes == 0 && w.overtaken == 0
            && !w.finished && !w.giveUp && !w.midRun && w.runs == map[]
  {
    if n == 0 {
      run := [];
    } else {
      run := CutOffDialsAreFree(f, n - 1);
      var w := Run(New(f), run);
      RunTwo(w, Start(0), Check(0));
      RunAppend(New(f), run, [Start(0), Check(0)]);
      run := run + [Start(0), Check(0)];
      w := Run(New(f), run);
      var looked, dial := Look(0, false, false), Dial(0, Failed);
      RunTwo(w, looked, dial);
      RunAppend(New(f), run, [looked, dial]);
      run := run + [looked, dial];
      w := Run(New(f), run);
      RunTwo(w, LookAgain(0, true, false), Leave(0));
      RunAppend(New(f), run, [LookAgain(0, true, false), Leave(0)]);
      run := run + [LookAgain(0, true, false), Leave(0)];
    }
  }
}
