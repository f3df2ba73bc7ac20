/** Starting and stopping the scheduler: callers of Start and Stop, the runners they start,
    and the channel on which a Stop waits for a runner to take its message. */
module Scheduler {
  import opened Counting
  import opened Runs

  datatype Runner = Waiting | Sweeping

  /** `starting` and `stopping` callers have read isRunning and are about to write it; as
      history, whether a caller ever read it while another one was about to write. */
  datatype State = State(
    isRunning: bool, runners: seq<Runner>, blocked: nat, starting: nat, stopping: nat, overlapped: bool)

  datatype Action =
    | TestStart          // Start reads isRunning, and returns if it is set
    | SetStart           // and otherwise sets it and starts a runner
    | TestStop           // Stop reads isRunning, and returns if it is clear
    | SetStop            // and otherwise clears it and waits on the channel
    | TakeTick(i: nat)   // a waiting runner starts a sweep
    | EndSweep(i: nat)
    | TakeDone(i: nat)   // a waiting runner takes a Stop's message; both go

  const IDLE: State := State(false, [], 0, 0, 0, false)

  predicate Enabled(s: State, a: Action) {
    match a
    case TestStart => true
    case SetStart => s.starting > 0
    case TestStop => true
    case SetStop => s.stopping > 0
    case TakeTick(i) => i < |s.runners| && s.runners[i].Waiting?
    case EndSweep(i) => i < |s.runners| && s.runners[i].Sweeping?
    case TakeDone(i) => i < |s.runners| && s.runners[i].Waiting? && s.blocked > 0
  }

  function Read(s: State): State {
    s.(overlapped := s.overlapped || s.starting + s.stopping > 0)
  }

  function Apply(s: State, a: Action): State {
    if !Enabled(s, a) then s
    else
      match a
      case TestStart => Read(s).(starting := s.starting + if s.isRunning then 0 else 1)
      case SetStart => s.(isRunning := true, starting := s.starting - 1, runners := s.runners + [Waiting])
      case TestStop => Read(s).(stopping := s.stopping + if s.isRunning then 1 else 0)
      case SetStop => s.(isRunning := false, stopping := s.stopping - 1, blocked := s.blocked + 1)
      case TakeTick(i) => s.(runners := s.runners[i := Sweeping])
      case EndSweep(i) => s.(runners := s.runners[i := Waiting])
      case TakeDone(i) => s.(runners := s.runners[..i] + s.runners[i + 1..], blocked := s.blocked - 1)
  }

  function After(run: seq<Action>): State {
    Exec(Apply, IDLE, run)
  }

  /** Live runners are the one the flag stands for and one for each blocked Stop. */
  predicate Balanced(s: State) {
    |s.runners| == Bit(s.isRunning) + s.blocked
  }

  predicate SerialInv(s: State) {
    !s.overlapped ==>
      && Balanced(s)
      && s.starting + s.stopping <= 1
      && (s.starting == 1 ==> !s.isRunning)
      && (s.stopping == 1 ==> s.isRunning)
  }

  lemma {:induction false} SerialKeeps(s: State, run: seq<Action>)
    requires SerialInv(s)
    ensures SerialInv(Exec(Apply, s, run))
    decreases |run|
  {
    if run != [] {
      SerialKeeps(Apply(s, run[0]), run[1..]);
    }
  }

  /** If calls to Start and Stop do not overlap, live runners are one if isRunning is set and one
      for every blocked Stop.  So every blocked Stop has a runner to take its message, and no
      runner leaks. */
  lemma RunnersBalanced(run: seq<Action>)
    requires !After(run).overlapped
    ensures Balanced(After(run)) && After(run).blocked <= |After(run).runners|
  {
    SerialKeeps(IDLE, run);
  }

  /** A runner goes only between sweeps: the sweeps under way are not cut short. */
  lemma RunnersExitBetweenSweeps(s: State, a: Action)
    requires |Apply(s, a).runners| < |s.runners|
    ensures a.TakeDone? && s.blocked > 0
    ensures Count(Apply(s, a).runners, (r: Runner) => r.Sweeping?) == Count(s.runners, (r: Runner) => r.Sweeping?)
  {
    var i, p := a.i, (r: Runner) => r.Sweeping?;
    CountConcat(s.runners[..i], s.runners[i + 1..], p);
    CountConcat(s.runners[..i], [s.runners[i]] + s.runners[i + 1..], p);
    assert s.runners == s.runners[..i] + ([s.runners[i]] + s.runners[i + 1..]);
    assert ([s.runners[i]] + s.runners[i + 1..])[1..] == s.runners[i + 1..];
  }

  /** In any run at all the balance is off by exactly the writes of isRunning that changed nothing. */
  ghost function Surplus(s: State, run: seq<Action>): int
    decreases |run|
  {
    if run == [] then 0
    else
      (if Enabled(s, run[0]) && run[0].SetStart? && s.isRunning then 1
       else if Enabled(s, run[0]) && run[0].SetStop? && !s.isRunning then -1 else 0)
      + Surplus(Apply(s, run[0]), run[1..])
  }

  lemma {:induction false} SurplusIs(s: State, run: seq<Action>)
    ensures var s' := Exec(Apply, s, run);
            |s'.runners| - Bit(s'.isRunning) - s'.blocked
            == |s.runners| - Bit(s.isRunning) - s.blocked + Surplus(s, run)
    decreases |run|
  {
    if run != [] {
      SurplusIs(Apply(s, run[0]), run[1..]);
    }
  }

  /** The balance holds of a run if and only if its redundant starts and stops cancel out. */
  lemma BalancedIff(run: seq<Action>)
    ensures Balanced(After(run)) <==> Surplus(IDLE, run) == 0
  {
    SurplusIs(IDLE, run);
  }

  /** The balance holds all along a run. */
  predicate AlwaysBalanced(s: State, run: seq<Action>)
    decreases |run|
  {
    Balanced(s) && (run != [] ==> AlwaysBalanced(Apply(s, run[0]), run[1..]))
  }

  /** No Start that has tested the flag finds it set when it sets it, and no Stop finds it clear. */
  predicate NoneRedundant(s: State, run: seq<Action>)
    decreases |run|
  {
    run != [] ==>
      && !(Enabled(s, run[0]) && run[0].SetStart? && s.isRunning)
      && !(Enabled(s, run[0]) && run[0].SetStop? && !s.isRunning)
      && NoneRedundant(Apply(s, run[0]), run[1..])
  }

  lemma {:induction false} AlwaysBalancedFrom(s: State, run: seq<Action>)
    requires Balanced(s)
    ensures AlwaysBalanced(s, run) <==> NoneRedundant(s, run)
    decreases |run|
  {
    if run != [] && Balanced(Apply(s, run[0])) {
      AlwaysBalancedFrom(Apply(s, run[0]), run[1..]);
    }
  }

  /** In any interleaving the balance holds all along if and only if no write of isRunning is redundant. */
  lemma AlwaysBalancedIff(run: seq<Action>)
    ensures AlwaysBalanced(IDLE, run) <==> NoneRedundant(IDLE, run)
  {
    AlwaysBalancedFrom(IDLE, run);
  }

  // ---- one runner at a time

  predicate NeverTwo(s: State, run: seq<Action>)
    decreases |run|
  {
    |s.runners| <= 1 && (run != [] ==> NeverTwo(Apply(s, run[0]), run[1..]))
  }

  /** No Start takes effect while a Stop is still waiting for its runner. */
  predicate NoRestart(s: State, run: seq<Action>)
    decreases |run|
  {
    run != [] ==> !(Enabled(s, run[0]) && run[0].SetStart? && s.blocked > 0) && NoRestart(Apply(s, run[0]), run[1..])
  }

  lemma {:induction false} NeverTwoFrom(s: State, run: seq<Action>)
    requires SerialInv(s) && |s.runners| <= 1 && !Exec(Apply, s, run).overlapped
    ensures NeverTwo(s, run) <==> NoRestart(s, run)
    decreases |run|
  {
    OverlapStays(s, run);
    if run != [] {
      var s1 := Apply(s, run[0]);
      OverlapStays(s1, run[1..]);
      if |s1.runners| <= 1 {
        NeverTwoFrom(s1, run[1..]);
      }
    }
  }

  lemma {:induction false} OverlapStays(s: State, run: seq<Action>)
    ensures s.overlapped ==> Exec(Apply, s, run).overlapped
    decreases |run|
  {
    if run != [] {
      OverlapStays(Apply(s, run[0]), run[1..]);
    }
  }

  /** Without overlapping calls there is at most one runner all along if and only if no Start takes
      effect while a Stop is waiting. */
  lemma NeverTwoIff(run: seq<Action>)
    requires !After(run).overlapped
    ensures NeverTwo(IDLE, run) <==> NoRestart(IDLE, run)
  {
    NeverTwoFrom(IDLE, run);
  }

  // ---- how a Stop returns

  predicate Draining(a: Action) {
    a.EndSweep? || a.TakeDone?
  }

  /** How many of the actions of a run are enabled when their turn comes. */
  function Effective(s: State, run: seq<Action>): nat
    decreases |run|
  {
    if run == [] then 0 else Bit(Enabled(s, run[0])) + Effective(Apply(s, run[0]), run[1..])
  }

  function Busy(s: State): nat {
    s.blocked + Count(s.runners, (r: Runner) => r.Sweeping?)
  }

  lemma DrainingPays(s: State, a: Action)
    requires Draining(a) && Enabled(s, a)
    ensures Busy(Apply(s, a)) + 1 == Busy(s)
  {
    if a.TakeDone? {
      RunnersExitBetweenSweeps(s, a);
    } else {
      CountUpdate(s.runners, a.i, Waiting, (r: Runner) => r.Sweeping?);
    }
  }

  lemma {:induction false} DrainingRun(s: State, run: seq<Action>)
    requires Balanced(s) && forall i :: 0 <= i < |run| ==> Draining(run[i])
    ensures var s' := Exec(Apply, s, run);
            Balanced(s') && s'.isRunning == s.isRunning && Effective(s, run) + Busy(s') == Busy(s)
    decreases |run|
  {
    if run != [] {
      if Enabled(s, run[0]) {
        DrainingPays(s, run[0]);
      }
      assert forall i :: 0 <= i < |run[1..]| ==> run[1..][i] == run[i + 1];
      DrainingRun(Apply(s, run[0]), run[1..]);
    }
  }

  /** Whatever the schedule: if no new call is made and no new sweep is begun, the sweeps end and the
      messages are taken in at most as many steps as there are of both, and when none is left to take
      every Stop has returned. */
  lemma EveryScheduleReturnsStops(s: State, run: seq<Action>)
    requires Balanced(s) && forall i :: 0 <= i < |run| ==> Draining(run[i])
    ensures var s' := Exec(Apply, s, run);
            && Balanced(s') && Effective(s, run) <= Busy(s)
            && ((forall a :: Draining(a) ==> !Enabled(s', a))
                <==> s'.blocked == 0 && s'.runners == if s.isRunning then [Waiting] else [])
  {
    DrainingRun(s, run);
    var s' := Exec(Apply, s, run);
    if forall a :: Draining(a) ==> !Enabled(s', a) {
      assert forall i :: Draining(EndSweep(i)) && Draining(TakeDone(i));
      assert s'.runners != [] ==> !Enabled(s', EndSweep(0)) && !Enabled(s', TakeDone(0));
    }
  }

  /** So one can be given: end the first runner's sweep, have it take a message, and so on. */
  lemma {:induction false} StopsReturn(s: State) returns (run: seq<Action>)
    requires Balanced(s)
    ensures forall i :: 0 <= i < |run| ==> run[i].EndSweep? || run[i].TakeDone?
    ensures var s' := Exec(Apply, s, run);
            s'.blocked == 0 && |s'.runners| == Bit(s.isRunning) && s'.isRunning == s.isRunning
    decreases s.blocked, if s.runners != [] && s.runners[0].Sweeping? then 1 else 0
  {
    if s.blocked == 0 {
      run := [];
    } else {
      var a := if s.runners[0].Sweeping? then EndSweep(0) else TakeDone(0);
      var rest := StopsReturn(Apply(s, a));
      run := [a] + rest;
      assert run[1..] == rest;
    }
  }

  lemma Then(run: seq<Action>, a: Action) returns (longer: seq<Action>)
    ensures After(longer) == Apply(After(run), a)
  {
    longer := run + [a];
    Snoc(Apply, IDLE, run, a);
  }

  /** A whole Start and a whole Stop, with nothing in between. */
  lemma ThenStart(run: seq<Action>) returns (longer: seq<Action>)
    requires var s := After(run); !s.isRunning && s.starting == 0 && s.stopping == 0
    ensures var s := After(run); After(longer) == s.(isRunning := true, runners := s.runners + [Waiting])
  {
    longer := Then(run, TestStart);
    longer := Then(longer, SetStart);
  }

  lemma ThenStop(run: seq<Action>) returns (longer: seq<Action>)
    requires var s := After(run); s.isRunning && s.starting == 0 && s.stopping == 0
    ensures var s := After(run); After(longer) == s.(isRunning := false, blocked := s.blocked + 1)
  {
    longer := Then(run, TestStop);
    longer := Then(longer, SetStop);
  }

  lemma BothStart() returns (run: seq<Action>)
    ensures After(run) == State(true, [Waiting, Waiting], 0, 0, 0, true)
  {
    run := Then([], TestStart);
    run := Then(run, TestStart);
    run := Then(run, SetStart);
    run := Then(run, SetStart);
  }

  /** The first runner takes a Stop's message. */
  lemma OneGoes(s: State)
    requires s.blocked > 0 && s.runners != [] && s.runners[0].Waiting?
    ensures Apply(s, TakeDone(0)) == s.(runners := s.runners[1..], blocked := s.blocked - 1)
  {
    assert s.runners[..0] + s.runners[1..] == s.runners[1..];
  }

  /** Two overlapping Starts leave a runner that no Stop is left to end. */
  lemma OverlappingStartsLeak() returns (run: seq<Action>)
    ensures var s := After(run); s.starting + s.stopping == 0 && !s.isRunning && s.blocked == 0 && |s.runners| == 1
  {
    run := BothStart();
    run := ThenStop(run);
    OneGoes(After(run));
    run := Then(run, TakeDone(0));
  }

  /** Even without overlap a Start made while a Stop is waiting for a sweep runs beside that sweep. */
  lemma RestartRunsBesideSweep() returns (run: seq<Action>)
    ensures var s := After(run); !s.overlapped && s.isRunning && s.runners == [Sweeping, Sweeping]
  {
    run := ThenStart([]);
    run := Then(run, TakeTick(0));
    run := ThenStop(run);
    run := ThenStart(run);
    run := Then(run, TakeTick(1));
  }

  // ---- the object, called by one caller at a time

  class MessageScheduler {
    var isRunning: bool
    var runners: seq<Runner>
    var blocked: nat

    constructor ()
      ensures View() == IDLE
    {
      isRunning, runners, blocked := false, [], 0;
    }

    ghost function View(): State
      reads this
    {
      State(isRunning, runners, blocked, 0, 0, false)
    }

    method Start()
      modifies this
      ensures View() == Apply(Apply(old(View()), TestStart), SetStart)
      ensures Balanced(old(View())) ==> Balanced(View()) && isRunning
    {
      if isRunning {
        return;
      }
      isRunning := true;
      runners := runners + [Waiting];
    }

    /** Returns with the message still to be taken; the caller waits in `blocked`. */
    method Stop()
      modifies this
      ensures View() == Apply(Apply(old(View()), TestStop), SetStop)
      ensures Balanced(old(View())) ==> Balanced(View()) && !isRunning
    {
      if !isRunning {
        return;
      }
      isRunning := false;
      blocked := blocked + 1;
    }
  }
}
