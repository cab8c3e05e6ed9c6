/** Concrete runs that show the exceptions named in the theorems to be real. */
module ExecutionExamples {
  import opened Options
  import opened ProcessOutcome
  import opened ExecutionSystem
  import opened ExecutionTheorems
  import opened ExecutionInvariant
  import opened ExecutionPublication
  import opened ExecutionFinishes

  // ---------------------------------------------------------------- building runs

  ghost predicate Leads(states: seq<State>, steps: seq<Step>, s: State) {
    IsRun(states, steps) && states[|steps|] == s
  }

  /** One more step at the end of a run. */
  lemma Go(states: seq<State>, steps: seq<Step>, s: State, l: Step, n: State) returns (states': seq<State>, steps': seq<Step>)
    requires Leads(states, steps, s) && Enabled(s, l) && n == Next(s, l)
    ensures Leads(states', steps', n) && states' == states + [n] && steps' == steps + [l]
  {
    hide Enabled, Next, Initial;
    states', steps' := states + [n], steps + [l];
    forall i | 0 <= i < |steps'|
      ensures Enabled(states'[i], steps'[i]) && states'[i + 1] == Next(states'[i], steps'[i])
    {
      if i < |steps| {
        assert states'[i] == states[i] && states'[i + 1] == states[i + 1];
      }
    }
  }

  /** Every step of `more` is enabled in turn. */
  ghost predicate CanPlay(s: State, more: seq<Step>)
    decreases |more|
  {
    |more| > 0 ==> Enabled(s, more[0]) && CanPlay(Next(s, more[0]), more[1..])
  }

  ghost function Play(s: State, more: seq<Step>): State
    requires CanPlay(s, more)
    decreases |more|
  {
    if |more| == 0 then s else Play(Next(s, more[0]), more[1..])
  }

  ghost predicate Reaches(s: State, more: seq<Step>, n: State) {
    CanPlay(s, more) && Play(s, more) == n
  }

  lemma OneStep(s: State, l: Step, n: State)
    requires Enabled(s, l) && Next(s, l) == n
    ensures Reaches(s, [l], n)
  {
    assert [l][1..] == [];
    assert CanPlay(n, []);
  }

  lemma {:induction false} Then(s: State, a: seq<Step>, m: State, b: seq<Step>, n: State)
    requires Reaches(s, a, m) && Reaches(m, b, n)
    ensures Reaches(s, a + b, n)
    decreases |a|
  {
    if |a| == 0 {
      assert a + b == b;
    } else {
      assert (a + b)[1..] == a[1..] + b;
      Then(Next(s, a[0]), a[1..], m, b, n);
    }
  }

  lemma {:induction false} PlayedIsRun(states: seq<State>, steps: seq<Step>, s: State, more: seq<Step>)
    returns (states': seq<State>, steps': seq<Step>)
    requires Leads(states, steps, s) && CanPlay(s, more)
    ensures Leads(states', steps', Play(s, more)) && steps' == steps + more && states <= states'
    decreases |more|
  {
    hide Enabled, Next, IsRun;
    if |more| == 0 {
      states', steps' := states, steps;
      assert steps + more == steps;
    } else {
      states', steps' := Go(states, steps, s, more[0], Next(s, more[0]));
      states', steps' := PlayedIsRun(states', steps', Next(s, more[0]), more[1..]);
      assert steps + more == steps + [more[0]] + more[1..];
    }
  }

  // ---------------------------------------------------------------- one execution, two stops

  const UNBORN := Exec(Unstarted, Absent, false, NoChild, None, false, false, None, false, NotSpawned, NotRecording, false,
                       CodingAgent, 0, false, NoHistory)

  const RUNNING := Present(Running, None, None)

  /** The stops of the example: the first asks for Completed, the second for Killed. */
  function Two(first: StopPhase, second: StopPhase): seq<Stop> {
    [Stop(0, Completed, first), Stop(0, Killed, second)]
  }

  function One(e: Exec, adm: Option<AdmissionHolder>, mapW: Option<Id>, first: StopPhase, second: StopPhase): State {
    State(adm, mapW, [e], Two(first, second))
  }

  function Started(e: Exec): Exec {
    e.(start := StartOver, row := RUNNING, registered := true, child := Alive, monitor := Watching, recorder := Recording)
  }

  lemma Launching(e: Exec, adm: Option<AdmissionHolder>, mapW: Option<Id>, p: StopPhase, q: StopPhase, a: StartStep)
    requires StartEnabled(e, 0, adm, mapW, a)
    ensures var f := StartEffect(e, 0, adm, mapW, a);
            Reaches(One(e, adm, mapW, p, q), [Starts(0, a)], One(f.e, f.adm, f.mapW, p, q))
  {
    hide StartEffect, StartEnabled;
    var f := StartEffect(e, 0, adm, mapW, a);
    assert [e][0 := f.e] == [f.e];
    OneStep(One(e, adm, mapW, p, q), Starts(0, a), One(f.e, f.adm, f.mapW, p, q));
  }

  lemma Monitoring(e: Exec, p: StopPhase, q: StopPhase, a: MonitorStep)
    requires MonitorEnabled(e, 0, None, None, false, a) && !a.DispatchLock? && !e.monitor.LaunchingNext? && !e.monitor.LaunchingDispatch?
    ensures Reaches(One(e, None, None, p, q), [Monitors(0, a)],
                    One(MonitorSideEffect(e, a).(monitor := MonitorPhaseAfter(e, 0, None, None, false, a)), None, None, p, q))
  {
    var s := One(e, None, None, p, q);
    assert LaunchOver(s, 0) == false;
    hide MonitorSideEffect, MonitorPhaseAfter, MonitorEnabled;
    var f := MonitorEffect(e, 0, None, None, false, a);
    assert [e][0 := f.e] == [f.e];
    OneStep(s, Monitors(0, a), One(f.e, None, None, p, q));
  }

  lemma Sealing(e: Exec, p: StopPhase, q: StopPhase)
    requires e.recorder.Recording?
    ensures Reaches(One(e, None, None, p, q), [Records(0, Seal)], One(e.(recorder := Recorded(CaptureComplete)), None, None, p, q))
  {
    OneStep(One(e, None, None, p, q), Records(0, Seal), One(e.(recorder := Recorded(CaptureComplete)), None, None, p, q));
  }

  lemma FirstStops(e: Exec, p: StopPhase, q: StopPhase, a: StopStep)
    requires StopEnabled(Two(p, q)[0], 0, e, None, None, a) && !a.Acquire? && !a.Relookup?
    ensures var st := Two(p, q)[0];
            Reaches(One(e, None, None, p, q), [Stops(0, a)], One(TargetAfter(st, 0, e, a), None, None, PhaseAfter(st, e, a), q))
  {
    hide TargetAfter, PhaseAfter, StopEnabled;
    var st := Two(p, q)[0];
    var f, p' := TargetAfter(st, 0, e, a), PhaseAfter(st, e, a);
    assert [e][0 := f] == [f] && Two(p, q)[0 := st.(phase := p')] == Two(p', q);
    OneStep(One(e, None, None, p, q), Stops(0, a), One(f, None, None, p', q));
  }

  lemma SecondStops(e: Exec, adm: Option<AdmissionHolder>, p: StopPhase, q: StopPhase, a: StopStep)
    requires StopEnabled(Two(p, q)[1], 1, e, adm, None, a)
    ensures var st := Two(p, q)[1];
            Reaches(One(e, adm, None, p, q), [Stops(1, a)],
                    One(TargetAfter(st, 1, e, a), AdmissionAfter(st, 1, adm, a), None, p, PhaseAfter(st, e, a)))
  {
    hide TargetAfter, PhaseAfter, StopEnabled, AdmissionAfter;
    var st := Two(p, q)[1];
    var f, q' := TargetAfter(st, 1, e, a), PhaseAfter(st, e, a);
    assert [e][0 := f] == [f] && Two(p, q)[1 := st.(phase := q')] == Two(p, q');
    OneStep(One(e, adm, None, p, q), Stops(1, a), One(f, AdmissionAfter(st, 1, adm, a), None, p, q'));
  }

  // ---------------------------------------------------------------- the parts of the example

  const LAUNCH := [Starts(0, Admit), Starts(0, CommitRow), Starts(0, BeginSpawn), Starts(0, SpawnOk), Starts(0, LockMap)]

  lemma LaunchPart()
    ensures Reaches(One(UNBORN, None, None, Uncalled, Uncalled), LAUNCH,
                    One(UNBORN.(start := MapHeld, row := RUNNING, child := Alive), Some(ByStart(0)), Some(0), Uncalled, Uncalled))
  {
    hide Reaches;
    var s0 := UNBORN;
    var s1 := s0.(start := Admitted);
    var s2 := s1.(start := RowCommitted, row := RUNNING);
    var s3 := s2.(start := Spawning);
    var s4 := s3.(start := AwaitingMap, child := Alive);
    var s5 := s4.(start := MapHeld);
    var adm := Some(ByStart(0));
    var p, q := Uncalled, Uncalled;
    Launching(s0, None, None, p, q, Admit);
    Launching(s1, adm, None, p, q, CommitRow);
    Launching(s2, adm, None, p, q, BeginSpawn);
    Launching(s3, adm, None, p, q, SpawnOk);
    Launching(s4, adm, None, p, q, LockMap);
    FiveSteps(One(s0, None, None, p, q), One(s1, adm, None, p, q), One(s2, adm, None, p, q), One(s3, adm, None, p, q),
              One(s4, adm, None, p, q), One(s5, adm, Some(0), p, q), LAUNCH);
  }

  lemma FiveSteps(a: State, b: State, c: State, d: State, e: State, f: State, l: seq<Step>)
    requires |l| == 5 && Reaches(a, [l[0]], b) && Reaches(b, [l[1]], c) && Reaches(c, [l[2]], d) && Reaches(d, [l[3]], e)
    requires Reaches(e, [l[4]], f)
    ensures Reaches(a, l, f)
  {
    hide Reaches;
    Then(a, [l[0]], b, [l[1]], c);
    Then(a, [l[0]] + [l[1]], c, [l[2]], d);
    Then(a, [l[0]] + [l[1]] + [l[2]], d, [l[3]], e);
    Then(a, [l[0]] + [l[1]] + [l[2]] + [l[3]], e, [l[4]], f);
    assert [l[0]] + [l[1]] + [l[2]] + [l[3]] + [l[4]] == l;
  }

  const REGISTRATION :=
    [Starts(0, SpawnMonitor), Starts(0, Register), Starts(0, UnlockMap), Starts(0, ReleaseAdmission(true)), Stops(0, Call)]

  lemma RegistrationPart()
    ensures Reaches(One(UNBORN.(start := MapHeld, row := RUNNING, child := Alive), Some(ByStart(0)), Some(0), Uncalled, Uncalled),
                    REGISTRATION, One(Started(UNBORN), None, None, FirstLookup, Uncalled))
  {
    hide Reaches;
    var adm, p, q := Some(ByStart(0)), Uncalled, Uncalled;
    var s0 := UNBORN.(start := MapHeld, row := RUNNING, child := Alive);
    var s1 := s0.(start := MonitorSpawned, monitor := Watching, recorder := Recording);
    var s2 := s1.(start := Registered, registered := true);
    var s3 := s2.(start := MapReleased);
    var s4 := s3.(start := StartOver);
    Launching(s0, adm, Some(0), p, q, SpawnMonitor);
    Launching(s1, adm, Some(0), p, q, Register);
    Launching(s2, adm, Some(0), p, q, UnlockMap);
    Launching(s3, adm, None, p, q, ReleaseAdmission(true));
    FirstStops(s4, p, q, Call);
    FiveSteps(One(s0, adm, Some(0), p, q), One(s1, adm, Some(0), p, q), One(s2, adm, Some(0), p, q), One(s3, adm, None, p, q),
              One(s4, None, None, p, q), One(s4, None, None, FirstLookup, q), REGISTRATION);
  }

  /** The first stop leaves its intent; watching the child fails, so does killing it, and the recorder sees the end. */
  const LOSS :=
    [Stops(0, Lookup), Stops(0, SetIntent), Monitors(0, SeeExit(Err(()))), Monitors(0, ReapKill(false)), Records(0, Seal)]

  const OWN := Failure(None, None)

  function Intended(): Exec {
    Started(UNBORN).(requested := Some(Completed), hist := NoHistory.(firstStop := Some(0)))
  }

  function Lost(): Exec {
    Intended().(monitor := Draining(OWN), recorder := Recorded(CaptureComplete))
  }

  lemma LossPart()
    ensures Reaches(One(Started(UNBORN), None, None, FirstLookup, Uncalled), LOSS, One(Lost(), None, None, IntentSet, Uncalled))
  {
    hide Reaches;
    var q := Uncalled;
    var s0 := Started(UNBORN);
    var s2 := Intended();
    var s3 := s2.(monitor := ExitSeen(OWN));
    var s4 := s3.(monitor := Draining(OWN));
    FirstStops(s0, FirstLookup, q, Lookup);
    FirstStops(s0, HasEntry, q, SetIntent);
    Monitoring(s2, IntentSet, q, SeeExit(Err(())));
    Monitoring(s3, IntentSet, q, ReapKill(false));
    Sealing(s4, IntentSet, q);
    FiveSteps(One(s0, None, None, FirstLookup, q), One(s0, None, None, HasEntry, q), One(s2, None, None, IntentSet, q),
              One(s3, None, None, IntentSet, q), One(s4, None, None, IntentSet, q), One(Lost(), None, None, IntentSet, q), LOSS);
  }

  /** The monitor decides for the stop, but its write fails; it cleans up and goes. */
  const FAILURE :=
    [Monitors(0, TakeCapture), Monitors(0, LockIntent), Monitors(0, Publish(false)), Monitors(0, UnlockIntent(true)),
     Monitors(0, RemoveEntry)]

  function Departed(): Exec {
    Lost().(monitor := Removed, registered := false,
            hist := NoHistory.(firstStop := Some(0), decision := Some(Decision(OWN, CaptureComplete, Some(Completed)))))
  }

  function Decided(stage: Monitor): Exec {
    Departed().(registered := true, stopLock := true, monitor := stage)
  }

  lemma DecidingForTheStop()
    ensures var captured := Lost().(monitor := Captured(OWN, CaptureComplete));
            && Reaches(One(Lost(), None, None, IntentSet, Uncalled), [Monitors(0, TakeCapture)],
                       One(captured, None, None, IntentSet, Uncalled))
            && Reaches(One(captured, None, None, IntentSet, Uncalled), [Monitors(0, LockIntent)],
                       One(Decided(Deciding(OWN, CaptureComplete)), None, None, IntentSet, Uncalled))
  {
    hide Reaches;
    Monitoring(Lost(), IntentSet, Uncalled, TakeCapture);
    Monitoring(Lost().(monitor := Captured(OWN, CaptureComplete)), IntentSet, Uncalled, LockIntent);
  }

  lemma FailingToPublish()
    ensures Reaches(One(Decided(Deciding(OWN, CaptureComplete)), None, None, IntentSet, Uncalled), [Monitors(0, Publish(false))],
                    One(Decided(Published(false, false)), None, None, IntentSet, Uncalled))
  {
    hide Reaches;
    Monitoring(Decided(Deciding(OWN, CaptureComplete)), IntentSet, Uncalled, Publish(false));
  }

  lemma CleaningUp()
    ensures var cleaning := Decided(Cleanup).(stopLock := false);
            && Reaches(One(Decided(Published(false, false)), None, None, IntentSet, Uncalled), [Monitors(0, UnlockIntent(true))],
                       One(cleaning, None, None, IntentSet, Uncalled))
            && Reaches(One(cleaning, None, None, IntentSet, Uncalled), [Monitors(0, RemoveEntry)],
                       One(Departed(), None, None, IntentSet, Uncalled))
  {
    hide Reaches;
    Monitoring(Decided(Published(false, false)), IntentSet, Uncalled, UnlockIntent(true));
    Monitoring(Decided(Cleanup).(stopLock := false), IntentSet, Uncalled, RemoveEntry);
  }

  lemma FailurePart()
    ensures Reaches(One(Lost(), None, None, IntentSet, Uncalled), FAILURE, One(Departed(), None, None, IntentSet, Uncalled))
  {
    DecidingForTheStop();
    FailingToPublish();
    CleaningUp();
    hide Reaches, Lost, Decided, Departed, One;
    FiveSteps(One(Lost(), None, None, IntentSet, Uncalled),
              One(Lost().(monitor := Captured(OWN, CaptureComplete)), None, None, IntentSet, Uncalled),
              One(Decided(Deciding(OWN, CaptureComplete)), None, None, IntentSet, Uncalled),
              One(Decided(Published(false, false)), None, None, IntentSet, Uncalled),
              One(Decided(Cleanup).(stopLock := false), None, None, IntentSet, Uncalled),
              One(Departed(), None, None, IntentSet, Uncalled), FAILURE);
  }

  /** The second stop finds no entry and writes the row itself. */
  const ORPHAN := [Stops(1, Call), Stops(1, Lookup), Stops(1, Acquire), Stops(1, Relookup), Stops(1, OrphanCas(true))]

  function Orphan(): Exec {
    Departed().(row := Present(Killed, None, None), hist := Departed().hist.(winner := Some(ByOrphanStop(1))))
  }

  lemma OrphanPart()
    ensures Reaches(One(Departed(), None, None, IntentSet, Uncalled), ORPHAN,
                    One(Orphan(), None, None, IntentSet, Returned(StopOk, false)))
  {
    hide Reaches;
    var p, e := IntentSet, Departed();
    SecondStops(e, None, p, Uncalled, Call);
    SecondStops(e, None, p, FirstLookup, Lookup);
    SecondStops(e, None, p, WantsAdmission, Acquire);
    SecondStops(e, Some(ByStop(1)), p, SecondLookup, Relookup);
    SecondStops(e, None, p, Orphaned, OrphanCas(true));
    FiveSteps(One(e, None, None, p, Uncalled), One(e, None, None, p, FirstLookup), One(e, None, None, p, WantsAdmission),
              One(e, Some(ByStop(1)), None, p, SecondLookup), One(e, None, None, p, Orphaned),
              One(Orphan(), None, None, p, Returned(StopOk, false)), ORPHAN);
  }

  // ---------------------------------------------------------------- the example

  lemma FromTheStart() returns (states: seq<State>, steps: seq<Step>)
    ensures Leads(states, steps, One(UNBORN, None, None, Uncalled, Uncalled)) && |steps| == 0
  {
    states, steps := [One(UNBORN, None, None, Uncalled, Uncalled)], [];
  }

  lemma UpToTheIntent() returns (states: seq<State>, steps: seq<Step>)
    ensures Leads(states, steps, One(Lost(), None, None, IntentSet, Uncalled)) && |steps| == 15
  {
    LaunchPart();
    RegistrationPart();
    LossPart();
    hide Started, Lost, One, Leads;
    var s0 := One(UNBORN, None, None, Uncalled, Uncalled);
    var s1 := One(UNBORN.(start := MapHeld, row := RUNNING, child := Alive), Some(ByStart(0)), Some(0), Uncalled, Uncalled);
    var s2 := One(Started(UNBORN), None, None, FirstLookup, Uncalled);
    var s3 := One(Lost(), None, None, IntentSet, Uncalled);
    Then(s0, LAUNCH, s1, REGISTRATION, s2);
    Then(s0, LAUNCH + REGISTRATION, s2, LOSS, s3);
    states, steps := FromTheStart();
    states, steps := PlayedIsRun(states, steps, s0, LAUNCH + REGISTRATION + LOSS);
  }

  /**
   A stop asked for Completed before the monitor decided, and the recording is complete; but the monitor's
   write fails, and a later stop that finds no entry turns the row to Killed. In the same run the child, whose
   exit could not be watched and whose kill failed, is still running when it counts as an orphan's.
   */
  lemma LaterStopWins() returns (states: seq<State>, steps: seq<Step>)
    ensures IsRun(states, steps) && |steps| == 25
    ensures |states[15].execs| == 1 && states[15].execs[0].requested == Some(Completed) && states[15].execs[0].hist.decision == None
    ensures |states[25].execs| == 1 && |states[25].stops| == 2
    ensures var e := states[25].execs[0];
            && e.requested == Some(Completed) && e.recorder == Recorded(CaptureComplete)
            && e.row == Present(Killed, None, None) && e.hist.winner == Some(ByOrphanStop(1))
            && states[25].stops[1] == Stop(0, Killed, Returned(StopOk, false)) && e.child == Alive && !e.registered
    ensures WriteFailed(steps, 25, 0)
  {
    states, steps := UpToTheIntent();
    ghost var before := states;
    assert Leads(states, steps, One(Lost(), None, None, IntentSet, Uncalled));
    FailurePart();
    OrphanPart();
    var s0 := One(Lost(), None, None, IntentSet, Uncalled);
    var s1 := One(Departed(), None, None, IntentSet, Uncalled);
    var s2 := One(Orphan(), None, None, IntentSet, Returned(StopOk, false));
    Then(s0, FAILURE, s1, ORPHAN, s2);
    states, steps := PlayedIsRun(states, steps, s0, FAILURE + ORPHAN);
    hide IsRun, Reaches;
    assert states[15] == before[15] == s0;
    assert steps[17] == Monitors(0, Publish(false));
  }

  // ---------------------------------------------------------------- a dispatched launch that fails

  const FAILED_LAUNCH :=
    [Starts(0, Admit), Starts(0, CommitRow), Starts(0, BeginSpawn), Starts(0, SpawnFails), Starts(0, RecordFailure(true))]

  lemma FailedLaunchPart(e: Exec)
    requires e == UNBORN.(byDispatch := true)
    ensures CanPlay(One(e, None, None, Uncalled, Uncalled), FAILED_LAUNCH)
  {
    var p, q, adm := Uncalled, Uncalled, Some(ByStart(0));
    var e1 := e.(start := Admitted);
    var e2 := e1.(start := RowCommitted, row := RUNNING);
    var e3 := e2.(start := Spawning);
    var e4 := e3.(start := SpawnFailed);
    var f := StartEffect(e4, 0, adm, None, RecordFailure(true));
    Launching(e, None, None, p, q, Admit);
    Launching(e1, adm, None, p, q, CommitRow);
    Launching(e2, adm, None, p, q, BeginSpawn);
    Launching(e3, adm, None, p, q, SpawnFails);
    Launching(e4, adm, None, p, q, RecordFailure(true));
    FiveSteps(One(e, None, None, p, q), One(e1, adm, None, p, q), One(e2, adm, None, p, q), One(e3, adm, None, p, q),
              One(e4, adm, None, p, q), One(f.e, f.adm, f.mapW, p, q), FAILED_LAUNCH);
  }

  /** Starting the child fails for a dispatched execution: the launch and the dispatcher both report it. */
  lemma DispatchedFailureReportsTwice() returns (states: seq<State>, steps: seq<Step>)
    ensures IsRun(states, steps) && |steps| == 5 && forall k :: 0 <= k < |states| ==> |states[k].execs| == 1
    ensures Reported(states, steps, 5, 0) == 2
  {
    var e := UNBORN.(byDispatch := true);
    var s := One(e, None, None, Uncalled, Uncalled);
    states, steps := [s], [];
    assert Leads(states, steps, s);
    FailedLaunchPart(e);
    states, steps := PlayedIsRun(states, steps, s, FAILED_LAUNCH);
    hide CanPlay, Play, Inv;
    forall k | 0 <= k < |states|
      ensures |states[k].execs| == 1
    {
      RunKeepsSizes(states, steps, k);
    }
    RunEvolves(states, steps, 0, 4, 0);
    ReportedAtMostTwice(states, steps, 5, 0);
    hide IsRun;
    assert steps[4] == Starts(0, RecordFailure(true));
    assert Reports(states[4], steps[4], 0, TheLaunch) && Reports(states[4], steps[4], 0, TheDispatcher);
  }
}
