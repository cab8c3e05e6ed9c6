/**
 The protocol cannot deadlock and cannot run for ever. A rank decreases with every step, and as long
 as anything is pending some participant can take a step that does not depend on the good will of the
 child process, on new requests arriving, or on anyone giving up.
 */
module ExecutionProgress {
  import opened Options
  import opened ProcessOutcome
  import opened ExecutionSystem
  import opened ExecutionInvariant
  import opened ExecutionRuns

  // ---------------------------------------------------------------- a rank that every step decreases

  function StartRank(p: StartPhase): nat {
    match p
    case Unstarted => 12
    case Admitted => 11
    case RowCommitted => 10
    case Spawning => 9
    case SpawnFailed => 8
    case AwaitingMap => 7
    case MapHeld => 6
    case MonitorSpawned => 5
    case Registered => 4
    case MapReleased => 3
    case StartOver => 0
  }

  /** Each dispatch round costs at most three steps: taking admission, launching or not, coming back. */
  function MonitorRank(m: Monitor, rounds: nat): nat {
    match m
    case PostDispatch(r) => 10 + 3 * r
    case LaunchingDispatch(_, r) => 11 + 3 * r
    case DispatchHolding(r) => 12 + 3 * r
    case PostFinalize => 5
    case Cleanup => 4
    case Removed => 3
    case Complete => 0
    case Crashed => 0
    case _ => 41 - Stage(m) + 3 * rounds
  }

  function RecorderRank(r: Recorder): nat {
    match r
    case NotRecording => 4
    case Recording => 3
    case ReportingFailure => 2
    case StoppingChild => 1
    case Recorded(_) => 0
  }

  function ChildRank(c: Child): nat {
    if c == NoChild then 2 else if c == Alive then 1 else 0
  }

  function StopRank(p: StopPhase): nat {
    match p
    case Uncalled => 12
    case FirstLookup => 11
    case WantsAdmission => 10
    case SecondLookup => 9
    case Orphaned => 8
    case HasEntry => 8
    case IntentSet => 7
    case GraceWait => 6
    case WantsChild => 5
    case KillingChild => 4
    case AwaitingMonitor => 3
    case ReadingRow => 2
    case Returned(_, _) => 0
  }

  function ExecRank(e: Exec): nat {
    StartRank(e.start) + MonitorRank(e.monitor, e.dispatchRounds) + RecorderRank(e.recorder) + ChildRank(e.child)
  }

  function SumExecs(execs: seq<Exec>): nat {
    if |execs| == 0 then 0 else ExecRank(execs[0]) + SumExecs(execs[1..])
  }

  function SumStops(stops: seq<Stop>): nat {
    if |stops| == 0 then 0 else StopRank(stops[0].phase) + SumStops(stops[1..])
  }

  function Rank(s: State): nat {
    SumExecs(s.execs) + SumStops(s.stops)
  }

  lemma {:induction false} SumExecsUpdate(execs: seq<Exec>, x: nat, e: Exec)
    requires x < |execs|
    ensures SumExecs(execs[x := e]) == SumExecs(execs) - ExecRank(execs[x]) + ExecRank(e)
  {
    if x == 0 {
      assert execs[x := e][1..] == execs[1..];
    } else {
      assert execs[x := e][1..] == execs[1..][x - 1 := e];
      SumExecsUpdate(execs[1..], x - 1, e);
    }
  }

  lemma {:induction false} SumStopsUpdate(stops: seq<Stop>, t: nat, st: Stop)
    requires t < |stops|
    ensures SumStops(stops[t := st]) == SumStops(stops) - StopRank(stops[t].phase) + StopRank(st.phase)
  {
    if t == 0 {
      assert stops[t := st][1..] == stops[1..];
    } else {
      assert stops[t := st][1..] == stops[1..][t - 1 := st];
      SumStopsUpdate(stops[1..], t - 1, st);
    }
  }

  lemma StartDescends(e: Exec, y: Id, adm: Option<AdmissionHolder>, mapW: Option<Id>, a: StartStep)
    requires StartParts(e) && StartEnabled(e, y, adm, mapW, a)
    ensures ExecRank(StartEffect(e, y, adm, mapW, a).e) < ExecRank(e)
  {
  }

  lemma PhaseDescends(e: Exec, x: Id, adm: Option<AdmissionHolder>, mapW: Option<Id>, launched: bool, a: MonitorStep)
    requires MonitorEnabled(e, x, adm, mapW, launched, a)
    ensures MonitorRank(MonitorPhaseAfter(e, x, adm, mapW, launched, a), e.dispatchRounds) < MonitorRank(e.monitor, e.dispatchRounds)
  {
    match a {
      case DispatchLock =>
      case _ =>
    }
  }

  lemma MonitorDescends(e: Exec, x: Id, adm: Option<AdmissionHolder>, mapW: Option<Id>, launched: bool, a: MonitorStep)
    requires StartParts(e) && MonitorEnabled(e, x, adm, mapW, launched, a)
    ensures ExecRank(MonitorEffect(e, x, adm, mapW, launched, a).e) < ExecRank(e)
  {
    SideEffectFrame(e, a);
    PhaseDescends(e, x, adm, mapW, launched, a);
    hide MonitorSideEffect, MonitorPhaseAfter, MonitorRank;
  }

  lemma RecorderDescends(e: Exec, mapW: Option<Id>, a: RecorderStep)
    requires RecorderEnabled(e, mapW, a)
    ensures ExecRank(RecorderEffect(e, a)) < ExecRank(e)
  {
  }

  lemma StopDescends(st: Stop, t: Tid, e: Exec, adm: Option<AdmissionHolder>, mapW: Option<Id>, a: StopStep)
    requires StopStateOk(st, t, adm, e) && StopEnabled(st, t, e, adm, mapW, a)
    ensures StopRank(PhaseAfter(st, e, a)) < StopRank(st.phase)
    ensures ExecRank(TargetAfter(st, t, e, a)) <= ExecRank(e)
  {
  }

  /** Every step of anyone, crashes and abandoned callers included, decreases the rank. */
  lemma RankDecreases(s: State, l: Step)
    requires Inv(s) && Enabled(s, l)
    ensures Rank(Next(s, l)) < Rank(s)
  {
    hide ExecOk, StopStateOk, StartEnabled, MonitorEnabled, StopEnabled, RecorderEnabled, LinksOk;
    hide ExecRank, StopRank, StartEffect, RecorderEffect, TargetAfter, PhaseAfter, MonitorSideEffect, MonitorPhaseAfter;
    match l
    case Starts(y, a) =>
      PartsOf(s, y);
      StartDescends(s.execs[y], y, s.adm, s.mapW, a);
      SumExecsUpdate(s.execs, y, StartEffect(s.execs[y], y, s.adm, s.mapW, a).e);
    case Monitors(x, a) =>
      PartsOf(s, x);
      MonitorDescends(s.execs[x], x, s.adm, s.mapW, LaunchOver(s, x), a);
      SumExecsUpdate(s.execs, x, MonitorEffect(s.execs[x], x, s.adm, s.mapW, LaunchOver(s, x), a).e);
    case Launches(x, y) =>
      LaunchDescends(s.execs[x], s.execs[y], y);
      SumExecsUpdate(s.execs, x, LaunchingEffect(s.execs[x], y));
      SumExecsUpdate(s.execs[x := LaunchingEffect(s.execs[x], y)], y, s.execs[y].(start := Admitted));
    case Records(x, a) =>
      RecorderDescends(s.execs[x], s.mapW, a);
      SumExecsUpdate(s.execs, x, RecorderEffect(s.execs[x], a));
    case ChildExits(x) =>
      ExitDescends(s.execs[x]);
      SumExecsUpdate(s.execs, x, s.execs[x].(child := Dead));
    case Stops(t, a) =>
      var x := s.stops[t].target;
      assert StopStateOk(s.stops[t], t, s.adm, s.execs[x]);
      StopDescends(s.stops[t], t, s.execs[x], s.adm, s.mapW, a);
      var f := StopEffectOf(s.stops[t], t, s.execs[x], s.adm, a);
      SumExecsUpdate(s.execs, x, f.e);
      SumStopsUpdate(s.stops, t, f.st);
  }

  lemma PartsOf(s: State, x: Id)
    requires Inv(s) && x < |s.execs|
    ensures StartParts(s.execs[x])
  {
    assert ExecOk(s.execs[x], x, s.adm, s.mapW);
  }

  lemma LaunchDescends(e: Exec, n: Exec, y: Id)
    requires (e.monitor.PostNext? || e.monitor.DispatchHolding?) && n.start == Unstarted
    ensures ExecRank(LaunchingEffect(e, y)) < ExecRank(e)
    ensures ExecRank(n.(start := Admitted)) < ExecRank(n)
  {
  }

  lemma ExitDescends(e: Exec)
    requires e.child == Alive
    ensures ExecRank(e.(child := Dead)) < ExecRank(e)
  {
  }

  /** No run is longer than the rank of its first state. */
  lemma {:induction false} RunsAreBounded(states: seq<State>, steps: seq<Step>)
    requires IsRun(states, steps)
    ensures |steps| + Rank(states[|steps|]) <= Rank(states[0])
  {
    if |steps| > 0 {
      var n := |steps| - 1;
      RunsAreBounded(states[..|steps|], steps[..n]);
      RunKeepsInv(states, steps, n);
      RankDecreases(states[n], steps[n]);
    }
  }

  // ---------------------------------------------------------------- somebody can always move

  /** Steps that must come sooner or later: they wait for no child, no new request and no failure. */
  predicate Driven(s: State, l: Step) {
    match l
    case Starts(_, a) => !a.Admit?
    case Monitors(_, a) => !a.SeeSignal? && !a.Crash? && !a.DispatchLock?
    case Launches(_, _) => false
    case Records(x, a) =>
      a.LookupChild? || a.KillChild? || (a.Fail? && x < |s.execs| && s.execs[x].drainExpired)
    case ChildExits(_) => false
    case Stops(_, a) => !a.Call? && !a.Drop?
  }

  predicate CanMove(s: State, l: Step) {
    Enabled(s, l) && Driven(s, l)
  }

  predicate QuietExec(e: Exec) {
    && (e.start == Unstarted || e.start == StartOver)
    && (e.monitor.NotSpawned? || e.monitor.Complete? || e.monitor.Crashed? || (e.monitor.Watching? && e.child == Alive))
    && !e.recorder.ReportingFailure? && !e.recorder.StoppingChild?
  }

  predicate QuietStopCall(st: Stop) {
    st.phase.Uncalled? || st.phase.Returned?
  }

  /** Nothing is pending: at most some children are running normally under their monitors. */
  ghost predicate Quiescent(s: State) {
    && s.adm == None && s.mapW == None
    && (forall x :: 0 <= x < |s.execs| ==> QuietExec(s.execs[x]))
    && (forall t :: 0 <= t < |s.stops| ==> QuietStopCall(s.stops[t]))
  }

  /** The write lock of running_executions is only ever held by a launch that also holds admission. */
  lemma MapInsideAdmission(s: State)
    requires Inv(s)
    ensures s.mapW.Some? ==> s.adm == Some(ByStart(s.mapW.value))
  {
    if s.mapW.Some? {
      assert ExecOk(s.execs[s.mapW.value], s.mapW.value, s.adm, s.mapW);
    }
  }

  /** A launch in progress can always take its next step: the map lock is free or its own. */
  lemma LauncherMoves(s: State, y: Id) returns (l: Step)
    requires Inv(s) && y < |s.execs| && s.adm == Some(ByStart(y))
    ensures CanMove(s, l)
  {
    var e := s.execs[y];
    assert ExecOk(e, y, s.adm, s.mapW);
    MapInsideAdmission(s);
    var a := match e.start
      case Admitted => CommitRow
      case RowCommitted => BeginSpawn
      case Spawning => SpawnOk
      case SpawnFailed => RecordFailure(true)
      case AwaitingMap => LockMap
      case MapHeld => SpawnMonitor
      case MonitorSpawned => Register
      case Registered => UnlockMap
      case _ => ReleaseAdmission(true);
    l := Starts(y, a);
  }

  lemma RecheckMoves(s: State, t: Tid) returns (l: Step)
    requires Inv(s) && t < |s.stops| && s.adm == Some(ByStop(t))
    ensures CanMove(s, l)
  {
    MapInsideAdmission(s);
    assert StopStateOk(s.stops[t], t, s.adm, s.execs[s.stops[t].target]);
    l := Stops(t, Relookup);
  }

  lemma AdmissionHolderMoves(s: State) returns (l: Step)
    requires Inv(s) && s.adm.Some?
    ensures CanMove(s, l)
  {
    match s.adm.value
    case ByStart(y) =>
      l := LauncherMoves(s, y);
    case ByMonitorOf(x) =>
      assert ExecOk(s.execs[x], x, s.adm, s.mapW);
      l := Monitors(x, DispatchRelease);
    case ByStop(t) =>
      l := RecheckMoves(s, t);
  }

  /** Whoever holds one execution's mutexes can give them back. */
  lemma LockHolderMoves(s: State, x: Id) returns (l: Step)
    requires Inv(s) && x < |s.execs| && (s.execs[x].childLock.Some? || s.execs[x].stopLock)
    ensures CanMove(s, l)
  {
    var e := s.execs[x];
    assert ExecOk(e, x, s.adm, s.mapW) && LinkOk(e, x, s.stops);
    if e.stopLock {
      l := Monitors(x, if e.monitor.Deciding? then Publish(true) else UnlockIntent(true));
    } else {
      l := ChildLockHolderMoves(s, x);
    }
  }

  lemma ChildLockHolderMoves(s: State, x: Id) returns (l: Step)
    requires Inv(s) && x < |s.execs| && s.execs[x].childLock.Some?
    ensures CanMove(s, l)
  {
    var e := s.execs[x];
    assert ExecOk(e, x, s.adm, s.mapW) && LinkOk(e, x, s.stops);
    if e.childLock == Some(MonitorHolds) {
      l := Monitors(x, SignalKillDone(true));
    } else {
      var t := e.childLock.value.t;
      assert StopStateOk(s.stops[t], t, s.adm, e);
      l := Stops(t, KillDone(true));
    }
  }

  lemma RecorderMoves(s: State, x: Id) returns (l: Step)
    requires Inv(s) && x < |s.execs| && s.adm == None && s.execs[x].childLock == None
    requires s.execs[x].recorder.ReportingFailure? || s.execs[x].recorder.StoppingChild?
    ensures CanMove(s, l)
  {
    MapInsideAdmission(s);
    l := Records(x, if s.execs[x].recorder.ReportingFailure? then LookupChild else KillChild(true));
  }

  /** The step a monitor takes next when nothing goes wrong and nothing more is asked of it. */
  function UsualStep(m: Monitor): MonitorStep {
    match m
    case Watching => SeeExit(Ok(Exited(0)))
    case SignalWantsKill(_) => SignalLock
    case ExitSeen(_) => ReapKill(true)
    case Draining(_) => DrainTimeout
    case DrainExpired(_) => TakeCapture
    case Captured(_, _) => LockIntent
    case PostNext(_) => SkipNext
    case PostCommands => FinishCommands
    case PostDispatch(_) => DispatchEnd
    case PostFinalize => Finalize(true)
    case Cleanup => RemoveEntry
    case Removed => Resolve
    case _ => LaunchReturned
  }

  predicate UnderWay(e: Exec) {
    !e.monitor.NotSpawned? && !e.monitor.Complete? && !e.monitor.Crashed? && !(e.monitor.Watching? && e.child == Alive)
  }

  lemma UsualStepEnabled(e: Exec, x: Id, launched: bool)
    requires LockParts(e, x, None, None) && StartParts(e) && e.childLock == None && !e.stopLock && UnderWay(e)
    requires e.monitor.LaunchingNext? || e.monitor.LaunchingDispatch? ==> launched
    requires e.monitor.DrainExpired? ==> e.recorder.Recorded?
    ensures var a := UsualStep(e.monitor);
            MonitorEnabled(e, x, None, None, launched, a) && !a.SeeSignal? && !a.Crash? && !a.DispatchLock?
  {
  }

  /** A launch a monitor waits for is over once admission is free. */
  lemma AwaitedLaunchOver(s: State, x: Id)
    requires Inv(s) && x < |s.execs| && s.adm == None
    requires s.execs[x].monitor.LaunchingNext? || s.execs[x].monitor.LaunchingDispatch?
    ensures LaunchOver(s, x)
  {
    var y := s.execs[x].monitor.next;
    assert LaunchOk(s.execs[x].monitor, s.execs);
    assert ExecOk(s.execs[y], y, s.adm, s.mapW);
  }

  /** With the locks free, a monitor past its child's exit can move, or its recorder can. */
  lemma MonitorMoves(s: State, x: Id) returns (l: Step)
    requires Inv(s) && x < |s.execs| && s.adm == None && s.execs[x].childLock == None && !s.execs[x].stopLock
    requires UnderWay(s.execs[x])
    ensures CanMove(s, l)
  {
    hide MonitorEnabled, UsualStep, UnderWay, LaunchOver;
    MapInsideAdmission(s);
    var e := s.execs[x];
    assert ExecOk(e, x, s.adm, s.mapW);
    if e.monitor.DrainExpired? && e.recorder.Recording? {
      l := Records(x, Fail);
    } else if e.monitor.DrainExpired? && !e.recorder.Recorded? {
      l := RecorderMoves(s, x);
    } else {
      if e.monitor.LaunchingNext? || e.monitor.LaunchingDispatch? {
        AwaitedLaunchOver(s, x);
      }
      UsualStepEnabled(e, x, LaunchOver(s, x));
      l := Monitors(x, UsualStep(e.monitor));
    }
  }

  /** With the locks free, a pending stop call can move, or the monitor it waits for can. */
  lemma StopMoves(s: State, t: Tid) returns (l: Step)
    requires Inv(s) && t < |s.stops| && s.adm == None && !QuietStopCall(s.stops[t])
    requires s.execs[s.stops[t].target].childLock == None && !s.execs[s.stops[t].target].stopLock
    ensures CanMove(s, l)
  {
    MapInsideAdmission(s);
    var st := s.stops[t];
    var e := s.execs[st.target];
    assert StopStateOk(st, t, s.adm, e);
    if st.phase.AwaitingMonitor? && !e.monitor.Complete? && !e.monitor.Crashed? {
      l := MonitorMoves(s, st.target);
      return;
    }
    var a := match st.phase
      case FirstLookup => Lookup
      case WantsAdmission => Acquire
      case Orphaned => OrphanCas(true)
      case HasEntry => SetIntent
      case IntentSet => Check
      case GraceWait => GraceTimeout
      case WantsChild => LockChild
      case AwaitingMonitor => AwaitDone
      case _ => ReadRow(true);
    l := Stops(t, a);
  }

  /** Deadlock freedom: unless nothing at all is pending, some driven step is enabled. */
  lemma SomebodyMoves(s: State) returns (l: Step)
    requires Inv(s) && !Quiescent(s)
    ensures CanMove(s, l)
  {
    hide ExecsOk, StopsOk, LinksOk, CanMove;
    if s.adm.Some? {
      l := AdmissionHolderMoves(s);
    } else if x :| 0 <= x < |s.execs| && (s.execs[x].childLock.Some? || s.execs[x].stopLock) {
      l := LockHolderMoves(s, x);
    } else if t :| 0 <= t < |s.stops| && !QuietStopCall(s.stops[t]) {
      l := StopMoves(s, t);
    } else {
      MapInsideAdmission(s);
      var x :| 0 <= x < |s.execs| && !QuietExec(s.execs[x]);
      l := BusyExecMoves(s, x);
    }
  }

  lemma BusyExecMoves(s: State, x: Id) returns (l: Step)
    requires Inv(s) && x < |s.execs| && s.adm == None && s.execs[x].childLock == None && !s.execs[x].stopLock
    requires !QuietExec(s.execs[x])
    ensures CanMove(s, l)
  {
    assert ExecOk(s.execs[x], x, s.adm, s.mapW);
    if s.execs[x].recorder.ReportingFailure? || s.execs[x].recorder.StoppingChild? {
      l := RecorderMoves(s, x);
    } else {
      l := MonitorMoves(s, x);
    }
  }

  lemma QuiescentOrMoving(s: State)
    requires Inv(s)
    ensures Quiescent(s) || exists l :: CanMove(s, l)
  {
    hide CanMove;
    if !Quiescent(s) {
      var l := SomebodyMoves(s);
    }
  }

  /**
   A run that has nothing driven left to do has nothing pending: all locks are free, every launch is
   over, every monitor is finished, crashed or watching a live child, and every stop call has returned.
   With RunsAreBounded this says that every stop call returns in every run that is continued far enough.
   */
  lemma StuckMeansQuiescent(states: seq<State>, steps: seq<Step>)
    requires IsRun(states, steps)
    requires forall l :: !CanMove(states[|steps|], l)
    ensures Quiescent(states[|steps|])
  {
    RunKeepsInv(states, steps, |steps|);
    QuiescentOrMoving(states[|steps|]);
  }
}
