/**
 The start, stop and exit protocol of crates/local-deployment/src/container.rs as a labelled
 transition system. A state holds every execution the server will ever launch and every stop call
 it will ever receive; the ones that have not begun yet are in their first phase, so a statement
 about all initial states is a statement about any number of executions and callers.

 Three locks are part of the state: the scheduler lock ("admission"), the write lock of
 running_executions, and per execution the requested_stop mutex and the child's write lock. A lock
 that the code holds across an await spans several steps here; one that is taken and dropped
 without an await in between is a single step guarded by the lock being free.
 */
module ExecutionSystem {
  import opened Options
  import opened ProcessOutcome

  type Id = nat
  type Tid = nat

  // ---------------------------------------------------------------- state

  /** Progress of one launch. Every phase from Admitted to MapReleased holds admission. */
  datatype StartPhase =
    | Unstarted
    | Admitted
    | RowCommitted
    | Spawning
    | SpawnFailed
    | AwaitingMap
    | MapHeld
    | MonitorSpawned
    | Registered
    | MapReleased
    | StartOver

  datatype Child = NoChild | Alive | Dead

  datatype ChildHolder = MonitorHolds | StopHolds(t: Tid)

  datatype Recorder =
    | NotRecording
    | Recording
    | ReportingFailure
    | StoppingChild
    | Recorded(result: CaptureResult)

  datatype Monitor =
    | NotSpawned
    | Watching
    | SignalWantsKill(own: Outcome)
    | SignalKilling(own: Outcome)
    | ExitSeen(own: Outcome)
    | Draining(own: Outcome)
    | DrainExpired(own: Outcome)
    | Captured(own: Outcome, capture: CaptureResult)
    | Deciding(own: Outcome, capture: CaptureResult)
    | Published(won: bool, allowNext: bool)
    | PostNext(allowNext: bool)
    | LaunchingNext(next: Id)
    | PostCommands
    | PostDispatch(rounds: nat)
    | DispatchHolding(rounds: nat)
    | LaunchingDispatch(next: Id, rounds: nat)
    | PostFinalize
    | Cleanup
    | Removed
    | Complete
    | Crashed

  /** What the monitor saw when it took requested_stop for the last time. */
  datatype Decision = Decision(own: Outcome, capture: CaptureResult, intent: Option<Status>)

  datatype Winner = ByMonitor | ByStarter | ByOrphanStop(t: Tid)

  /** Bookkeeping that no step is guarded by: it only records what has happened. */
  datatype History = History(
    winner: Option<Winner>,
    firstStop: Option<Tid>,
    decision: Option<Decision>,
    nextStarts: nat,
    commandsFinished: nat,
    finalized: nat)

  datatype Reason = CodingAgent | CleanupScript | OtherReason

  datatype Exec = Exec(
    start: StartPhase,
    row: Row,
    registered: bool,
    child: Child,
    childLock: Option<ChildHolder>,
    hasCancel: bool,
    cancelled: bool,
    requested: Option<Status>,
    stopLock: bool,
    monitor: Monitor,
    recorder: Recorder,
    drainExpired: bool,
    reason: Reason,
    dispatchRounds: nat,
    byDispatch: bool,
    hist: History)

  datatype StopResult = StopOk | StopFailed | StopDropped

  datatype StopPhase =
    | Uncalled
    | FirstLookup
    | WantsAdmission
    | SecondLookup
    | Orphaned
    | HasEntry
    | IntentSet
    | GraceWait
    | WantsChild
    | KillingChild
    | AwaitingMonitor
    | ReadingRow
    | Returned(result: StopResult, live: bool)

  datatype Stop = Stop(target: Id, status: Status, phase: StopPhase)

  datatype AdmissionHolder = ByStart(y: Id) | ByMonitorOf(x: Id) | ByStop(t: Tid)

  datatype State = State(
    adm: Option<AdmissionHolder>,
    mapW: Option<Id>,
    execs: seq<Exec>,
    stops: seq<Stop>)

  /** What one step of one execution may change: the execution itself and the two shared locks. */
  datatype Effect = Effect(e: Exec, adm: Option<AdmissionHolder>, mapW: Option<Id>)

  /** What one step of one stop call may change: the call, its target and admission. */
  datatype StopEffect = StopEffect(st: Stop, e: Exec, adm: Option<AdmissionHolder>)

  /** complete_running_attempt: a compare-and-set on the row from Running. */
  function Cas(e: Exec, row: Row, who: Winner): Exec {
    if e.row.Present? && e.row.status == Running
    then e.(row := row, hist := e.hist.(winner := Some(who)))
    else e
  }

  /** A kill that fails leaves the child as it was; nobody but a stop call looks at the error. */
  function AfterKill(child: Child, ok: bool): Child {
    if ok then Dead else child
  }

  predicate CasWins(e: Exec) {
    e.row.Present? && e.row.status == Running
  }

  // ---------------------------------------------------------------- launching

  datatype StartStep =
    | Admit            // start_execution takes the scheduler lock
    | Refuse(full: bool)  // before a row exists: no slot for another agent, or any other refusal
    | CommitRow
    | BindFails        // no claimed command: the row is set to Failed unconditionally
    | Abandon          // a later database error returns with the row still Running
    | BeginSpawn
    | SpawnFails
    | SpawnOk
    | CaptureSetupFails(killed: bool)
    | RecordFailure(dbOk: bool)
    | LockMap
    | SpawnMonitor
    | Register
    | UnlockMap
    | ReleaseAdmission(ok: bool)  // an error even here: the log store of a fast execution is gone already

  predicate StartEnabled(e: Exec, y: Id, adm: Option<AdmissionHolder>, mapW: Option<Id>, a: StartStep) {
    match a
    case Admit => e.start == Unstarted && adm == None
    case Refuse(_) => e.start == Admitted
    case CommitRow => e.start == Admitted
    case BindFails => e.start == RowCommitted
    case Abandon => e.start == RowCommitted
    case BeginSpawn => e.start == RowCommitted
    case SpawnFails => e.start == Spawning
    case SpawnOk => e.start == Spawning
    case CaptureSetupFails(_) => e.start == Spawning
    case RecordFailure(_) => e.start == SpawnFailed
    case LockMap => e.start == AwaitingMap && mapW == None
    case SpawnMonitor => e.start == MapHeld
    case Register => e.start == MonitorSpawned
    case UnlockMap => e.start == Registered
    case ReleaseAdmission(_) => e.start == MapReleased
  }

  function StartEffect(e: Exec, y: Id, adm: Option<AdmissionHolder>, mapW: Option<Id>, a: StartStep): Effect {
    match a
    case Admit => Effect(e.(start := Admitted), Some(ByStart(y)), mapW)
    case Refuse(_) => Effect(e.(start := StartOver), None, mapW)
    case CommitRow => Effect(e.(start := RowCommitted, row := Present(Running, None, None)), adm, mapW)
    case BindFails =>
      Effect(e.(start := StartOver, row := Present(Failed, None, None),
                hist := e.hist.(winner := Some(ByStarter))), None, mapW)
    case Abandon => Effect(e.(start := StartOver), None, mapW)
    case BeginSpawn => Effect(e.(start := Spawning), adm, mapW)
    case SpawnFails => Effect(e.(start := SpawnFailed), adm, mapW)
    case SpawnOk => Effect(e.(start := AwaitingMap, child := Alive), adm, mapW)
    case CaptureSetupFails(killed) => Effect(e.(start := SpawnFailed, child := AfterKill(Alive, killed)), adm, mapW)
    case RecordFailure(dbOk) =>
      var e' := if dbOk then Cas(e, Present(Failed, None, Some(Classification(Provider("start_error"), None))), ByStarter) else e;
      Effect(e'.(start := StartOver), None, mapW)
    case LockMap => Effect(e.(start := MapHeld), adm, Some(y))
    case SpawnMonitor => Effect(e.(start := MonitorSpawned, monitor := Watching, recorder := Recording), adm, mapW)
    case Register => Effect(e.(start := Registered, registered := true), adm, mapW)
    case UnlockMap => Effect(e.(start := MapReleased), adm, None)
    case ReleaseAdmission(_) => Effect(e.(start := StartOver), None, mapW)
  }

  // ---------------------------------------------------------------- the exit monitor

  datatype MonitorStep =
    | SeeSignal(signal: Result<ExecutorSignal, ()>)
    | SignalLock
    | SignalKillDone(ok: bool)
    | SeeExit(exit: Result<ExitStatus, ()>)
    | ReapKill(ok: bool)
    | DrainTimeout
    | TakeCapture
    | LockIntent
    | Publish(dbOk: bool)
    | UnlockIntent(contextLoaded: bool)
    | SkipNext
    | LaunchReturned
    | FinishCommands
    | DispatchLock
    | DispatchRelease
    | DispatchEnd
    | Finalize(applies: bool)
    | RemoveEntry
    | Resolve
    | Crash

  predicate ChainContinues(e: Exec, allowNext: bool) {
    && allowNext && e.row.Present?
    && ((e.row.status == Completed && e.row.exitCode == Some(0))
        || (e.reason == CleanupScript && e.row.status != Running))
  }

  predicate MayCrash(m: Monitor) {
    !(m.NotSpawned? || m.LaunchingNext? || m.LaunchingDispatch? || m.Removed? || m.Complete? || m.Crashed?)
  }

  predicate MonitorEnabled(e: Exec, x: Id, adm: Option<AdmissionHolder>, mapW: Option<Id>,
                           launched: bool, a: MonitorStep)
  {
    match a
    case SeeSignal(_) => e.monitor.Watching?
    case SignalLock => e.monitor.SignalWantsKill? && e.childLock == None
    case SignalKillDone(_) => e.monitor.SignalKilling?
    case SeeExit(exit) => e.monitor.Watching? && e.childLock == None && (e.child == Dead || exit.Err?)
    case ReapKill(_) => e.monitor.ExitSeen? && e.childLock == None
    case DrainTimeout => e.monitor.Draining?
    case TakeCapture => (e.monitor.Draining? || e.monitor.DrainExpired?) && e.recorder.Recorded?
    case LockIntent => e.monitor.Captured? && !e.stopLock
    case Publish(_) => e.monitor.Deciding?
    case UnlockIntent(_) => e.monitor.Published?
    case SkipNext => e.monitor.PostNext?
    case LaunchReturned => (e.monitor.LaunchingNext? || e.monitor.LaunchingDispatch?) && launched
    case FinishCommands => e.monitor.PostCommands?
    case DispatchLock => e.monitor.PostDispatch? && e.monitor.rounds > 0 && adm == None
    case DispatchRelease => e.monitor.DispatchHolding?
    case DispatchEnd => e.monitor.PostDispatch?
    case Finalize(_) => e.monitor.PostFinalize?
    case RemoveEntry => e.monitor.Cleanup? && mapW == None
    case Resolve => e.monitor.Removed?
    case Crash => MayCrash(e.monitor)
  }

  function MonitorPhaseAfter(e: Exec, x: Id, adm: Option<AdmissionHolder>, mapW: Option<Id>,
                             launched: bool, a: MonitorStep): Monitor
    requires MonitorEnabled(e, x, adm, mapW, launched, a)
  {
    match a
    case SeeSignal(r) => SignalWantsKill(FromExecutorSignal(r))
    case SignalLock => SignalKilling(e.monitor.own)
    case SignalKillDone(_) => ExitSeen(e.monitor.own)
    case SeeExit(r) => ExitSeen(FromExitStatus(r))
    case ReapKill(_) => Draining(e.monitor.own)
    case DrainTimeout => DrainExpired(e.monitor.own)
    case TakeCapture => Captured(e.monitor.own, e.recorder.result)
    case LockIntent => Deciding(e.monitor.own, e.monitor.capture)
    case Publish(dbOk) =>
      Published(dbOk && CasWins(e), e.monitor.capture == CaptureComplete && e.requested == None)
    case UnlockIntent(loaded) => if e.monitor.won && loaded then PostNext(e.monitor.allowNext) else Cleanup
    case SkipNext => PostCommands
    case LaunchReturned => if e.monitor.LaunchingNext? then PostCommands else PostDispatch(e.monitor.rounds)
    case FinishCommands => PostDispatch(e.dispatchRounds)
    case DispatchLock => DispatchHolding(e.monitor.rounds - 1)
    case DispatchRelease => PostDispatch(e.monitor.rounds)
    case DispatchEnd => PostFinalize
    case Finalize(_) => Cleanup
    case RemoveEntry => Removed
    case Resolve => Complete
    case Crash => Crashed
  }

  /** Everything but the monitor's own phase that its step changes in the execution. */
  function MonitorSideEffect(e: Exec, a: MonitorStep): Exec
    requires a.LockIntent? ==> e.monitor.Captured?
    requires a.Publish? ==> e.monitor.Deciding?
  {
    if a.SignalLock? then e.(childLock := Some(MonitorHolds))
    else if a.SignalKillDone? then e.(childLock := None, child := AfterKill(e.child, a.ok))
    else if a.ReapKill? then e.(child := AfterKill(e.child, a.ok))
    else if a.DrainTimeout? then e.(drainExpired := true)
    else if a.LockIntent? then
      e.(stopLock := true, hist := e.hist.(decision := Some(Decision(e.monitor.own, e.monitor.capture, e.requested))))
    else if a.Publish? && a.dbOk then
      Cas(e, RowOf(Decide(e.monitor.capture, e.requested, e.monitor.own)), ByMonitor)
    else if a.UnlockIntent? then e.(stopLock := false)
    else if a.FinishCommands? && e.reason == CodingAgent then
      e.(hist := e.hist.(commandsFinished := e.hist.commandsFinished + 1))
    else if a.Finalize? && a.applies then e.(hist := e.hist.(finalized := e.hist.finalized + 1))
    else if a.RemoveEntry? then e.(registered := false)
    else if a.Crash? then
      e.(stopLock := if e.monitor.Deciding? || e.monitor.Published? then false else e.stopLock,
         childLock := if e.monitor.SignalKilling? then None else e.childLock)
    else e
  }

  function MonitorEffect(e: Exec, x: Id, adm: Option<AdmissionHolder>, mapW: Option<Id>,
                         launched: bool, a: MonitorStep): Effect
    requires MonitorEnabled(e, x, adm, mapW, launched, a)
  {
    Effect(MonitorSideEffect(e, a).(monitor := MonitorPhaseAfter(e, x, adm, mapW, launched, a)),
           if a.DispatchLock? then Some(ByMonitorOf(x))
           else if a.DispatchRelease? || (a.Crash? && e.monitor.DispatchHolding?) then None
           else adm,
           mapW)
  }

  // ---------------------------------------------------------------- the recorder and the child

  datatype RecorderStep = Seal | Fail | Panic | LookupChild | KillChild(ok: bool)

  predicate RecorderEnabled(e: Exec, mapW: Option<Id>, a: RecorderStep) {
    match a
    case Seal => e.recorder.Recording?
    case Fail => e.recorder.Recording?
    case Panic => e.recorder.Recording?
    case LookupChild => e.recorder.ReportingFailure? && mapW == None
    case KillChild(_) => e.recorder.StoppingChild? && e.childLock == None
  }

  function RecorderEffect(e: Exec, a: RecorderStep): Exec {
    match a
    case Seal => e.(recorder := Recorded(CaptureComplete))
    case Fail => e.(recorder := ReportingFailure)
    case Panic => e.(recorder := Recorded(CapturePanicked))
    case LookupChild =>
      if e.registered then e.(recorder := StoppingChild, cancelled := e.cancelled || e.hasCancel)
      else e.(recorder := Recorded(CaptureUnavailable))
    case KillChild(ok) => e.(recorder := Recorded(CaptureUnavailable), child := AfterKill(e.child, ok))
  }

  // ---------------------------------------------------------------- stop calls

  datatype StopStep =
    | Call
    | Lookup
    | Acquire
    | Relookup
    | OrphanCas(dbOk: bool)
    | SetIntent
    | Check
    | GraceDone
    | GraceTimeout
    | LockChild
    | KillDone(ok: bool)
    | AwaitDone
    | ReadRow(dbOk: bool)
    | Drop

  predicate StopEnabled(st: Stop, t: Tid, e: Exec, adm: Option<AdmissionHolder>, mapW: Option<Id>, a: StopStep) {
    match a
    case Call => st.phase.Uncalled? && e.row.Present?
    case Lookup => st.phase.FirstLookup? && mapW == None
    case Acquire => st.phase.WantsAdmission? && adm == None
    case Relookup => st.phase.SecondLookup? && mapW == None
    case OrphanCas(_) => st.phase.Orphaned?
    case SetIntent => st.phase.HasEntry? && !e.stopLock
    case Check => st.phase.IntentSet?
    case GraceDone => st.phase.GraceWait? && (e.monitor.Complete? || e.monitor.Crashed?)
    case GraceTimeout => st.phase.GraceWait?
    case LockChild => st.phase.WantsChild? && e.childLock == None
    case KillDone(_) => st.phase.KillingChild?
    case AwaitDone => st.phase.AwaitingMonitor? && (e.monitor.Complete? || e.monitor.Crashed?)
    case ReadRow(_) => st.phase.ReadingRow?
    case Drop => !st.phase.Uncalled? && !st.phase.Returned?
  }

  function PhaseAfter(st: Stop, e: Exec, a: StopStep): StopPhase {
    match a
    case Call => if st.status == Running then Returned(StopFailed, false) else FirstLookup
    case Lookup => if e.registered then HasEntry else WantsAdmission
    case Acquire => SecondLookup
    case Relookup => if e.registered then HasEntry else Orphaned
    case OrphanCas(dbOk) => Returned(if dbOk then StopOk else StopFailed, false)
    case SetIntent => IntentSet
    case Check => if e.monitor.Complete? then ReadingRow else if e.hasCancel then GraceWait else WantsChild
    case GraceDone => if e.monitor.Complete? then ReadingRow else WantsChild
    case GraceTimeout => WantsChild
    case LockChild => KillingChild
    case KillDone(ok) => if ok then AwaitingMonitor else Returned(StopFailed, true)
    case AwaitDone => if e.monitor.Complete? then ReadingRow else Returned(StopFailed, true)
    case ReadRow(dbOk) => Returned(if dbOk && Terminal(e.row) then StopOk else StopFailed, true)
    case Drop => Returned(StopDropped, false)
  }

  /** The first stop to reach requested_stop leaves its status there; later ones leave it as it is. */
  function WithIntent(e: Exec, t: Tid, status: Status): Exec {
    if e.requested.None?
    then e.(requested := Some(status), hist := e.hist.(firstStop := Some(t)))
    else e
  }

  function TargetAfter(st: Stop, t: Tid, e: Exec, a: StopStep): Exec {
    if a.OrphanCas? && a.dbOk then Cas(e, Present(st.status, None, None), ByOrphanStop(t))
    else if a.SetIntent? then WithIntent(e, t, st.status)
    else if a.Check? && !e.monitor.Complete? && e.hasCancel then e.(cancelled := true)
    else if a.LockChild? then e.(childLock := Some(StopHolds(t)))
    else if a.KillDone? then e.(childLock := None, child := AfterKill(e.child, a.ok))
    else if a.Drop? && st.phase.KillingChild? then e.(childLock := None)
    else e
  }

  function AdmissionAfter(st: Stop, t: Tid, adm: Option<AdmissionHolder>, a: StopStep): Option<AdmissionHolder> {
    if a.Acquire? then Some(ByStop(t))
    else if a.Relookup? || (a.Drop? && st.phase.SecondLookup?) then None
    else adm
  }

  function StopEffectOf(st: Stop, t: Tid, e: Exec, adm: Option<AdmissionHolder>, a: StopStep): StopEffect {
    StopEffect(st.(phase := PhaseAfter(st, e, a)), TargetAfter(st, t, e, a), AdmissionAfter(st, t, adm, a))
  }

  // ---------------------------------------------------------------- the whole system

  datatype Step =
    | Starts(y: Id, start: StartStep)
    | Monitors(x: Id, mon: MonitorStep)
    | Launches(x: Id, y: Id)            // the monitor of x starts y: its next action or a queued command
    | Records(x: Id, rec: RecorderStep)
    | ChildExits(x: Id)
    | Stops(t: Tid, stop: StopStep)

  /** For a monitor waiting on a launch: whether that launch is over. */
  predicate LaunchOver(s: State, x: Id)
    requires x < |s.execs|
  {
    var m := s.execs[x].monitor;
    (m.LaunchingNext? || m.LaunchingDispatch?) && m.next < |s.execs| && s.execs[m.next].start == StartOver
  }

  /** A monitor launches another execution either for its chain or while it holds admission for dispatch. */
  predicate LaunchEnabled(s: State, x: Id, y: Id)
    requires x < |s.execs| && y < |s.execs|
  {
    var e := s.execs[x];
    && x != y && s.execs[y].start == Unstarted
    && ((e.monitor.PostNext? && ChainContinues(e, e.monitor.allowNext) && s.adm == None && !s.execs[y].byDispatch)
        || (e.monitor.DispatchHolding? && s.execs[y].byDispatch))
  }

  function LaunchingEffect(e: Exec, y: Id): Exec
    requires e.monitor.PostNext? || e.monitor.DispatchHolding?
  {
    if e.monitor.PostNext?
    then e.(monitor := LaunchingNext(y), hist := e.hist.(nextStarts := e.hist.nextStarts + 1))
    else e.(monitor := LaunchingDispatch(y, e.monitor.rounds))
  }

  predicate Enabled(s: State, l: Step) {
    match l
    case Starts(y, a) => y < |s.execs| && StartEnabled(s.execs[y], y, s.adm, s.mapW, a)
    case Monitors(x, a) => x < |s.execs| && MonitorEnabled(s.execs[x], x, s.adm, s.mapW, LaunchOver(s, x), a)
    case Launches(x, y) => x < |s.execs| && y < |s.execs| && LaunchEnabled(s, x, y)
    case Records(x, a) => x < |s.execs| && RecorderEnabled(s.execs[x], s.mapW, a)
    case ChildExits(x) => x < |s.execs| && s.execs[x].child == Alive
    case Stops(t, a) =>
      && t < |s.stops| && s.stops[t].target < |s.execs|
      && StopEnabled(s.stops[t], t, s.execs[s.stops[t].target], s.adm, s.mapW, a)
  }

  function Put(s: State, x: Id, f: Effect): State
    requires x < |s.execs|
  {
    s.(adm := f.adm, mapW := f.mapW, execs := s.execs[x := f.e])
  }

  function Next(s: State, l: Step): State
    requires Enabled(s, l)
  {
    match l
    case Starts(y, a) => Put(s, y, StartEffect(s.execs[y], y, s.adm, s.mapW, a))
    case Monitors(x, a) => Put(s, x, MonitorEffect(s.execs[x], x, s.adm, s.mapW, LaunchOver(s, x), a))
    case Launches(x, y) =>
      s.(adm := Some(ByStart(y)),
         execs := s.execs[x := LaunchingEffect(s.execs[x], y)][y := s.execs[y].(start := Admitted)])
    case Records(x, a) => s.(execs := s.execs[x := RecorderEffect(s.execs[x], a)])
    case ChildExits(x) => s.(execs := s.execs[x := s.execs[x].(child := Dead)])
    case Stops(t, a) =>
      var x := s.stops[t].target;
      var f := StopEffectOf(s.stops[t], t, s.execs[x], s.adm, a);
      s.(adm := f.adm, execs := s.execs[x := f.e], stops := s.stops[t := f.st])
  }

  // ---------------------------------------------------------------- initial states and runs

  const NoHistory := History(None, None, None, 0, 0, 0)

  /** Not yet launched, or a Running row left over by a previous server process. */
  predicate Fresh(e: Exec) {
    && !e.registered && e.child == NoChild && e.childLock == None && !e.cancelled && e.requested == None
    && !e.stopLock && e.monitor == NotSpawned && e.recorder == NotRecording && !e.drainExpired
    && e.hist == NoHistory && (e.byDispatch ==> e.reason == CodingAgent)
    && ((e.start == Unstarted && e.row == Absent) || (e.start == StartOver && e.row == Present(Running, None, None)))
  }

  predicate Initial(s: State) {
    && s.adm == None && s.mapW == None
    && (forall x :: 0 <= x < |s.execs| ==> Fresh(s.execs[x]))
    && (forall t :: 0 <= t < |s.stops| ==> s.stops[t].phase == Uncalled && s.stops[t].target < |s.execs|)
  }

  /** A run: a first state and the steps taken from it. */
  ghost predicate IsRun(states: seq<State>, steps: seq<Step>) {
    && |states| == |steps| + 1
    && Initial(states[0])
    && forall i :: 0 <= i < |steps| ==> Enabled(states[i], steps[i]) && states[i + 1] == Next(states[i], steps[i])
  }
}
