/**
 The inductive invariant of the start/stop/exit protocol. It is a conjunction of predicates about
 one execution with the shared locks, one stop call with its target, and the links between them, so
 that every preservation lemma below is about one step of one participant.
 */
module ExecutionInvariant {
  import opened Options
  import opened ProcessOutcome
  import opened ExecutionSystem

  predicate InProgress(p: StartPhase) {
    p != Unstarted && p != StartOver
  }

  predicate HoldsMap(p: StartPhase) {
    p == MapHeld || p == MonitorSpawned || p == Registered
  }

  /** The launch has committed its row and has not yet spawned a monitor. */
  predicate BeforeMonitor(p: StartPhase) {
    p == RowCommitted || p == Spawning || p == SpawnFailed || p == AwaitingMap || p == MapHeld
  }

  /** Position of a monitor phase in the order the task goes through them; a crash can follow any of them. */
  function Stage(m: Monitor): nat {
    match m
    case NotSpawned => 0
    case Watching => 1
    case SignalWantsKill(_) => 2
    case SignalKilling(_) => 3
    case ExitSeen(_) => 4
    case Draining(_) => 5
    case DrainExpired(_) => 6
    case Captured(_, _) => 7
    case Deciding(_, _) => 8
    case Published(_, _) => 9
    case PostNext(_) => 10
    case LaunchingNext(_) => 11
    case PostCommands => 12
    case PostDispatch(_) => 13
    case DispatchHolding(_) => 14
    case LaunchingDispatch(_, _) => 15
    case PostFinalize => 16
    case Cleanup => 17
    case Removed => 18
    case Complete => 19
    case Crashed => 20
  }

  /** The monitor still owns the row: it has yet to make its one attempt to publish. */
  predicate YetToPublish(m: Monitor) {
    1 <= Stage(m) <= 8
  }

  predicate YetToDecide(m: Monitor) {
    Stage(m) <= 7
  }

  predicate InPostWork(m: Monitor) {
    10 <= Stage(m) <= 16
  }

  predicate Gone(m: Monitor) {
    18 <= Stage(m) <= 19
  }

  predicate LockParts(e: Exec, y: Id, adm: Option<AdmissionHolder>, mapW: Option<Id>) {
    && (InProgress(e.start) <==> adm == Some(ByStart(y)))
    && (HoldsMap(e.start) <==> mapW == Some(y))
    && (e.monitor.DispatchHolding? <==> adm == Some(ByMonitorOf(y)))
    && (e.stopLock <==> e.monitor.Deciding? || e.monitor.Published?)
    && (e.childLock == Some(MonitorHolds) <==> e.monitor.SignalKilling?)
  }

  predicate StartParts(e: Exec) {
    && (e.start == Unstarted || e.start == Admitted ==> e.row == Absent && e.monitor.NotSpawned?)
    && (BeforeMonitor(e.start) ==> e.monitor.NotSpawned? && e.row == Present(Running, None, None))
    && (e.start == MonitorSpawned || e.start == Registered || e.start == MapReleased ==> !e.monitor.NotSpawned?)
    && (e.start == MonitorSpawned ==> !Gone(e.monitor))
    && (e.registered <==> !e.monitor.NotSpawned? && !Gone(e.monitor) && e.start != MonitorSpawned)
    && (e.start == Unstarted || e.start == Admitted || e.start == RowCommitted || e.start == Spawning ==> e.child == NoChild)
    && (e.start == AwaitingMap || e.start == MapHeld ==> e.child != NoChild)
    && (e.monitor.NotSpawned? ==>
          e.recorder == NotRecording && e.requested == None && e.childLock == None && e.hist.decision == None)
    && (!e.monitor.NotSpawned? ==> e.row.Present? && e.recorder != NotRecording && e.child != NoChild)
  }

  predicate RowParts(e: Exec) {
    && (e.hist.winner == None <==> !Terminal(e.row))
    && (YetToPublish(e.monitor) ==> e.hist.winner == None && e.row == Present(Running, None, None))
    && (e.hist.winner == Some(ByStarter) ==> e.monitor.NotSpawned? && e.start == StartOver)
    && (e.hist.winner.Some? && e.hist.winner.value.ByOrphanStop? ==>
          e.start == StartOver && (e.monitor.NotSpawned? || Gone(e.monitor)))
    && (e.requested.Some? <==> e.hist.firstStop.Some?)
    && (e.requested.Some? ==> e.requested.value != Running)
  }

  predicate DecisionParts(e: Exec) {
    && (YetToDecide(e.monitor) ==> e.hist.decision == None)
    && (e.hist.decision.Some? ==>
          && OwnOutcome(e.hist.decision.value.own)
          && e.recorder == Recorded(e.hist.decision.value.capture)
          && (e.hist.decision.value.intent.Some? ==> e.requested == e.hist.decision.value.intent))
    && (8 <= Stage(e.monitor) <= 19 ==> e.hist.decision.Some?)
    && (e.hist.winner == Some(ByMonitor) ==>
          && e.hist.decision.Some?
          && var d := e.hist.decision.value; e.row == RowOf(Decide(d.capture, d.intent, d.own)))
    && (e.monitor.Captured? ==> e.recorder == Recorded(e.monitor.capture))
    && (YetToPublish(e.monitor) && !e.monitor.Watching? ==> OwnOutcome(e.monitor.own))
    && (e.monitor.Deciding? ==> e.hist.decision == Some(Decision(e.monitor.own, e.monitor.capture, e.requested)))
    && (e.drainExpired <== e.monitor.DrainExpired?)
  }

  predicate AllowsNext(d: Option<Decision>) {
    d.Some? && d.value.capture == CaptureComplete && d.value.intent == None
  }

  predicate PostParts(e: Exec) {
    && (e.monitor.Published? ==>
          && (e.monitor.won ==> e.hist.winner == Some(ByMonitor))
          && e.monitor.allowNext == AllowsNext(e.hist.decision))
    && (e.monitor.PostNext? ==> e.monitor.allowNext == AllowsNext(e.hist.decision))
    && (InPostWork(e.monitor) ==> e.hist.winner == Some(ByMonitor))
    && (Stage(e.monitor) <= 10 ==> e.hist.nextStarts == 0)
    && e.hist.nextStarts <= 1
    && (e.hist.nextStarts > 0 ==>
          e.hist.winner == Some(ByMonitor) && AllowsNext(e.hist.decision) && ChainContinues(e, true))
    && (Stage(e.monitor) <= 12 ==> e.hist.commandsFinished == 0)
    && e.hist.commandsFinished <= 1
    && (e.hist.commandsFinished > 0 ==> e.hist.winner == Some(ByMonitor) && e.reason == CodingAgent)
    && (Stage(e.monitor) <= 16 ==> e.hist.finalized == 0)
    && e.hist.finalized <= 1
    && (e.hist.finalized > 0 ==> e.hist.winner == Some(ByMonitor))
  }

  predicate ExecOk(e: Exec, y: Id, adm: Option<AdmissionHolder>, mapW: Option<Id>) {
    LockParts(e, y, adm, mapW) && StartParts(e) && RowParts(e) && DecisionParts(e) && PostParts(e)
  }

  predicate OnLivePath(p: StopPhase) {
    p.HasEntry? || p.IntentSet? || p.GraceWait? || p.WantsChild? || p.KillingChild? || p.AwaitingMonitor? || p.ReadingRow?
  }

  predicate LookingUp(p: StopPhase) {
    p.FirstLookup? || p.WantsAdmission? || p.SecondLookup? || p.Orphaned?
  }

  predicate StopStateOk(st: Stop, t: Tid, adm: Option<AdmissionHolder>, e: Exec) {
    && (st.phase.SecondLookup? <==> adm == Some(ByStop(t)))
    && (st.phase.KillingChild? <==> e.childLock == Some(StopHolds(t)))
    && (LookingUp(st.phase) || OnLivePath(st.phase) ==> st.status != Running && e.row.Present?)
    && (st.phase.Orphaned? ==>
          e.start == StartOver && !e.registered && (e.monitor.NotSpawned? || Gone(e.monitor)))
    && (OnLivePath(st.phase) ==> !e.monitor.NotSpawned?)
    && (OnLivePath(st.phase) && !st.phase.HasEntry? ==> e.requested.Some?)
    && (st.phase.GraceWait? ==> e.hasCancel)
    && (st.phase.GraceWait? || st.phase.WantsChild? || st.phase.KillingChild? ==> (e.hasCancel ==> e.cancelled))
    && (st.phase.AwaitingMonitor? ==> e.child == Dead)
    && (st.phase.ReadingRow? ==> e.monitor.Complete?)
    && (st.phase.Returned? && st.phase.result == StopOk ==>
          Terminal(e.row) && (st.phase.live ==> e.monitor.Complete? && e.recorder.Recorded?))
  }

  /** Where an execution's record mentions a stop call, that call exists, is aimed at it and has the recorded status. */
  predicate LinkOk(e: Exec, y: Id, stops: seq<Stop>) {
    && (e.hist.firstStop.Some? ==>
          && e.hist.firstStop.value < |stops| && stops[e.hist.firstStop.value].target == y
          && e.requested == Some(stops[e.hist.firstStop.value].status))
    && (e.hist.winner.Some? && e.hist.winner.value.ByOrphanStop? ==>
          && e.hist.winner.value.t < |stops| && stops[e.hist.winner.value.t].target == y
          && e.row == Present(stops[e.hist.winner.value.t].status, None, None))
    && (e.childLock.Some? && e.childLock.value.StopHolds? ==>
          e.childLock.value.t < |stops| && stops[e.childLock.value.t].target == y)
  }

  /** A monitor that waits on a launch waits on one that has begun. */
  predicate LaunchOk(m: Monitor, execs: seq<Exec>) {
    (m.LaunchingNext? || m.LaunchingDispatch?) ==> m.next < |execs| && execs[m.next].start != Unstarted
  }

  predicate RangeOk(s: State) {
    && (s.adm.Some? ==>
          match s.adm.value
          case ByStart(y) => y < |s.execs|
          case ByMonitorOf(x) => x < |s.execs|
          case ByStop(t) => t < |s.stops|)
    && (s.mapW.Some? ==> s.mapW.value < |s.execs|)
    && (forall t :: 0 <= t < |s.stops| ==> s.stops[t].target < |s.execs|)
  }

  ghost predicate ExecsOk(s: State) {
    forall x :: 0 <= x < |s.execs| ==> ExecOk(s.execs[x], x, s.adm, s.mapW)
  }

  ghost predicate StopsOk(s: State)
    requires RangeOk(s)
  {
    forall t :: 0 <= t < |s.stops| ==> StopStateOk(s.stops[t], t, s.adm, s.execs[s.stops[t].target])
  }

  ghost predicate LinksOk(s: State) {
    forall x :: 0 <= x < |s.execs| ==> LinkOk(s.execs[x], x, s.stops) && LaunchOk(s.execs[x].monitor, s.execs)
  }

  ghost predicate Inv(s: State) {
    RangeOk(s) && ExecsOk(s) && StopsOk(s) && LinksOk(s)
  }

  // ---------------------------------------------------------------- what other participants see

  /** The lock is only moved between being free and being held by `who`. */
  predicate OnlyMoves<T(==)>(before: Option<T>, after: Option<T>, who: T) {
    after == before || ((before == None || before == Some(who)) && (after == None || after == Some(who)))
  }

  /** How one execution may change in a step while every stop call that is not stepping stays well-formed. */
  predicate Evolves(e: Exec, e': Exec) {
    && (e.row.Present? ==> e'.row.Present?)
    && (Terminal(e.row) ==> e'.row == e.row && e'.hist.winner == e.hist.winner)
    && (!e.monitor.NotSpawned? ==> !e'.monitor.NotSpawned?)
    && (e.monitor.Complete? ==> e'.monitor.Complete?)
    && (e.start == StartOver && !e.registered && (e.monitor.NotSpawned? || Gone(e.monitor)) ==>
          e'.start == StartOver && !e'.registered && (e'.monitor.NotSpawned? || Gone(e'.monitor)))
    && (e.requested.Some? ==> e'.requested == e.requested)
    && (e.hist.firstStop.Some? ==> e'.hist.firstStop == e.hist.firstStop)
    && (e.hist.decision.Some? ==> e'.hist.decision == e.hist.decision)
    && (e.requested.Some? && e.hist.decision == None && e'.hist.decision.Some? ==>
          e'.hist.decision.value.intent == e.requested)
    && (e.child == Dead ==> e'.child == Dead)
    && (e.recorder.Recorded? ==> e'.recorder == e.recorder)
    && (e.start != Unstarted ==> e'.start != Unstarted)
    && (e.start == StartOver ==> e'.start == StartOver)
    && (e.cancelled ==> e'.cancelled)
    && e'.hasCancel == e.hasCancel && e'.byDispatch == e.byDispatch && e'.reason == e.reason
  }

  /** A step of the execution itself never takes or gives away a child lock held by a stop call. */
  ghost predicate KeepsStopHolds(e: Exec, e': Exec) {
    forall t: Tid :: (e.childLock == Some(StopHolds(t)) <==> e'.childLock == Some(StopHolds(t)))
  }

  lemma OtherStopKept(st: Stop, t: Tid, adm: Option<AdmissionHolder>, adm': Option<AdmissionHolder>, e: Exec, e': Exec)
    requires StopStateOk(st, t, adm, e)
    requires Evolves(e, e')
    requires e.childLock == Some(StopHolds(t)) <==> e'.childLock == Some(StopHolds(t))
    requires adm == Some(ByStop(t)) <==> adm' == Some(ByStop(t))
    ensures StopStateOk(st, t, adm', e')
  {
  }

  lemma OtherExecKept(e: Exec, z: Id, adm: Option<AdmissionHolder>, adm': Option<AdmissionHolder>,
                      mapW: Option<Id>, mapW': Option<Id>)
    requires ExecOk(e, z, adm, mapW)
    requires adm == Some(ByStart(z)) <==> adm' == Some(ByStart(z))
    requires adm == Some(ByMonitorOf(z)) <==> adm' == Some(ByMonitorOf(z))
    requires mapW == Some(z) <==> mapW' == Some(z)
    ensures ExecOk(e, z, adm', mapW')
  {
  }

  // ---------------------------------------------------------------- one participant's step

  /** What a step of execution y that moved it to f must establish. */
  ghost predicate Kept(e: Exec, y: Id, who: AdmissionHolder, adm: Option<AdmissionHolder>, mapW: Option<Id>, f: Effect) {
    && ExecOk(f.e, y, f.adm, f.mapW) && Evolves(e, f.e) && KeepsStopHolds(e, f.e)
    && OnlyMoves(adm, f.adm, who) && OnlyMoves(mapW, f.mapW, y)
    && f.e.requested == e.requested && f.e.hist.firstStop == e.hist.firstStop
    && (f.e.hist.winner == e.hist.winner || f.e.hist.winner == Some(ByMonitor) || f.e.hist.winner == Some(ByStarter))
    && (f.e.monitor.LaunchingNext? || f.e.monitor.LaunchingDispatch? ==> f.e.monitor == e.monitor)
  }

  /** What a step of stop call t aimed at execution x that moved them to f must establish. */
  predicate StopKept(st: Stop, t: Tid, e: Exec, x: Id, adm: Option<AdmissionHolder>, mapW: Option<Id>, f: StopEffect) {
    && ExecOk(f.e, x, f.adm, mapW) && StopStateOk(f.st, t, f.adm, f.e) && Evolves(e, f.e)
    && OnlyMoves(adm, f.adm, ByStop(t)) && OnlyMoves(e.childLock, f.e.childLock, StopHolds(t))
    && f.st.target == st.target && f.st.status == st.status
  }

  lemma AdmissionKeeps(e: Exec, y: Id, adm: Option<AdmissionHolder>, mapW: Option<Id>, a: StartStep)
    requires a.Admit? || a.Refuse?
    requires ExecOk(e, y, adm, mapW) && StartEnabled(e, y, adm, mapW, a)
    ensures Kept(e, y, ByStart(y), adm, mapW, StartEffect(e, y, adm, mapW, a))
  {
  }

  lemma CommitKeeps(e: Exec, y: Id, adm: Option<AdmissionHolder>, mapW: Option<Id>, a: StartStep)
    requires a.CommitRow? || a.BindFails?
    requires ExecOk(e, y, adm, mapW) && StartEnabled(e, y, adm, mapW, a)
    ensures Kept(e, y, ByStart(y), adm, mapW, StartEffect(e, y, adm, mapW, a))
  {
  }

  lemma SpawnKeeps(e: Exec, y: Id, adm: Option<AdmissionHolder>, mapW: Option<Id>, a: StartStep)
    requires a.BeginSpawn? || a.SpawnOk?
    requires ExecOk(e, y, adm, mapW) && StartEnabled(e, y, adm, mapW, a)
    ensures Kept(e, y, ByStart(y), adm, mapW, StartEffect(e, y, adm, mapW, a))
  {
  }

  lemma SpawnErrorKeeps(e: Exec, y: Id, adm: Option<AdmissionHolder>, mapW: Option<Id>, a: StartStep)
    requires a.SpawnFails? || a.CaptureSetupFails?
    requires ExecOk(e, y, adm, mapW) && StartEnabled(e, y, adm, mapW, a)
    ensures Kept(e, y, ByStart(y), adm, mapW, StartEffect(e, y, adm, mapW, a))
  {
  }

  lemma AbandonKeeps(e: Exec, y: Id, adm: Option<AdmissionHolder>, mapW: Option<Id>, a: StartStep)
    requires a.Abandon?
    requires ExecOk(e, y, adm, mapW) && StartEnabled(e, y, adm, mapW, a)
    ensures Kept(e, y, ByStart(y), adm, mapW, StartEffect(e, y, adm, mapW, a))
  {
  }

  lemma RecordFailureKeeps(e: Exec, y: Id, adm: Option<AdmissionHolder>, mapW: Option<Id>, a: StartStep)
    requires a.RecordFailure?
    requires ExecOk(e, y, adm, mapW) && StartEnabled(e, y, adm, mapW, a)
    ensures Kept(e, y, ByStart(y), adm, mapW, StartEffect(e, y, adm, mapW, a))
  {
  }

  lemma RegistrationKeeps(e: Exec, y: Id, adm: Option<AdmissionHolder>, mapW: Option<Id>, a: StartStep)
    requires a.LockMap? || a.SpawnMonitor?
    requires ExecOk(e, y, adm, mapW) && StartEnabled(e, y, adm, mapW, a)
    ensures Kept(e, y, ByStart(y), adm, mapW, StartEffect(e, y, adm, mapW, a))
  {
  }

  lemma RegisteredKeeps(e: Exec, y: Id, adm: Option<AdmissionHolder>, mapW: Option<Id>, a: StartStep)
    requires a.Register? || a.UnlockMap?
    requires ExecOk(e, y, adm, mapW) && StartEnabled(e, y, adm, mapW, a)
    ensures Kept(e, y, ByStart(y), adm, mapW, StartEffect(e, y, adm, mapW, a))
  {
  }

  lemma ReleaseKeeps(e: Exec, y: Id, adm: Option<AdmissionHolder>, mapW: Option<Id>, a: StartStep)
    requires a.ReleaseAdmission?
    requires ExecOk(e, y, adm, mapW) && StartEnabled(e, y, adm, mapW, a)
    ensures Kept(e, y, ByStart(y), adm, mapW, StartEffect(e, y, adm, mapW, a))
  {
  }

  lemma StartKeeps(e: Exec, y: Id, adm: Option<AdmissionHolder>, mapW: Option<Id>, a: StartStep)
    requires ExecOk(e, y, adm, mapW) && StartEnabled(e, y, adm, mapW, a)
    ensures Kept(e, y, ByStart(y), adm, mapW, StartEffect(e, y, adm, mapW, a))
  {
    match a {
      case Admit => AdmissionKeeps(e, y, adm, mapW, a);
      case Refuse(_) => AdmissionKeeps(e, y, adm, mapW, a);
      case CommitRow => CommitKeeps(e, y, adm, mapW, a);
      case BindFails => CommitKeeps(e, y, adm, mapW, a);
      case BeginSpawn => SpawnKeeps(e, y, adm, mapW, a);
      case SpawnOk => SpawnKeeps(e, y, adm, mapW, a);
      case SpawnFails => SpawnErrorKeeps(e, y, adm, mapW, a);
      case CaptureSetupFails(_) => SpawnErrorKeeps(e, y, adm, mapW, a);
      case Abandon => AbandonKeeps(e, y, adm, mapW, a);
      case RecordFailure(_) => RecordFailureKeeps(e, y, adm, mapW, a);
      case LockMap => RegistrationKeeps(e, y, adm, mapW, a);
      case SpawnMonitor => RegistrationKeeps(e, y, adm, mapW, a);
      case Register => RegisteredKeeps(e, y, adm, mapW, a);
      case UnlockMap => RegisteredKeeps(e, y, adm, mapW, a);
      case ReleaseAdmission(_) => ReleaseKeeps(e, y, adm, mapW, a);
    }
  }

  lemma SignalKeeps(e: Exec, x: Id, adm: Option<AdmissionHolder>, mapW: Option<Id>, launched: bool, a: MonitorStep)
    requires a.SeeSignal? || a.SignalLock?
    requires ExecOk(e, x, adm, mapW) && MonitorEnabled(e, x, adm, mapW, launched, a)
    ensures Kept(e, x, ByMonitorOf(x), adm, mapW, MonitorEffect(e, x, adm, mapW, launched, a))
  {
  }

  lemma SignalKillKeeps(e: Exec, x: Id, adm: Option<AdmissionHolder>, mapW: Option<Id>, launched: bool, a: MonitorStep)
    requires a.SignalKillDone?
    requires ExecOk(e, x, adm, mapW) && MonitorEnabled(e, x, adm, mapW, launched, a)
    ensures Kept(e, x, ByMonitorOf(x), adm, mapW, MonitorEffect(e, x, adm, mapW, launched, a))
  {
  }

  lemma ExitKeeps(e: Exec, x: Id, adm: Option<AdmissionHolder>, mapW: Option<Id>, launched: bool, a: MonitorStep)
    requires a.SeeExit?
    requires ExecOk(e, x, adm, mapW) && MonitorEnabled(e, x, adm, mapW, launched, a)
    ensures Kept(e, x, ByMonitorOf(x), adm, mapW, MonitorEffect(e, x, adm, mapW, launched, a))
  {
  }

  lemma ReapKeeps(e: Exec, x: Id, adm: Option<AdmissionHolder>, mapW: Option<Id>, launched: bool, a: MonitorStep)
    requires a.ReapKill? || a.DrainTimeout?
    requires ExecOk(e, x, adm, mapW) && MonitorEnabled(e, x, adm, mapW, launched, a)
    ensures Kept(e, x, ByMonitorOf(x), adm, mapW, MonitorEffect(e, x, adm, mapW, launched, a))
  {
  }

  lemma CaptureKeeps(e: Exec, x: Id, adm: Option<AdmissionHolder>, mapW: Option<Id>, launched: bool, a: MonitorStep)
    requires a.TakeCapture?
    requires ExecOk(e, x, adm, mapW) && MonitorEnabled(e, x, adm, mapW, launched, a)
    ensures Kept(e, x, ByMonitorOf(x), adm, mapW, MonitorEffect(e, x, adm, mapW, launched, a))
  {
  }

  lemma DecisionKeeps(e: Exec, x: Id, adm: Option<AdmissionHolder>, mapW: Option<Id>, launched: bool, a: MonitorStep)
    requires a.LockIntent?
    requires ExecOk(e, x, adm, mapW) && MonitorEnabled(e, x, adm, mapW, launched, a)
    ensures Kept(e, x, ByMonitorOf(x), adm, mapW, MonitorEffect(e, x, adm, mapW, launched, a))
  {
  }

  lemma PublishKeeps(e: Exec, x: Id, adm: Option<AdmissionHolder>, mapW: Option<Id>, launched: bool, a: MonitorStep)
    requires a.Publish? && a.dbOk
    requires ExecOk(e, x, adm, mapW) && MonitorEnabled(e, x, adm, mapW, launched, a)
    ensures Kept(e, x, ByMonitorOf(x), adm, mapW, MonitorEffect(e, x, adm, mapW, launched, a))
  {
  }

  lemma PublishFailureKeeps(e: Exec, x: Id, adm: Option<AdmissionHolder>, mapW: Option<Id>, launched: bool, a: MonitorStep)
    requires a.Publish? && !a.dbOk
    requires ExecOk(e, x, adm, mapW) && MonitorEnabled(e, x, adm, mapW, launched, a)
    ensures Kept(e, x, ByMonitorOf(x), adm, mapW, MonitorEffect(e, x, adm, mapW, launched, a))
  {
  }

  lemma UnlockLocks(e: Exec, x: Id, adm: Option<AdmissionHolder>, mapW: Option<Id>, launched: bool, a: MonitorStep)
    requires a.UnlockIntent?
    requires ExecOk(e, x, adm, mapW) && MonitorEnabled(e, x, adm, mapW, launched, a)
    ensures var f := MonitorEffect(e, x, adm, mapW, launched, a);
            LockParts(f.e, x, f.adm, f.mapW) && StartParts(f.e)
  {
    hide RowParts, DecisionParts, PostParts;
  }

  lemma UnlockRecords(e: Exec, x: Id, adm: Option<AdmissionHolder>, mapW: Option<Id>, launched: bool, a: MonitorStep)
    requires a.UnlockIntent?
    requires ExecOk(e, x, adm, mapW) && MonitorEnabled(e, x, adm, mapW, launched, a)
    ensures var f := MonitorEffect(e, x, adm, mapW, launched, a);
            RowParts(f.e) && DecisionParts(f.e) && PostParts(f.e)
  {
    hide LockParts;
  }

  lemma UnlockKeeps(e: Exec, x: Id, adm: Option<AdmissionHolder>, mapW: Option<Id>, launched: bool, a: MonitorStep)
    requires a.UnlockIntent?
    requires ExecOk(e, x, adm, mapW) && MonitorEnabled(e, x, adm, mapW, launched, a)
    ensures Kept(e, x, ByMonitorOf(x), adm, mapW, MonitorEffect(e, x, adm, mapW, launched, a))
  {
    UnlockLocks(e, x, adm, mapW, launched, a);
    UnlockRecords(e, x, adm, mapW, launched, a);
    hide RowParts, DecisionParts, PostParts;
  }

  lemma SkipKeeps(e: Exec, x: Id, adm: Option<AdmissionHolder>, mapW: Option<Id>, launched: bool, a: MonitorStep)
    requires a.SkipNext?
    requires ExecOk(e, x, adm, mapW) && MonitorEnabled(e, x, adm, mapW, launched, a)
    ensures Kept(e, x, ByMonitorOf(x), adm, mapW, MonitorEffect(e, x, adm, mapW, launched, a))
  {
  }

  lemma LaunchBackLocks(e: Exec, x: Id, adm: Option<AdmissionHolder>, mapW: Option<Id>, launched: bool, a: MonitorStep)
    requires a.LaunchReturned?
    requires ExecOk(e, x, adm, mapW) && MonitorEnabled(e, x, adm, mapW, launched, a)
    ensures var f := MonitorEffect(e, x, adm, mapW, launched, a);
            LockParts(f.e, x, f.adm, f.mapW) && StartParts(f.e)
  {
    hide RowParts, DecisionParts, PostParts;
  }

  lemma LaunchBackRecords(e: Exec, x: Id, adm: Option<AdmissionHolder>, mapW: Option<Id>, launched: bool, a: MonitorStep)
    requires a.LaunchReturned?
    requires ExecOk(e, x, adm, mapW) && MonitorEnabled(e, x, adm, mapW, launched, a)
    ensures var f := MonitorEffect(e, x, adm, mapW, launched, a);
            RowParts(f.e) && DecisionParts(f.e) && PostParts(f.e)
  {
    hide LockParts;
  }

  lemma LaunchBackKeeps(e: Exec, x: Id, adm: Option<AdmissionHolder>, mapW: Option<Id>, launched: bool, a: MonitorStep)
    requires a.LaunchReturned?
    requires ExecOk(e, x, adm, mapW) && MonitorEnabled(e, x, adm, mapW, launched, a)
    ensures Kept(e, x, ByMonitorOf(x), adm, mapW, MonitorEffect(e, x, adm, mapW, launched, a))
  {
    LaunchBackLocks(e, x, adm, mapW, launched, a);
    LaunchBackRecords(e, x, adm, mapW, launched, a);
    hide RowParts, DecisionParts, PostParts;
  }

  lemma CountersBefore(e: Exec, x: Id, adm: Option<AdmissionHolder>, mapW: Option<Id>)
    requires ExecOk(e, x, adm, mapW)
    ensures e.monitor.PostCommands? ==> e.hist.commandsFinished == 0
    ensures e.monitor.PostFinalize? ==> e.hist.finalized == 0
  {
  }

  /** Post-completion bookkeeping: the two counters move from zero to at most one as the monitor passes them. */
  lemma CountersKeep(e: Exec, x: Id, adm: Option<AdmissionHolder>, mapW: Option<Id>, m: Monitor, commands: nat, finalized: nat)
    requires ExecOk(e, x, adm, mapW)
    requires (e.monitor.PostCommands? && m.PostDispatch?) || (e.monitor.PostFinalize? && m.Cleanup?)
    requires commands == e.hist.commandsFinished || (commands == 1 && m.PostDispatch? && e.reason == CodingAgent)
    requires finalized == e.hist.finalized || (finalized == 1 && m.Cleanup?)
    ensures var e' := e.(monitor := m, hist := e.hist.(commandsFinished := commands, finalized := finalized));
            ExecOk(e', x, adm, mapW) && Evolves(e, e')
  {
  }

  lemma CommandsKeeps(e: Exec, x: Id, adm: Option<AdmissionHolder>, mapW: Option<Id>, launched: bool, a: MonitorStep)
    requires a.FinishCommands?
    requires ExecOk(e, x, adm, mapW) && MonitorEnabled(e, x, adm, mapW, launched, a)
    ensures Kept(e, x, ByMonitorOf(x), adm, mapW, MonitorEffect(e, x, adm, mapW, launched, a))
  {
    hide ExecOk, Evolves;
    CountersBefore(e, x, adm, mapW);
    var h := e.hist;
    CountersKeep(e, x, adm, mapW, PostDispatch(e.dispatchRounds),
                 if e.reason == CodingAgent then h.commandsFinished + 1 else h.commandsFinished, h.finalized);
  }

  lemma DispatchLockKeeps(e: Exec, x: Id, adm: Option<AdmissionHolder>, mapW: Option<Id>, launched: bool, a: MonitorStep)
    requires a.DispatchLock?
    requires ExecOk(e, x, adm, mapW) && MonitorEnabled(e, x, adm, mapW, launched, a)
    ensures Kept(e, x, ByMonitorOf(x), adm, mapW, MonitorEffect(e, x, adm, mapW, launched, a))
  {
  }

  lemma DispatchReleaseKeeps(e: Exec, x: Id, adm: Option<AdmissionHolder>, mapW: Option<Id>, launched: bool, a: MonitorStep)
    requires a.DispatchRelease?
    requires ExecOk(e, x, adm, mapW) && MonitorEnabled(e, x, adm, mapW, launched, a)
    ensures Kept(e, x, ByMonitorOf(x), adm, mapW, MonitorEffect(e, x, adm, mapW, launched, a))
  {
  }

  lemma DispatchEndKeeps(e: Exec, x: Id, adm: Option<AdmissionHolder>, mapW: Option<Id>, launched: bool, a: MonitorStep)
    requires a.DispatchEnd?
    requires ExecOk(e, x, adm, mapW) && MonitorEnabled(e, x, adm, mapW, launched, a)
    ensures Kept(e, x, ByMonitorOf(x), adm, mapW, MonitorEffect(e, x, adm, mapW, launched, a))
  {
  }

  lemma FinalizeKeeps(e: Exec, x: Id, adm: Option<AdmissionHolder>, mapW: Option<Id>, launched: bool, a: MonitorStep)
    requires a.Finalize?
    requires ExecOk(e, x, adm, mapW) && MonitorEnabled(e, x, adm, mapW, launched, a)
    ensures Kept(e, x, ByMonitorOf(x), adm, mapW, MonitorEffect(e, x, adm, mapW, launched, a))
  {
    hide ExecOk, Evolves;
    CountersBefore(e, x, adm, mapW);
    var h := e.hist;
    CountersKeep(e, x, adm, mapW, Cleanup, h.commandsFinished, if a.applies then h.finalized + 1 else h.finalized);
  }

  lemma RemovalLocks(e: Exec, x: Id, adm: Option<AdmissionHolder>, mapW: Option<Id>, launched: bool, a: MonitorStep)
    requires a.RemoveEntry?
    requires ExecOk(e, x, adm, mapW) && MonitorEnabled(e, x, adm, mapW, launched, a)
    ensures var f := MonitorEffect(e, x, adm, mapW, launched, a);
            LockParts(f.e, x, f.adm, f.mapW) && StartParts(f.e)
  {
    hide RowParts, DecisionParts, PostParts;
  }

  lemma RemovalRecords(e: Exec, x: Id, adm: Option<AdmissionHolder>, mapW: Option<Id>, launched: bool, a: MonitorStep)
    requires a.RemoveEntry?
    requires ExecOk(e, x, adm, mapW) && MonitorEnabled(e, x, adm, mapW, launched, a)
    ensures var f := MonitorEffect(e, x, adm, mapW, launched, a);
            RowParts(f.e) && DecisionParts(f.e) && PostParts(f.e)
  {
    hide LockParts;
  }

  lemma RemovalEvolves(e: Exec, x: Id, adm: Option<AdmissionHolder>, mapW: Option<Id>, launched: bool, a: MonitorStep)
    requires a.RemoveEntry?
    requires ExecOk(e, x, adm, mapW) && MonitorEnabled(e, x, adm, mapW, launched, a)
    ensures var f := MonitorEffect(e, x, adm, mapW, launched, a); Evolves(e, f.e) && KeepsStopHolds(e, f.e)
  {
    hide RowParts, DecisionParts, PostParts;
  }

  lemma RemovalKeeps(e: Exec, x: Id, adm: Option<AdmissionHolder>, mapW: Option<Id>, launched: bool, a: MonitorStep)
    requires a.RemoveEntry?
    requires ExecOk(e, x, adm, mapW) && MonitorEnabled(e, x, adm, mapW, launched, a)
    ensures Kept(e, x, ByMonitorOf(x), adm, mapW, MonitorEffect(e, x, adm, mapW, launched, a))
  {
    RemovalLocks(e, x, adm, mapW, launched, a);
    RemovalRecords(e, x, adm, mapW, launched, a);
    RemovalEvolves(e, x, adm, mapW, launched, a);
    hide RowParts, DecisionParts, PostParts, StartParts, Evolves, KeepsStopHolds;
  }

  lemma ResolveLocks(e: Exec, x: Id, adm: Option<AdmissionHolder>, mapW: Option<Id>, launched: bool, a: MonitorStep)
    requires a.Resolve?
    requires ExecOk(e, x, adm, mapW) && MonitorEnabled(e, x, adm, mapW, launched, a)
    ensures var f := MonitorEffect(e, x, adm, mapW, launched, a);
            LockParts(f.e, x, f.adm, f.mapW) && StartParts(f.e)
  {
    hide RowParts, DecisionParts, PostParts;
  }

  lemma ResolveRecords(e: Exec, x: Id, adm: Option<AdmissionHolder>, mapW: Option<Id>, launched: bool, a: MonitorStep)
    requires a.Resolve?
    requires ExecOk(e, x, adm, mapW) && MonitorEnabled(e, x, adm, mapW, launched, a)
    ensures var f := MonitorEffect(e, x, adm, mapW, launched, a);
            RowParts(f.e) && DecisionParts(f.e) && PostParts(f.e)
  {
    hide LockParts;
  }

  lemma ResolveKeeps(e: Exec, x: Id, adm: Option<AdmissionHolder>, mapW: Option<Id>, launched: bool, a: MonitorStep)
    requires a.Resolve?
    requires ExecOk(e, x, adm, mapW) && MonitorEnabled(e, x, adm, mapW, launched, a)
    ensures Kept(e, x, ByMonitorOf(x), adm, mapW, MonitorEffect(e, x, adm, mapW, launched, a))
  {
    ResolveLocks(e, x, adm, mapW, launched, a);
    ResolveRecords(e, x, adm, mapW, launched, a);
    hide RowParts, DecisionParts, PostParts;
  }

  lemma CrashLocks(e: Exec, x: Id, adm: Option<AdmissionHolder>, mapW: Option<Id>, launched: bool, a: MonitorStep)
    requires a.Crash?
    requires ExecOk(e, x, adm, mapW) && MonitorEnabled(e, x, adm, mapW, launched, a)
    ensures var f := MonitorEffect(e, x, adm, mapW, launched, a);
            LockParts(f.e, x, f.adm, f.mapW) && StartParts(f.e)
  {
    hide RowParts, DecisionParts, PostParts;
  }

  lemma CrashRecords(e: Exec, x: Id, adm: Option<AdmissionHolder>, mapW: Option<Id>, launched: bool, a: MonitorStep)
    requires a.Crash?
    requires ExecOk(e, x, adm, mapW) && MonitorEnabled(e, x, adm, mapW, launched, a)
    ensures var f := MonitorEffect(e, x, adm, mapW, launched, a);
            RowParts(f.e) && DecisionParts(f.e) && PostParts(f.e)
  {
    hide LockParts;
  }

  lemma CrashEvolves(e: Exec, x: Id, adm: Option<AdmissionHolder>, mapW: Option<Id>, launched: bool, a: MonitorStep)
    requires a.Crash?
    requires ExecOk(e, x, adm, mapW) && MonitorEnabled(e, x, adm, mapW, launched, a)
    ensures var f := MonitorEffect(e, x, adm, mapW, launched, a); Evolves(e, f.e) && KeepsStopHolds(e, f.e)
  {
    hide RowParts, DecisionParts, PostParts;
  }

  lemma CrashKeeps(e: Exec, x: Id, adm: Option<AdmissionHolder>, mapW: Option<Id>, launched: bool, a: MonitorStep)
    requires a.Crash?
    requires ExecOk(e, x, adm, mapW) && MonitorEnabled(e, x, adm, mapW, launched, a)
    ensures Kept(e, x, ByMonitorOf(x), adm, mapW, MonitorEffect(e, x, adm, mapW, launched, a))
  {
    CrashLocks(e, x, adm, mapW, launched, a);
    CrashRecords(e, x, adm, mapW, launched, a);
    CrashEvolves(e, x, adm, mapW, launched, a);
    hide RowParts, DecisionParts, PostParts, StartParts, Evolves, KeepsStopHolds;
  }

  lemma MonitorKeeps(e: Exec, x: Id, adm: Option<AdmissionHolder>, mapW: Option<Id>, launched: bool, a: MonitorStep)
    requires ExecOk(e, x, adm, mapW) && MonitorEnabled(e, x, adm, mapW, launched, a)
    ensures Kept(e, x, ByMonitorOf(x), adm, mapW, MonitorEffect(e, x, adm, mapW, launched, a))
  {
    match a {
      case SeeSignal(_) => SignalKeeps(e, x, adm, mapW, launched, a);
      case SignalLock => SignalKeeps(e, x, adm, mapW, launched, a);
      case SignalKillDone(_) => SignalKillKeeps(e, x, adm, mapW, launched, a);
      case SeeExit(_) => ExitKeeps(e, x, adm, mapW, launched, a);
      case ReapKill(_) => ReapKeeps(e, x, adm, mapW, launched, a);
      case DrainTimeout => ReapKeeps(e, x, adm, mapW, launched, a);
      case TakeCapture => CaptureKeeps(e, x, adm, mapW, launched, a);
      case LockIntent => DecisionKeeps(e, x, adm, mapW, launched, a);
      case Publish(dbOk) =>
        if dbOk {
          PublishKeeps(e, x, adm, mapW, launched, a);
        } else {
          PublishFailureKeeps(e, x, adm, mapW, launched, a);
        }
      case UnlockIntent(_) => UnlockKeeps(e, x, adm, mapW, launched, a);
      case SkipNext => SkipKeeps(e, x, adm, mapW, launched, a);
      case LaunchReturned => LaunchBackKeeps(e, x, adm, mapW, launched, a);
      case FinishCommands => CommandsKeeps(e, x, adm, mapW, launched, a);
      case DispatchLock => DispatchLockKeeps(e, x, adm, mapW, launched, a);
      case DispatchRelease => DispatchReleaseKeeps(e, x, adm, mapW, launched, a);
      case DispatchEnd => DispatchEndKeeps(e, x, adm, mapW, launched, a);
      case Finalize(_) => FinalizeKeeps(e, x, adm, mapW, launched, a);
      case RemoveEntry => RemovalKeeps(e, x, adm, mapW, launched, a);
      case Resolve => ResolveKeeps(e, x, adm, mapW, launched, a);
      case Crash => CrashKeeps(e, x, adm, mapW, launched, a);
    }
  }

  lemma RecorderKeeps(e: Exec, x: Id, adm: Option<AdmissionHolder>, mapW: Option<Id>, a: RecorderStep)
    requires ExecOk(e, x, adm, mapW) && RecorderEnabled(e, mapW, a)
    ensures Kept(e, x, ByStart(x), adm, mapW, Effect(RecorderEffect(e, a), adm, mapW))
  {
  }

  lemma CallKeeps(st: Stop, t: Tid, e: Exec, x: Id, adm: Option<AdmissionHolder>, mapW: Option<Id>, a: StopStep)
    requires a.Call? || a.Lookup?
    requires ExecOk(e, x, adm, mapW) && StopStateOk(st, t, adm, e) && StopEnabled(st, t, e, adm, mapW, a)
    ensures StopKept(st, t, e, x, adm, mapW, StopEffectOf(st, t, e, adm, a))
  {
  }

  lemma RelookupKeeps(st: Stop, t: Tid, e: Exec, x: Id, adm: Option<AdmissionHolder>, mapW: Option<Id>, a: StopStep)
    requires a.Acquire? || a.Relookup?
    requires ExecOk(e, x, adm, mapW) && StopStateOk(st, t, adm, e) && StopEnabled(st, t, e, adm, mapW, a)
    ensures StopKept(st, t, e, x, adm, mapW, StopEffectOf(st, t, e, adm, a))
  {
  }

  /** Child-lock traffic of stop calls, and the death of the child, leave the rest of the invariant alone. */
  lemma ChildUpdateKeeps(e: Exec, x: Id, adm: Option<AdmissionHolder>, mapW: Option<Id>,
                         holder: Option<ChildHolder>, child: Child)
    requires ExecOk(e, x, adm, mapW) && !e.monitor.NotSpawned?
    requires holder == Some(MonitorHolds) <==> e.childLock == Some(MonitorHolds)
    requires child == e.child || child == Dead
    ensures var e' := e.(childLock := holder, child := child); ExecOk(e', x, adm, mapW) && Evolves(e, e')
  {
  }

  lemma FirstIntentKeeps(e: Exec, x: Id, adm: Option<AdmissionHolder>, mapW: Option<Id>, status: Status, t: Tid)
    requires ExecOk(e, x, adm, mapW) && !e.monitor.NotSpawned? && !e.stopLock && e.requested == None && status != Running
    ensures var e' := e.(requested := Some(status), hist := e.hist.(firstStop := Some(t)));
            ExecOk(e', x, adm, mapW) && Evolves(e, e')
  {
  }

  lemma OrphanRowLocks(e: Exec, x: Id, adm: Option<AdmissionHolder>, mapW: Option<Id>, status: Status, t: Tid)
    requires ExecOk(e, x, adm, mapW) && status != Running
    requires e.start == StartOver && !e.registered && (e.monitor.NotSpawned? || Gone(e.monitor))
    ensures var e' := Cas(e, Present(status, None, None), ByOrphanStop(t));
            LockParts(e', x, adm, mapW) && StartParts(e') && Evolves(e, e')
  {
    hide DecisionParts, PostParts;
  }

  lemma OrphanRowRecords(e: Exec, x: Id, adm: Option<AdmissionHolder>, mapW: Option<Id>, status: Status, t: Tid)
    requires ExecOk(e, x, adm, mapW) && status != Running
    requires e.start == StartOver && !e.registered && (e.monitor.NotSpawned? || Gone(e.monitor))
    ensures var e' := Cas(e, Present(status, None, None), ByOrphanStop(t));
            RowParts(e') && DecisionParts(e') && PostParts(e')
  {
    hide LockParts;
  }

  lemma OrphanRowKeeps(e: Exec, x: Id, adm: Option<AdmissionHolder>, mapW: Option<Id>, status: Status, t: Tid)
    requires ExecOk(e, x, adm, mapW) && status != Running
    requires e.start == StartOver && !e.registered && (e.monitor.NotSpawned? || Gone(e.monitor))
    ensures var e' := Cas(e, Present(status, None, None), ByOrphanStop(t)); ExecOk(e', x, adm, mapW) && Evolves(e, e')
  {
    OrphanRowLocks(e, x, adm, mapW, status, t);
    OrphanRowRecords(e, x, adm, mapW, status, t);
    hide LockParts, StartParts, RowParts, DecisionParts, PostParts, Evolves, Cas;
  }

  lemma OrphanKeepsExec(st: Stop, t: Tid, e: Exec, x: Id, adm: Option<AdmissionHolder>, mapW: Option<Id>, a: StopStep)
    requires a.OrphanCas?
    requires ExecOk(e, x, adm, mapW) && StopStateOk(st, t, adm, e) && StopEnabled(st, t, e, adm, mapW, a)
    ensures var f := StopEffectOf(st, t, e, adm, a);
            ExecOk(f.e, x, f.adm, mapW) && Evolves(e, f.e)
  {
    OrphanRowKeeps(e, x, adm, mapW, st.status, t);
  }

  lemma OrphanKeepsCall(st: Stop, t: Tid, e: Exec, x: Id, adm: Option<AdmissionHolder>, mapW: Option<Id>, a: StopStep)
    requires a.OrphanCas?
    requires ExecOk(e, x, adm, mapW) && StopStateOk(st, t, adm, e) && StopEnabled(st, t, e, adm, mapW, a)
    ensures var f := StopEffectOf(st, t, e, adm, a);
            && StopStateOk(f.st, t, f.adm, f.e) && f.st.target == st.target && f.st.status == st.status
            && OnlyMoves(adm, f.adm, ByStop(t)) && OnlyMoves(e.childLock, f.e.childLock, StopHolds(t))
  {
  }

  lemma IntentKeepsExec(st: Stop, t: Tid, e: Exec, x: Id, adm: Option<AdmissionHolder>, mapW: Option<Id>, a: StopStep)
    requires a.SetIntent?
    requires ExecOk(e, x, adm, mapW) && StopStateOk(st, t, adm, e) && StopEnabled(st, t, e, adm, mapW, a)
    ensures var f := StopEffectOf(st, t, e, adm, a);
            ExecOk(f.e, x, f.adm, mapW) && Evolves(e, f.e)
  {
    if e.requested == None {
      FirstIntentKeeps(e, x, adm, mapW, st.status, t);
    }
  }

  lemma IntentKeepsCall(st: Stop, t: Tid, e: Exec, x: Id, adm: Option<AdmissionHolder>, mapW: Option<Id>, a: StopStep)
    requires a.SetIntent?
    requires ExecOk(e, x, adm, mapW) && StopStateOk(st, t, adm, e) && StopEnabled(st, t, e, adm, mapW, a)
    ensures var f := StopEffectOf(st, t, e, adm, a);
            && StopStateOk(f.st, t, f.adm, f.e) && f.st.target == st.target && f.st.status == st.status
            && OnlyMoves(adm, f.adm, ByStop(t)) && OnlyMoves(e.childLock, f.e.childLock, StopHolds(t))
  {
  }

  lemma CancelKeeps(e: Exec, x: Id, adm: Option<AdmissionHolder>, mapW: Option<Id>)
    requires ExecOk(e, x, adm, mapW)
    ensures ExecOk(e.(cancelled := true), x, adm, mapW) && Evolves(e, e.(cancelled := true)) && Evolves(e, e)
  {
  }

  lemma CheckKeepsExec(st: Stop, t: Tid, e: Exec, x: Id, adm: Option<AdmissionHolder>, mapW: Option<Id>, a: StopStep)
    requires a.Check? || a.GraceDone? || a.GraceTimeout?
    requires ExecOk(e, x, adm, mapW) && StopStateOk(st, t, adm, e) && StopEnabled(st, t, e, adm, mapW, a)
    ensures var f := StopEffectOf(st, t, e, adm, a);
            ExecOk(f.e, x, f.adm, mapW) && Evolves(e, f.e)
  {
    CancelKeeps(e, x, adm, mapW);
    hide ExecOk, Evolves, StopStateOk, PhaseAfter;
  }

  lemma CheckKeepsCall(st: Stop, t: Tid, e: Exec, x: Id, adm: Option<AdmissionHolder>, mapW: Option<Id>, a: StopStep)
    requires a.Check? || a.GraceDone? || a.GraceTimeout?
    requires ExecOk(e, x, adm, mapW) && StopStateOk(st, t, adm, e) && StopEnabled(st, t, e, adm, mapW, a)
    ensures var f := StopEffectOf(st, t, e, adm, a);
            && StopStateOk(f.st, t, f.adm, f.e) && f.st.target == st.target && f.st.status == st.status
            && OnlyMoves(adm, f.adm, ByStop(t)) && OnlyMoves(e.childLock, f.e.childLock, StopHolds(t))
  {
  }

  lemma LockChildKeepsExec(st: Stop, t: Tid, e: Exec, x: Id, adm: Option<AdmissionHolder>, mapW: Option<Id>, a: StopStep)
    requires a.LockChild?
    requires ExecOk(e, x, adm, mapW) && StopStateOk(st, t, adm, e) && StopEnabled(st, t, e, adm, mapW, a)
    ensures var f := StopEffectOf(st, t, e, adm, a);
            ExecOk(f.e, x, f.adm, mapW) && Evolves(e, f.e)
  {
  }

  lemma LockChildKeepsCall(st: Stop, t: Tid, e: Exec, x: Id, adm: Option<AdmissionHolder>, mapW: Option<Id>, a: StopStep)
    requires a.LockChild?
    requires ExecOk(e, x, adm, mapW) && StopStateOk(st, t, adm, e) && StopEnabled(st, t, e, adm, mapW, a)
    ensures var f := StopEffectOf(st, t, e, adm, a);
            && StopStateOk(f.st, t, f.adm, f.e) && f.st.target == st.target && f.st.status == st.status
            && OnlyMoves(adm, f.adm, ByStop(t)) && OnlyMoves(e.childLock, f.e.childLock, StopHolds(t))
  {
  }

  lemma KillKeepsExec(st: Stop, t: Tid, e: Exec, x: Id, adm: Option<AdmissionHolder>, mapW: Option<Id>, a: StopStep)
    requires a.KillDone?
    requires ExecOk(e, x, adm, mapW) && StopStateOk(st, t, adm, e) && StopEnabled(st, t, e, adm, mapW, a)
    ensures var f := StopEffectOf(st, t, e, adm, a);
            ExecOk(f.e, x, f.adm, mapW) && Evolves(e, f.e)
  {
    ChildUpdateKeeps(e, x, adm, mapW, None, Dead);
    ChildUpdateKeeps(e, x, adm, mapW, None, e.child);
  }

  lemma KillKeepsCall(st: Stop, t: Tid, e: Exec, x: Id, adm: Option<AdmissionHolder>, mapW: Option<Id>, a: StopStep)
    requires a.KillDone?
    requires ExecOk(e, x, adm, mapW) && StopStateOk(st, t, adm, e) && StopEnabled(st, t, e, adm, mapW, a)
    ensures var f := StopEffectOf(st, t, e, adm, a);
            && StopStateOk(f.st, t, f.adm, f.e) && f.st.target == st.target && f.st.status == st.status
            && OnlyMoves(adm, f.adm, ByStop(t)) && OnlyMoves(e.childLock, f.e.childLock, StopHolds(t))
  {
  }

  lemma ReturnKeeps(st: Stop, t: Tid, e: Exec, x: Id, adm: Option<AdmissionHolder>, mapW: Option<Id>, a: StopStep)
    requires a.AwaitDone? || a.ReadRow?
    requires ExecOk(e, x, adm, mapW) && StopStateOk(st, t, adm, e) && StopEnabled(st, t, e, adm, mapW, a)
    ensures StopKept(st, t, e, x, adm, mapW, StopEffectOf(st, t, e, adm, a))
  {
  }

  lemma DropKeepsExec(st: Stop, t: Tid, e: Exec, x: Id, adm: Option<AdmissionHolder>, mapW: Option<Id>, a: StopStep)
    requires a.Drop?
    requires ExecOk(e, x, adm, mapW) && StopStateOk(st, t, adm, e) && StopEnabled(st, t, e, adm, mapW, a)
    ensures var f := StopEffectOf(st, t, e, adm, a);
            ExecOk(f.e, x, f.adm, mapW) && Evolves(e, f.e)
  {
    if st.phase.KillingChild? {
      ChildUpdateKeeps(e, x, adm, mapW, None, e.child);
    }
  }

  lemma DropKeepsCall(st: Stop, t: Tid, e: Exec, x: Id, adm: Option<AdmissionHolder>, mapW: Option<Id>, a: StopStep)
    requires a.Drop?
    requires ExecOk(e, x, adm, mapW) && StopStateOk(st, t, adm, e) && StopEnabled(st, t, e, adm, mapW, a)
    ensures var f := StopEffectOf(st, t, e, adm, a);
            && StopStateOk(f.st, t, f.adm, f.e) && f.st.target == st.target && f.st.status == st.status
            && OnlyMoves(adm, f.adm, ByStop(t)) && OnlyMoves(e.childLock, f.e.childLock, StopHolds(t))
  {
  }

  lemma StopKeeps(st: Stop, t: Tid, e: Exec, x: Id, adm: Option<AdmissionHolder>, mapW: Option<Id>, a: StopStep)
    requires ExecOk(e, x, adm, mapW) && StopStateOk(st, t, adm, e) && StopEnabled(st, t, e, adm, mapW, a)
    ensures StopKept(st, t, e, x, adm, mapW, StopEffectOf(st, t, e, adm, a))
  {
    match a {
      case Call => CallKeeps(st, t, e, x, adm, mapW, a);
      case Lookup => CallKeeps(st, t, e, x, adm, mapW, a);
      case Acquire => RelookupKeeps(st, t, e, x, adm, mapW, a);
      case Relookup => RelookupKeeps(st, t, e, x, adm, mapW, a);
      case OrphanCas(_) => OrphanKeepsExec(st, t, e, x, adm, mapW, a); OrphanKeepsCall(st, t, e, x, adm, mapW, a);
      case SetIntent => IntentKeepsExec(st, t, e, x, adm, mapW, a); IntentKeepsCall(st, t, e, x, adm, mapW, a);
      case Check => CheckKeepsExec(st, t, e, x, adm, mapW, a); CheckKeepsCall(st, t, e, x, adm, mapW, a);
      case GraceDone => CheckKeepsExec(st, t, e, x, adm, mapW, a); CheckKeepsCall(st, t, e, x, adm, mapW, a);
      case GraceTimeout => CheckKeepsExec(st, t, e, x, adm, mapW, a); CheckKeepsCall(st, t, e, x, adm, mapW, a);
      case LockChild => LockChildKeepsExec(st, t, e, x, adm, mapW, a); LockChildKeepsCall(st, t, e, x, adm, mapW, a);
      case KillDone(_) => KillKeepsExec(st, t, e, x, adm, mapW, a); KillKeepsCall(st, t, e, x, adm, mapW, a);
      case AwaitDone => ReturnKeeps(st, t, e, x, adm, mapW, a);
      case ReadRow(_) => ReturnKeeps(st, t, e, x, adm, mapW, a);
      case Drop => DropKeepsExec(st, t, e, x, adm, mapW, a); DropKeepsCall(st, t, e, x, adm, mapW, a);
    }
  }
}
