/**
 From what a monitor saw to the row it publishes, and from a failed launch to its row: the columns of a
 terminal row in terms of the events of the run.
 */
module ExecutionOutcomes {
  import opened Options
  import opened ProcessOutcome
  import opened ExecutionSystem
  import opened ExecutionInvariant
  import opened ExecutionRuns
  import opened ExecutionTheorems

  /** The monitor sees its executor's signal, or the end of its child. */
  predicate Observes(l: Step, x: Id) {
    l.Monitors? && l.x == x && (l.mon.SeeSignal? || l.mon.SeeExit?)
  }

  /** The row an observation calls for, when nothing else intervenes. */
  predicate ObservedRow(a: MonitorStep, row: Row) {
    match a
    case SeeSignal(Ok(SignalSuccess)) => row == Present(Completed, Some(0), None)
    case SeeSignal(Ok(SignalFailure(c))) => row == Present(Failed, Some(1), c)
    case SeeSignal(Err(_)) => row == Present(Failed, Some(1), None)
    case SeeExit(Ok(Exited(code))) => row == Present(if code == 0 then Completed else Failed, Some(code), None)
    case SeeExit(Ok(Signalled)) => row == Present(Failed, Some(-1), None)
    case SeeExit(Err(_)) => row == Present(Failed, None, None)
    case _ => false
  }

  function Seen(a: MonitorStep): Outcome
    requires a.SeeSignal? || a.SeeExit?
  {
    if a.SeeSignal? then FromExecutorSignal(a.signal) else FromExitStatus(a.exit)
  }

  lemma SeenRow(a: MonitorStep)
    requires a.SeeSignal? || a.SeeExit?
    ensures ObservedRow(a, RowOf(Seen(a)))
  {
  }

  // ---------------------------------------------------------------- the trace of an observation

  function OwnOf(m: Monitor): Option<Outcome> {
    match m
    case SignalWantsKill(own) => Some(own)
    case SignalKilling(own) => Some(own)
    case ExitSeen(own) => Some(own)
    case Draining(own) => Some(own)
    case DrainExpired(own) => Some(own)
    case Captured(own, _) => Some(own)
    case Deciding(own, _) => Some(own)
    case _ => None
  }

  predicate Early(m: Monitor) {
    m.NotSpawned? || m.Watching?
  }

  function DecidedOwn(e: Exec): Option<Outcome> {
    if e.hist.decision.Some? then Some(e.hist.decision.value.own) else None
  }

  /** What an execution holds of the one observation made of it, if any. */
  predicate Traced(e: Exec, seen: Option<MonitorStep>) {
    && (seen.Some? ==> seen.value.SeeSignal? || seen.value.SeeExit?)
    && (Early(e.monitor) ==> seen.None?)
    && (OwnOf(e.monitor).Some? ==> seen.Some? && OwnOf(e.monitor).value == Seen(seen.value))
    && (DecidedOwn(e).Some? ==> seen.Some? && DecidedOwn(e).value == Seen(seen.value))
  }

  /** A step that is no observation: outcomes are only handed on. */
  predicate HandsOn(e: Exec, e': Exec) {
    && (Early(e'.monitor) ==> Early(e.monitor))
    && (OwnOf(e'.monitor).Some? ==> OwnOf(e'.monitor) == OwnOf(e.monitor))
    && (DecidedOwn(e').Some? ==> DecidedOwn(e') == DecidedOwn(e) || DecidedOwn(e') == OwnOf(e.monitor))
  }

  lemma HandedOn(e: Exec, e': Exec, seen: Option<MonitorStep>)
    requires Traced(e, seen) && HandsOn(e, e')
    ensures Traced(e', seen)
  {
  }

  lemma SameHandsOn(e: Exec, e': Exec)
    requires e'.monitor == e.monitor && e'.hist.decision == e.hist.decision
    ensures HandsOn(e, e')
  {
  }

  lemma StartHandsOn(e: Exec, y: Id, adm: Option<AdmissionHolder>, mapW: Option<Id>, a: StartStep)
    requires ExecOk(e, y, adm, mapW) && StartEnabled(e, y, adm, mapW, a)
    ensures HandsOn(e, StartEffect(e, y, adm, mapW, a).e)
  {
    hide LockParts, DecisionParts, PostParts, RowParts;
  }

  lemma PhaseHandsOn(e: Exec, x: Id, adm: Option<AdmissionHolder>, mapW: Option<Id>, launched: bool, a: MonitorStep)
    requires MonitorEnabled(e, x, adm, mapW, launched, a)
    ensures var m := MonitorPhaseAfter(e, x, adm, mapW, launched, a);
            && !Early(m)
            && (a.SeeSignal? || a.SeeExit? ==> Early(e.monitor) && OwnOf(m) == Some(Seen(a)))
            && (!a.SeeSignal? && !a.SeeExit? && OwnOf(m).Some? ==> OwnOf(m) == OwnOf(e.monitor))
    ensures (a.LockIntent? ==> e.monitor.Captured?) && (a.Publish? ==> e.monitor.Deciding?)
  {
    hide FromExecutorSignal, FromExitStatus;
  }

  predicate DecisionKept(e: Exec, f: Exec) {
    f.hist.decision == e.hist.decision
  }

  lemma CasKeepsDecision(e: Exec, row: Row, who: Winner)
    ensures DecisionKept(e, Cas(e, row, who))
  {
  }

  lemma SideEffectDecision(e: Exec, a: MonitorStep)
    requires (a.LockIntent? ==> e.monitor.Captured?) && (a.Publish? ==> e.monitor.Deciding?)
    ensures !a.LockIntent? ==> DecisionKept(e, MonitorSideEffect(e, a))
    ensures a.LockIntent? ==> DecidedOwn(MonitorSideEffect(e, a)) == OwnOf(e.monitor)
  {
    if a.Publish? && a.dbOk {
      CasKeepsDecision(e, RowOf(Decide(e.monitor.capture, e.requested, e.monitor.own)), ByMonitor);
      hide Cas, Decide, RowOf;
    } else {
      hide Cas, Decide, RowOf;
    }
  }

  lemma MonitorHandsOn(e: Exec, x: Id, adm: Option<AdmissionHolder>, mapW: Option<Id>, launched: bool, a: MonitorStep)
    requires MonitorEnabled(e, x, adm, mapW, launched, a) && !a.SeeSignal? && !a.SeeExit?
    ensures HandsOn(e, MonitorEffect(e, x, adm, mapW, launched, a).e)
  {
    hide MonitorEnabled, MonitorPhaseAfter, MonitorSideEffect, OwnOf, Early;
    PhaseHandsOn(e, x, adm, mapW, launched, a);
    SideEffectDecision(e, a);
  }

  /** An observation: the monitor was watching, so it is the first, and its outcome is what was seen. */
  lemma ObservationTraced(e: Exec, x: Id, adm: Option<AdmissionHolder>, mapW: Option<Id>, launched: bool, a: MonitorStep,
                          seen: Option<MonitorStep>)
    requires MonitorEnabled(e, x, adm, mapW, launched, a) && (a.SeeSignal? || a.SeeExit?) && Traced(e, seen)
    ensures seen.None? && Traced(MonitorEffect(e, x, adm, mapW, launched, a).e, Some(a))
  {
    hide MonitorEnabled, MonitorPhaseAfter, MonitorSideEffect, OwnOf, Early, FromExecutorSignal, FromExitStatus;
    PhaseHandsOn(e, x, adm, mapW, launched, a);
    SideEffectDecision(e, a);
  }

  lemma RecorderHandsOn(e: Exec, r: RecorderStep)
    ensures RecorderEffect(e, r).monitor == e.monitor && DecisionKept(e, RecorderEffect(e, r))
  {
  }

  lemma LaunchHandsOn(e: Exec, y: Id)
    ensures e.monitor.PostNext? || e.monitor.DispatchHolding? ==> HandsOn(e, LaunchingEffect(e, y))
  {
  }

  lemma OthersHandOn(e: Exec, y: Id, r: RecorderStep)
    ensures HandsOn(e, RecorderEffect(e, r)) && HandsOn(e, e.(child := Dead)) && HandsOn(e, e.(start := Admitted)) && HandsOn(e, e)
    ensures e.monitor.PostNext? || e.monitor.DispatchHolding? ==> HandsOn(e, LaunchingEffect(e, y))
  {
    hide HandsOn, RecorderEffect, LaunchingEffect;
    RecorderHandsOn(e, r);
    LaunchHandsOn(e, y);
    SameHandsOn(e, RecorderEffect(e, r));
    SameHandsOn(e, e.(child := Dead));
    SameHandsOn(e, e.(start := Admitted));
    SameHandsOn(e, e);
  }

  lemma StopHandsOn(st: Stop, t: Tid, e: Exec, a: StopStep)
    ensures HandsOn(e, TargetAfter(st, t, e, a))
  {
    QuietRecord(st, t, e, a);
    CasKeepsDecision(e, Present(st.status, None, None), ByOrphanStop(t));
    SameHandsOn(e, TargetAfter(st, t, e, a)) by {
      if a.SetIntent? {
        IntentKeepsDecision(e, t, st.status);
      }
      hide Cas, WithIntent;
    }
  }

  lemma IntentKeepsDecision(e: Exec, t: Tid, status: Status)
    ensures DecisionKept(e, WithIntent(e, t, status))
  {
  }

  function SeenNow(l: Step, x: Id, before: Option<MonitorStep>): Option<MonitorStep> {
    if Observes(l, x) then Some(l.mon) else before
  }

  lemma StepTraced(s: State, l: Step, x: Id, seen: Option<MonitorStep>)
    requires Inv(s) && Enabled(s, l) && x < |s.execs| && Traced(s.execs[x], seen)
    ensures Traced(Next(s, l).execs[x], SeenNow(l, x, seen))
    ensures Observes(l, x) ==> seen.None?
  {
    hide ExecOk, StopStateOk, StartEnabled, MonitorEnabled, StopEnabled, Traced, HandsOn, MonitorEffect, StartEffect,
      RecorderEffect, TargetAfter, PhaseAfter, AdmissionAfter, LaunchingEffect, RecorderEnabled;
    var e := s.execs[x];
    var e' := Next(s, l).execs[x];
    assert ExecOk(e, x, s.adm, s.mapW);
    OthersHandOn(e, 0, Seal);
    if Observes(l, x) {
      ObservationTraced(e, x, s.adm, s.mapW, LaunchOver(s, x), l.mon, seen);
    } else {
      match l {
        case Starts(y, a) => if y == x { StartHandsOn(e, x, s.adm, s.mapW, a); }
        case Monitors(z, a) => if z == x { MonitorHandsOn(e, x, s.adm, s.mapW, LaunchOver(s, x), a); }
        case Launches(z, y) => OthersHandOn(e, y, Seal);
        case Records(z, a) => OthersHandOn(e, 0, a);
        case ChildExits(z) =>
        case Stops(t, a) => StopHandsOn(s.stops[t], t, e, a);
      }
      HandedOn(e, e', seen);
    }
  }

  /** The position of the last observation of x in the first i steps. */
  ghost function SeenAt(steps: seq<Step>, i: nat, x: Id): (k: Option<nat>)
    requires i <= |steps|
    ensures k.Some? ==> k.value < i && Observes(steps[k.value], x)
  {
    if i == 0 then None else if Observes(steps[i - 1], x) then Some(i - 1) else SeenAt(steps, i - 1, x)
  }

  ghost function SeenBy(steps: seq<Step>, i: nat, x: Id): Option<MonitorStep>
    requires i <= |steps|
  {
    var k := SeenAt(steps, i, x);
    if k.Some? then Some(steps[k.value].mon) else None
  }

  lemma {:induction false} RunTraced(states: seq<State>, steps: seq<Step>, i: nat, x: Id)
    requires IsRun(states, steps) && i < |states| && x < |states[i].execs|
    ensures Traced(states[i].execs[x], SeenBy(steps, i, x))
    ensures forall q :: 0 <= q < i && Observes(steps[q], x) ==> SeenAt(steps, i, x) == Some(q)
  {
    hide Inv, Initial, Next, Enabled, Traced, Observes;
    if i == 0 {
      FreshTraced(states[0], x);
    } else {
      assert Enabled(states[i - 1], steps[i - 1]) && states[i] == Next(states[i - 1], steps[i - 1]);
      StepKeepsSizes(states[i - 1], steps[i - 1]);
      RunKeepsInv(states, steps, i - 1);
      RunTraced(states, steps, i - 1, x);
      StepTraced(states[i - 1], steps[i - 1], x, SeenBy(steps, i - 1, x));
    }
  }

  lemma FreshTraced(s: State, x: Id)
    requires Initial(s) && x < |s.execs|
    ensures Traced(s.execs[x], None)
  {
    assert Fresh(s.execs[x]);
  }

  // ---------------------------------------------------------------- the published row

  /** A publication with a complete recording and no intent writes the row of the outcome the monitor holds. */
  lemma WritesOwn(e: Exec, x: Id, adm: Option<AdmissionHolder>, mapW: Option<Id>, launched: bool)
    requires ExecOk(e, x, adm, mapW) && e.monitor.Deciding? && e.requested == None && e.recorder == Recorded(CaptureComplete)
    ensures MonitorEffect(e, x, adm, mapW, launched, Publish(true)).e.row == RowOf(e.monitor.own)
    ensures Terminal(RowOf(e.monitor.own)) && OwnOf(e.monitor) == Some(e.monitor.own)
  {
    hide LockParts, StartParts, PostParts;
  }

  /**
   If the monitor's write goes through, the recording is complete and no stop has been requested, then the
   monitor made exactly one observation before, and from then on the row has the columns that call for it.
   */
  lemma PublishedIsObserved(states: seq<State>, steps: seq<Step>, k: nat, i: nat, x: Id) returns (m: nat)
    requires IsRun(states, steps) && k < i < |states| && steps[k] == Monitors(x, Publish(true))
    requires x < |states[k].execs| && states[k].execs[x].requested == None
    requires states[k].execs[x].recorder == Recorded(CaptureComplete)
    ensures m < k && Observes(steps[m], x) && forall q :: 0 <= q < i && Observes(steps[q], x) ==> q == m
    ensures x < |states[i].execs| && ObservedRow(steps[m].mon, states[i].execs[x].row)
  {
    hide ObservedRow;
    assert Enabled(states[k], steps[k]) && states[k + 1] == Next(states[k], steps[k]);
    RunKeepsInv(states, steps, k);
    RunKeepsSizes(states, steps, k);
    RunKeepsSizes(states, steps, k + 1);
    RunKeepsSizes(states, steps, i);
    var e := states[k].execs[x];
    assert ExecOk(e, x, states[k].adm, states[k].mapW);
    RunTraced(states, steps, k, x);
    RunTraced(states, steps, i, x);
    WritesOwn(e, x, states[k].adm, states[k].mapW, LaunchOver(states[k], x));
    hide Inv, ExecOk, MonitorEffect, IsRun, Seen, RowOf;
    assert OwnOf(e.monitor).Some?;
    m := SeenAt(steps, k, x).value;
    SeenRow(steps[m].mon);
    TerminalRowIsFinal(states, steps, k + 1, i, x);
  }

  // ---------------------------------------------------------------- the starter's row

  /** Only a launch that fails writes as the starter, and what it writes is Failed without an exit code. */
  predicate StarterFailed(e: Exec) {
    e.hist.winner == Some(ByStarter) ==> e.row.Present? && e.row.status == Failed && e.row.exitCode == None
  }

  lemma StartStarterFailed(e: Exec, y: Id, adm: Option<AdmissionHolder>, mapW: Option<Id>, a: StartStep)
    requires ExecOk(e, y, adm, mapW) && StartEnabled(e, y, adm, mapW, a) && StarterFailed(e)
    ensures StarterFailed(StartEffect(e, y, adm, mapW, a).e)
  {
    hide LockParts, DecisionParts, PostParts;
  }

  predicate WinnerKept(e: Exec, f: Exec) {
    (f.hist.winner == e.hist.winner && f.row == e.row) || (f.hist.winner.Some? && f.hist.winner != Some(ByStarter))
  }

  lemma CasWinner(e: Exec, row: Row, who: Winner)
    requires who != ByStarter
    ensures WinnerKept(e, Cas(e, row, who))
  {
  }

  lemma MonitorWinner(e: Exec, a: MonitorStep)
    requires (a.LockIntent? ==> e.monitor.Captured?) && (a.Publish? ==> e.monitor.Deciding?)
    ensures WinnerKept(e, MonitorSideEffect(e, a))
  {
    if a.Publish? && a.dbOk {
      CasWinner(e, RowOf(Decide(e.monitor.capture, e.requested, e.monitor.own)), ByMonitor);
      hide Cas, Decide, RowOf;
    } else {
      hide Cas, Decide, RowOf;
    }
  }

  lemma StopWinner(st: Stop, t: Tid, e: Exec, a: StopStep)
    ensures WinnerKept(e, TargetAfter(st, t, e, a))
  {
    QuietRecord(st, t, e, a);
    CasWinner(e, Present(st.status, None, None), ByOrphanStop(t));
    if a.SetIntent? {
      IntentWinner(e, t, st.status);
    }
    hide Cas, WithIntent;
  }

  lemma IntentWinner(e: Exec, t: Tid, status: Status)
    ensures WinnerKept(e, WithIntent(e, t, status))
  {
  }

  lemma OthersWinner(e: Exec, y: Id, r: RecorderStep)
    ensures WinnerKept(e, RecorderEffect(e, r)) && WinnerKept(e, e.(child := Dead)) && WinnerKept(e, e.(start := Admitted))
    ensures e.monitor.PostNext? || e.monitor.DispatchHolding? ==> WinnerKept(e, LaunchingEffect(e, y))
    ensures WinnerKept(e, e)
  {
  }

  lemma StepStarterFailed(s: State, l: Step, x: Id)
    requires Inv(s) && Enabled(s, l) && x < |s.execs| && StarterFailed(s.execs[x])
    ensures x < |Next(s, l).execs| && StarterFailed(Next(s, l).execs[x])
  {
    hide ExecOk, StopStateOk, StartEnabled, MonitorEnabled, StopEnabled, MonitorSideEffect, MonitorPhaseAfter, StartEffect,
      RecorderEffect, TargetAfter, PhaseAfter, AdmissionAfter, LaunchingEffect, RecorderEnabled;
    var e := s.execs[x];
    assert ExecOk(e, x, s.adm, s.mapW);
    OthersWinner(e, 0, Seal);
    match l {
      case Starts(y, a) => if y == x { StartStarterFailed(e, x, s.adm, s.mapW, a); }
      case Monitors(z, a) =>
        if z == x {
          StaysSpawned(e, x, s.adm, s.mapW, LaunchOver(s, x), a);
          MonitorWinner(e, a);
        }
      case Launches(z, y) => OthersWinner(e, y, Seal);
      case Records(z, a) => OthersWinner(e, 0, a);
      case ChildExits(z) =>
      case Stops(t, a) => StopWinner(s.stops[t], t, e, a);
    }
  }

  /** A row written by a launch that failed is Failed, without an exit code. */
  lemma {:induction false} StarterRowIsFailed(states: seq<State>, steps: seq<Step>, i: nat, x: Id)
    requires IsRun(states, steps) && i < |states| && x < |states[i].execs|
    ensures StarterFailed(states[i].execs[x])
  {
    hide Inv, Initial, Next, Enabled, StarterFailed;
    if i == 0 {
      FreshStarter(states[0], x);
    } else {
      assert Enabled(states[i - 1], steps[i - 1]) && states[i] == Next(states[i - 1], steps[i - 1]);
      StepKeepsSizes(states[i - 1], steps[i - 1]);
      RunKeepsInv(states, steps, i - 1);
      StarterRowIsFailed(states, steps, i - 1, x);
      StepStarterFailed(states[i - 1], steps[i - 1], x);
    }
  }

  lemma FreshStarter(s: State, x: Id)
    requires Initial(s) && x < |s.execs|
    ensures StarterFailed(s.execs[x])
  {
    assert Fresh(s.execs[x]);
  }

  /** Over the rest of the run, too: a launch that could not bind or start its command leaves a Failed row. */
  lemma FailedLaunchRow(states: seq<State>, steps: seq<Step>, k: nat, i: nat, x: Id)
    requires IsRun(states, steps) && k < i < |states| && x < |states[k].execs|
    requires steps[k] == Starts(x, BindFails) || steps[k] == Starts(x, RecordFailure(true))
    ensures x < |states[i].execs|
    ensures var row := states[i].execs[x].row;
            && row.Present? && row.status == Failed && row.exitCode == None
            && (row.classification == None <==> steps[k] == Starts(x, BindFails))
  {
    assert Enabled(states[k], steps[k]) && states[k + 1] == Next(states[k], steps[k]);
    RunKeepsInv(states, steps, k);
    RunKeepsSizes(states, steps, k);
    RunKeepsSizes(states, steps, i);
    assert ExecOk(states[k].execs[x], x, states[k].adm, states[k].mapW);
    FailingWritesFailed(states[k].execs[x], x, states[k].adm, states[k].mapW, steps[k].start);
    hide ExecOk, Inv, StartEffect;
    TerminalRowIsFinal(states, steps, k + 1, i, x);
  }

  lemma FailingWritesFailed(e: Exec, y: Id, adm: Option<AdmissionHolder>, mapW: Option<Id>, a: StartStep)
    requires StartParts(e) && StartEnabled(e, y, adm, mapW, a) && (a == BindFails || a == RecordFailure(true))
    ensures var row := StartEffect(e, y, adm, mapW, a).e.row;
            && row.Present? && row.status == Failed && row.exitCode == None && (row.classification == None <==> a == BindFails)
  {
  }
}
