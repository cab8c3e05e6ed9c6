/**
 The steps nobody may leave out: a monitor's kills, a stop's grace period, and what a recorder does to a child
 it can no longer record.
 */
module ExecutionPaths {
  import opened Options
  import opened ProcessOutcome
  import opened ExecutionSystem
  import opened ExecutionInvariant
  import opened ExecutionRuns
  import opened ExecutionTheorems

  // ---------------------------------------------------------------- the monitor

  predicate IsSignal(l: Step, x: Id) {
    l.Monitors? && l.x == x && l.mon.SeeSignal?
  }

  predicate IsSignalKill(l: Step, x: Id) {
    l.Monitors? && l.x == x && l.mon.SignalKillDone?
  }

  predicate IsReap(l: Step, x: Id) {
    l.Monitors? && l.x == x && l.mon.ReapKill?
  }

  ghost predicate Happened(steps: seq<Step>, i: nat, kind: (Step, Id) -> bool, x: Id)
    requires i <= |steps|
  {
    exists k :: 0 <= k < i && kind(steps[k], x)
  }

  predicate OnPath(m: Monitor, signalled: bool, killed: bool, reaped: bool) {
    var n := Stage(m);
    && (n <= 1 ==> !signalled)
    && (4 <= n <= 19 && signalled ==> killed)
    && (5 <= n <= 19 ==> reaped)
  }

  lemma PhaseOnPath(e: Exec, x: Id, adm: Option<AdmissionHolder>, mapW: Option<Id>, launched: bool, a: MonitorStep,
                    s: bool, k: bool, r: bool)
    requires MonitorEnabled(e, x, adm, mapW, launched, a) && OnPath(e.monitor, s, k, r)
    ensures OnPath(MonitorPhaseAfter(e, x, adm, mapW, launched, a), s || a.SeeSignal?, k || a.SignalKillDone?, r || a.ReapKill?)
  {
  }

  /** A launch leaves the monitor alone or spawns it. */
  predicate AtMostSpawns(m: Monitor, n: Monitor) {
    n == m || (m.NotSpawned? && n.Watching?)
  }

  lemma StartLeavesMonitor(e: Exec, y: Id, adm: Option<AdmissionHolder>, mapW: Option<Id>, a: StartStep)
    requires !a.SpawnMonitor?
    ensures KeepsMonitor(e, StartEffect(e, y, adm, mapW, a).e)
  {
    CasKeepsMonitor(e, Present(Failed, None, Some(Classification(Provider("start_error"), None))), ByStarter);
    hide Cas, AfterKill;
  }

  lemma StartSpawns(e: Exec, y: Id, adm: Option<AdmissionHolder>, mapW: Option<Id>, a: StartStep)
    requires StartParts(e) && StartEnabled(e, y, adm, mapW, a)
    ensures AtMostSpawns(e.monitor, StartEffect(e, y, adm, mapW, a).e.monitor)
  {
    if !a.SpawnMonitor? {
      StartLeavesMonitor(e, y, adm, mapW, a);
      hide StartEffect, StartParts, StartEnabled;
    }
  }

  lemma SpawnedOnPath(m: Monitor, n: Monitor, s: bool, k: bool, r: bool)
    requires AtMostSpawns(m, n) && OnPath(m, s, k, r)
    ensures OnPath(n, s, k, r)
  {
  }

  lemma LaunchOnPath(e: Exec, y: Id, s: bool, k: bool, r: bool)
    requires (e.monitor.PostNext? || e.monitor.DispatchHolding?) && OnPath(e.monitor, s, k, r)
    ensures OnPath(LaunchingEffect(e, y).monitor, s, k, r)
  {
  }

  lemma RecorderSameMonitor(e: Exec, a: RecorderStep)
    ensures RecorderEffect(e, a).monitor == e.monitor && RecorderEffect(e, a).hasCancel == e.hasCancel
  {
  }

  lemma ExecPart(s: State, x: Id)
    requires Inv(s) && x < |s.execs|
    ensures ExecOk(s.execs[x], x, s.adm, s.mapW)
  {
    hide ExecOk;
  }

  lemma StepOnPath(s: State, l: Step, x: Id, sig: bool, k: bool, r: bool)
    requires Inv(s) && Enabled(s, l) && x < |s.execs| && OnPath(s.execs[x].monitor, sig, k, r)
    ensures x < |Next(s, l).execs|
    ensures OnPath(Next(s, l).execs[x].monitor, sig || IsSignal(l, x), k || IsSignalKill(l, x), r || IsReap(l, x))
  {
    hide ExecOk, StopStateOk, StartEnabled, MonitorEnabled, StopEnabled, MonitorPhaseAfter, MonitorSideEffect, StartEffect, OnPath,
      AtMostSpawns, ExecsOk, StopsOk, LinksOk,
      RecorderEffect, TargetAfter, PhaseAfter, AdmissionAfter, LaunchingEffect, RecorderEnabled;
    var e := s.execs[x];
    ExecPart(s, x);
    OwnedStart(e, x, s.adm, s.mapW);
    match l {
      case Starts(y, a) => if y == x {
          StartSpawns(e, x, s.adm, s.mapW, a);
          SpawnedOnPath(e.monitor, Next(s, l).execs[x].monitor, sig, k, r);
        }
      case Monitors(z, a) => if z == x { PhaseOnPath(e, x, s.adm, s.mapW, LaunchOver(s, x), a, sig, k, r); }
      case Launches(z, y) => if z == x { LaunchOnPath(e, y, sig, k, r); }
      case Records(z, a) => RecorderSameMonitor(e, a);
      case ChildExits(z) =>
      case Stops(t, a) => QuietRecord(s.stops[t], t, e, a);
    }
  }

  /**
   A monitor that drains the output, and any later one that has not crashed, has tried to kill the process;
   and if its executor signalled, it tried to kill the whole group before that.
   */
  lemma {:induction false} MonitorTriesToKill(states: seq<State>, steps: seq<Step>, i: nat, x: Id)
    requires IsRun(states, steps) && i < |states| && x < |states[i].execs|
    ensures OnPath(states[i].execs[x].monitor, Happened(steps, i, IsSignal, x), Happened(steps, i, IsSignalKill, x),
                   Happened(steps, i, IsReap, x))
  {
    hide Inv, Initial, Next, Enabled, OnPath, IsSignal, IsSignalKill, IsReap;
    if i == 0 {
      FreshOnPath(states[0], x);
    } else {
      assert Enabled(states[i - 1], steps[i - 1]) && states[i] == Next(states[i - 1], steps[i - 1]);
      StepKeepsSizes(states[i - 1], steps[i - 1]);
      RunKeepsInv(states, steps, i - 1);
      MonitorTriesToKill(states, steps, i - 1, x);
      StepOnPath(states[i - 1], steps[i - 1], x, Happened(steps, i - 1, IsSignal, x), Happened(steps, i - 1, IsSignalKill, x),
                 Happened(steps, i - 1, IsReap, x));
      OneMore(steps, i, IsSignal, x);
      OneMore(steps, i, IsSignalKill, x);
      OneMore(steps, i, IsReap, x);
    }
  }

  lemma OneMore(steps: seq<Step>, i: nat, kind: (Step, Id) -> bool, x: Id)
    requires 0 < i <= |steps|
    ensures Happened(steps, i, kind, x) <==> Happened(steps, i - 1, kind, x) || kind(steps[i - 1], x)
  {
  }

  lemma FreshOnPath(s: State, x: Id)
    requires Initial(s) && x < |s.execs|
    ensures OnPath(s.execs[x].monitor, false, false, false)
  {
    assert Fresh(s.execs[x]);
  }

  // ---------------------------------------------------------------- the grace period

  /** The stop's wait for a cancelled execution ended, in vain or because the monitor crashed. */
  predicate IsGraceEnd(l: Step, t: Tid) {
    l == Stops(t, GraceTimeout) || l == Stops(t, GraceDone)
  }

  predicate Graced(p: StopPhase, hasCancel: bool, ended: bool) {
    (p.WantsChild? || p.KillingChild? || p.AwaitingMonitor?) && hasCancel ==> ended
  }

  lemma PhaseGraced(st: Stop, t: Tid, e: Exec, adm: Option<AdmissionHolder>, mapW: Option<Id>, a: StopStep, ended: bool)
    requires StopEnabled(st, t, e, adm, mapW, a) && Graced(st.phase, e.hasCancel, ended)
    ensures Graced(PhaseAfter(st, e, a), e.hasCancel, ended || a == GraceTimeout || a == GraceDone)
  {
  }

  lemma StepGraced(s: State, l: Step, t: Tid, ended: bool)
    requires Inv(s) && Enabled(s, l) && t < |s.stops| && s.stops[t].target < |s.execs|
    requires Graced(s.stops[t].phase, s.execs[s.stops[t].target].hasCancel, ended)
    ensures t < |Next(s, l).stops| && Next(s, l).stops[t].target == s.stops[t].target
    ensures Graced(Next(s, l).stops[t].phase, s.execs[s.stops[t].target].hasCancel, ended || IsGraceEnd(l, t))
  {
    hide StartEnabled, MonitorEnabled, StartEffect, MonitorEffect, RecorderEffect, LaunchingEffect, Inv, Graced, PhaseAfter, TargetAfter;
    if l.Stops? && l.t == t {
      PhaseGraced(s.stops[t], t, s.execs[s.stops[t].target], s.adm, s.mapW, l.stop, ended);
    }
  }

  /** A stop comes to killing an execution that can be cancelled only after the grace period it gave it. */
  lemma {:induction false} GraceBeforeKill(states: seq<State>, steps: seq<Step>, i: nat, t: Tid)
    requires IsRun(states, steps) && i < |states| && t < |states[i].stops|
    ensures states[i].stops[t].target < |states[i].execs|
    ensures Graced(states[i].stops[t].phase, states[i].execs[states[i].stops[t].target].hasCancel, Happened(steps, i, IsGraceEnd, t))
  {
    RunKeepsInv(states, steps, i);
    if i > 0 {
      assert Enabled(states[i - 1], steps[i - 1]) && states[i] == Next(states[i - 1], steps[i - 1]);
      StepKeepsSizes(states[i - 1], steps[i - 1]);
      RunKeepsInv(states, steps, i - 1);
      GraceBeforeKill(states, steps, i - 1, t);
      StepGraced(states[i - 1], steps[i - 1], t, Happened(steps, i - 1, IsGraceEnd, t));
      OneMore(steps, i, IsGraceEnd, t);
      RunEvolves(states, steps, i - 1, i, states[i - 1].stops[t].target);
    }
    hide Next, Enabled, ExecsOk, StopsOk, LinksOk, IsGraceEnd;
  }

  // ---------------------------------------------------------------- the recorder

  /** A recorder that failed finds the execution's entry. */
  predicate FindsEntry(s: State, l: Step, x: Id) {
    l == Records(x, LookupChild) && x < |s.execs| && s.execs[x].registered
  }

  predicate IsRecorderKill(l: Step, x: Id) {
    l == Records(x, KillChild(true)) || l == Records(x, KillChild(false))
  }

  ghost predicate FoundEntry(states: seq<State>, steps: seq<Step>, i: nat, x: Id)
    requires i <= |steps| < |states|
  {
    exists k :: 0 <= k < i && FindsEntry(states[k], steps[k], x)
  }

  predicate StopsItsChild(e: Exec, found: bool, killed: bool) {
    && (e.recorder.NotRecording? || e.recorder.Recording? || e.recorder.ReportingFailure? ==> !found)
    && (e.recorder.StoppingChild? ==> found)
    && (found ==> (e.hasCancel ==> e.cancelled) && (e.recorder.StoppingChild? || (e.recorder == Recorded(CaptureUnavailable) && killed)))
  }

  lemma RecorderStops(e: Exec, mapW: Option<Id>, a: RecorderStep, found: bool, killed: bool)
    requires RecorderEnabled(e, mapW, a) && StopsItsChild(e, found, killed)
    ensures StopsItsChild(RecorderEffect(e, a), found || (a.LookupChild? && e.registered), killed || a.KillChild?)
  {
  }

  predicate KeepsMonitor(e: Exec, f: Exec) {
    f.monitor == e.monitor
  }

  lemma CasKeepsMonitor(e: Exec, row: Row, who: Winner)
    ensures KeepsMonitor(e, Cas(e, row, who))
  {
  }

  predicate RecorderLeft(e: Exec, f: Exec) {
    && (e.recorder == f.recorder || (e.recorder.NotRecording? && f.recorder.Recording?))
    && f.hasCancel == e.hasCancel && (e.cancelled ==> f.cancelled)
  }

  lemma LeftStops(e: Exec, f: Exec, found: bool, killed: bool)
    requires RecorderLeft(e, f) && StopsItsChild(e, found, killed)
    ensures StopsItsChild(f, found, killed)
  {
  }

  lemma StartLeft(e: Exec, y: Id, adm: Option<AdmissionHolder>, mapW: Option<Id>, a: StartStep)
    requires StartParts(e) && StartEnabled(e, y, adm, mapW, a)
    ensures RecorderLeft(e, StartEffect(e, y, adm, mapW, a).e)
  {
  }

  lemma CasLeft(e: Exec, row: Row, who: Winner)
    ensures RecorderLeft(e, Cas(e, row, who))
  {
  }

  lemma MonitorLeft(e: Exec, a: MonitorStep)
    requires (a.LockIntent? ==> e.monitor.Captured?) && (a.Publish? ==> e.monitor.Deciding?)
    ensures RecorderLeft(e, MonitorSideEffect(e, a))
  {
    if a.Publish? && a.dbOk {
      CasLeft(e, RowOf(Decide(e.monitor.capture, e.requested, e.monitor.own)), ByMonitor);
      hide Cas, Decide, RowOf;
    } else {
      hide Cas, Decide, RowOf;
    }
  }

  lemma StopLeft(st: Stop, t: Tid, e: Exec, a: StopStep)
    ensures RecorderLeft(e, TargetAfter(st, t, e, a))
  {
    CasLeft(e, Present(st.status, None, None), ByOrphanStop(t));
    IntentLeft(e, t, st.status);
    hide Cas, WithIntent;
  }

  lemma IntentLeft(e: Exec, t: Tid, status: Status)
    ensures RecorderLeft(e, WithIntent(e, t, status))
  {
  }

  lemma LaunchLeft(e: Exec, y: Id)
    ensures e.monitor.PostNext? || e.monitor.DispatchHolding? ==> RecorderLeft(e, LaunchingEffect(e, y))
    ensures RecorderLeft(e, e.(start := Admitted)) && RecorderLeft(e, e.(child := Dead)) && RecorderLeft(e, e)
  {
  }

  lemma StepStopsChild(s: State, l: Step, x: Id, found: bool, killed: bool)
    requires Inv(s) && Enabled(s, l) && x < |s.execs| && StopsItsChild(s.execs[x], found, killed)
    ensures x < |Next(s, l).execs|
    ensures StopsItsChild(Next(s, l).execs[x], found || FindsEntry(s, l, x), killed || IsRecorderKill(l, x))
  {
    hide ExecOk, StopStateOk, StartEnabled, MonitorEnabled, StopEnabled, MonitorPhaseAfter, MonitorSideEffect, StartEffect,
      StopsItsChild, RecorderLeft, RecorderEffect, TargetAfter, PhaseAfter, AdmissionAfter, LaunchingEffect, RecorderEnabled;
    var e := s.execs[x];
    var f := Next(s, l).execs[x];
    assert ExecOk(e, x, s.adm, s.mapW);
    OwnedStart(e, x, s.adm, s.mapW);
    if l.Records? && l.x == x {
      RecorderStops(e, s.mapW, l.rec, found, killed);
    } else {
      LaunchLeft(e, 0);
      match l {
        case Starts(y, a) => if y == x { StartLeft(e, x, s.adm, s.mapW, a); }
        case Monitors(z, a) =>
          if z == x {
            StaysSpawned(e, x, s.adm, s.mapW, LaunchOver(s, x), a);
            MonitorLeft(e, a);
            SetPhaseLeft(e, MonitorSideEffect(e, a), f.monitor);
          }
        case Launches(z, y) => LaunchLeft(e, y);
        case Records(z, a) =>
        case ChildExits(z) =>
        case Stops(t, a) => StopLeft(s.stops[t], t, e, a);
      }
      LeftStops(e, f, found, killed);
    }
  }

  lemma SetPhaseLeft(e: Exec, f: Exec, m: Monitor)
    requires RecorderLeft(e, f)
    ensures RecorderLeft(e, f.(monitor := m))
  {
  }

  /**
   A recorder that fails while the execution is registered cancels it, if it can be cancelled, and does not
   report before it has tried to kill the child; what it then reports is that the recording is unavailable.
   */
  lemma {:induction false} FailedRecorderStopsChild(states: seq<State>, steps: seq<Step>, i: nat, x: Id)
    requires IsRun(states, steps) && i < |states| && x < |states[i].execs|
    ensures StopsItsChild(states[i].execs[x], FoundEntry(states, steps, i, x), Happened(steps, i, IsRecorderKill, x))
  {
    hide Inv, Initial, Next, Enabled, StopsItsChild, FindsEntry, IsRecorderKill;
    if i == 0 {
      FreshStopsChild(states[0], x);
    } else {
      assert Enabled(states[i - 1], steps[i - 1]) && states[i] == Next(states[i - 1], steps[i - 1]);
      StepKeepsSizes(states[i - 1], steps[i - 1]);
      RunKeepsInv(states, steps, i - 1);
      FailedRecorderStopsChild(states, steps, i - 1, x);
      StepStopsChild(states[i - 1], steps[i - 1], x, FoundEntry(states, steps, i - 1, x), Happened(steps, i - 1, IsRecorderKill, x));
      OneMore(steps, i, IsRecorderKill, x);
    }
  }

  lemma FreshStopsChild(s: State, x: Id)
    requires Initial(s) && x < |s.execs|
    ensures StopsItsChild(s.execs[x], false, false)
  {
    assert Fresh(s.execs[x]);
  }
}
