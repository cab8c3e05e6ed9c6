/**
 Whose outcome an execution ends with when a stop was requested before the monitor decided: the first
 stop's, unless the monitor's own write to the database failed.
 */
module ExecutionPublication {
  import opened Options
  import opened ProcessOutcome
  import opened ExecutionSystem
  import opened ExecutionInvariant
  import opened ExecutionRuns
  import opened ExecutionTheorems

  /** The monitor's write of the outcome failed. */
  ghost predicate WriteFailed(steps: seq<Step>, j: nat, x: Id)
    requires j <= |steps|
  {
    exists k :: 0 <= k < j && steps[k] == Monitors(x, Publish(false))
  }

  predicate PastWriting(m: Monitor) {
    9 <= Stage(m)
  }

  predicate WonByMonitor(e: Exec) {
    e.hist.winner == Some(ByMonitor)
  }

  /** What the run so far says about a monitor that has made its attempt. */
  predicate AccountedFor(e: Exec, failed: bool) {
    && (failed ==> PastWriting(e.monitor) && !WonByMonitor(e))
    && (!failed && PastWriting(e.monitor) ==> e.monitor.Crashed? || WonByMonitor(e))
  }

  /** A step that is nobody's publication neither passes that point nor changes whether the monitor won. */
  predicate Unwritten(e: Exec, e': Exec) {
    && (PastWriting(e.monitor) ==> PastWriting(e'.monitor))
    && (PastWriting(e'.monitor) && !e'.monitor.Crashed? ==> PastWriting(e.monitor) && !e.monitor.Crashed?)
    && (WonByMonitor(e') <==> WonByMonitor(e))
  }

  lemma UnwrittenKeeps(e: Exec, e': Exec, failed: bool)
    requires AccountedFor(e, failed) && Unwritten(e, e')
    ensures AccountedFor(e', failed)
  {
  }

  lemma SameIsUnwritten(e: Exec, e': Exec)
    requires e'.monitor == e.monitor && e'.hist.winner == e.hist.winner
    ensures Unwritten(e, e')
  {
  }

  lemma StartUnwritten(e: Exec, y: Id, adm: Option<AdmissionHolder>, mapW: Option<Id>, a: StartStep)
    requires ExecOk(e, y, adm, mapW) && StartEnabled(e, y, adm, mapW, a)
    ensures Unwritten(e, StartEffect(e, y, adm, mapW, a).e)
  {
    hide LockParts, DecisionParts, PostParts;
  }

  predicate SameWinner(e: Exec, e': Exec) {
    e'.hist.winner == e.hist.winner
  }

  lemma SideEffectWinner(e: Exec, a: MonitorStep)
    requires (a.LockIntent? ==> e.monitor.Captured?) && !a.Publish?
    ensures SameWinner(e, MonitorSideEffect(e, a))
  {
    hide Cas, Decide, RowOf;
  }

  lemma PhasePassesOnlyByWriting(e: Exec, x: Id, adm: Option<AdmissionHolder>, mapW: Option<Id>, launched: bool, a: MonitorStep)
    requires MonitorEnabled(e, x, adm, mapW, launched, a)
    ensures var m := MonitorPhaseAfter(e, x, adm, mapW, launched, a);
            && !e.monitor.Crashed? && (m.Crashed? <==> a.Crash?)
            && (PastWriting(m) && !PastWriting(e.monitor) ==> a.Publish? || a.Crash?)
            && (PastWriting(e.monitor) ==> PastWriting(m) && !a.Publish?)
    ensures (a.LockIntent? ==> e.monitor.Captured?) && (a.Publish? ==> e.monitor.Deciding?)
  {
  }

  lemma MonitorUnwritten(e: Exec, x: Id, adm: Option<AdmissionHolder>, mapW: Option<Id>, launched: bool, a: MonitorStep)
    requires MonitorEnabled(e, x, adm, mapW, launched, a) && !a.Publish?
    ensures Unwritten(e, MonitorEffect(e, x, adm, mapW, launched, a).e)
  {
    hide MonitorEnabled, MonitorPhaseAfter, MonitorSideEffect, PastWriting;
    PhasePassesOnlyByWriting(e, x, adm, mapW, launched, a);
    SideEffectWinner(e, a);
  }

  /** The publication itself: the row is still Running, so a write that reaches the database wins. */
  lemma Publishes(e: Exec, x: Id, adm: Option<AdmissionHolder>, mapW: Option<Id>, launched: bool, dbOk: bool)
    requires ExecOk(e, x, adm, mapW) && e.monitor.Deciding?
    ensures AccountedFor(MonitorEffect(e, x, adm, mapW, launched, Publish(dbOk)).e, !dbOk)
  {
    hide LockParts, StartParts, DecisionParts, PostParts, Decide, RowOf;
  }

  lemma OthersUnwritten(e: Exec, y: Id, r: RecorderStep)
    ensures Unwritten(e, RecorderEffect(e, r)) && Unwritten(e, e.(child := Dead)) && Unwritten(e, e.(start := Admitted))
    ensures e.monitor.PostNext? || e.monitor.DispatchHolding? ==> Unwritten(e, LaunchingEffect(e, y))
  {
  }

  lemma StopUnwritten(st: Stop, t: Tid, e: Exec, x: Id, adm: Option<AdmissionHolder>, mapW: Option<Id>, a: StopStep)
    requires ExecOk(e, x, adm, mapW)
    ensures Unwritten(e, TargetAfter(st, t, e, a))
  {
    QuietRecord(st, t, e, a);
    if a.OrphanCas? {
      OrphanUnwritten(e, x, adm, mapW, Present(st.status, None, None), t);
    } else if a.SetIntent? {
      SameIsUnwritten(e, WithIntent(e, t, st.status));
    } else {
      SameIsUnwritten(e, TargetAfter(st, t, e, a));
      hide TargetAfter;
    }
    SameIsUnwritten(e, e);
    hide Unwritten, ExecOk, Cas, WithIntent;
  }

  lemma OrphanUnwritten(e: Exec, x: Id, adm: Option<AdmissionHolder>, mapW: Option<Id>, row: Row, t: Tid)
    requires ExecOk(e, x, adm, mapW)
    ensures Unwritten(e, Cas(e, row, ByOrphanStop(t)))
  {
    hide LockParts, StartParts, DecisionParts, PostParts;
  }

  lemma StepRecorded(s: State, l: Step, x: Id, failed: bool)
    requires Inv(s) && Enabled(s, l) && x < |s.execs| && AccountedFor(s.execs[x], failed)
    ensures AccountedFor(Next(s, l).execs[x], failed || l == Monitors(x, Publish(false)))
  {
    hide ExecOk, StopStateOk, StartEnabled, MonitorEnabled, StopEnabled, AccountedFor, Unwritten, MonitorEffect, StartEffect,
      RecorderEffect, TargetAfter, PhaseAfter, AdmissionAfter, LaunchingEffect, RecorderEnabled, PastWriting, WonByMonitor;
    var e := s.execs[x];
    var e' := Next(s, l).execs[x];
    assert ExecOk(e, x, s.adm, s.mapW);
    if l.Monitors? && l.x == x && l.mon.Publish? {
      PublishingRecorded(e, x, s.adm, s.mapW, LaunchOver(s, x), l.mon.dbOk, failed);
    } else {
      match l {
        case Starts(y, a) =>
          if y == x { StartUnwritten(e, x, s.adm, s.mapW, a); } else { SameIsUnwritten(e, e'); }
        case Monitors(z, a) =>
          if z == x { MonitorUnwritten(e, x, s.adm, s.mapW, LaunchOver(s, x), a); } else { SameIsUnwritten(e, e'); }
        case Launches(z, y) =>
          OthersUnwritten(e, y, Seal);
          SameIsUnwritten(e, e);
        case Records(z, a) =>
          OthersUnwritten(e, 0, a);
          SameIsUnwritten(e, e);
        case ChildExits(z) =>
          OthersUnwritten(e, 0, Seal);
          SameIsUnwritten(e, e);
        case Stops(t, a) =>
          StopUnwritten(s.stops[t], t, e, x, s.adm, s.mapW, a);
          SameIsUnwritten(e, e);
      }
      UnwrittenKeeps(e, e', failed);
    }
  }

  /** A monitor publishes once, so no earlier attempt of its has failed. */
  lemma PublishingRecorded(e: Exec, x: Id, adm: Option<AdmissionHolder>, mapW: Option<Id>, launched: bool, dbOk: bool, failed: bool)
    requires ExecOk(e, x, adm, mapW) && MonitorEnabled(e, x, adm, mapW, launched, Publish(dbOk)) && AccountedFor(e, failed)
    ensures !failed && AccountedFor(MonitorEffect(e, x, adm, mapW, launched, Publish(dbOk)).e, failed || !dbOk)
  {
    Publishes(e, x, adm, mapW, launched, dbOk);
    hide ExecOk, MonitorEffect;
  }

  lemma {:induction false} RunRecorded(states: seq<State>, steps: seq<Step>, j: nat, x: Id)
    requires IsRun(states, steps) && j < |states| && x < |states[j].execs|
    ensures AccountedFor(states[j].execs[x], WriteFailed(steps, j, x))
  {
    hide Inv, Initial, Next, Enabled, AccountedFor;
    if j == 0 {
      FreshRecorded(states[0], x);
    } else {
      assert Enabled(states[j - 1], steps[j - 1]) && states[j] == Next(states[j - 1], steps[j - 1]);
      StepKeepsSizes(states[j - 1], steps[j - 1]);
      RunKeepsInv(states, steps, j - 1);
      RunRecorded(states, steps, j - 1, x);
      StepRecorded(states[j - 1], steps[j - 1], x, WriteFailed(steps, j - 1, x));
    }
  }

  lemma FreshRecorded(s: State, x: Id)
    requires Initial(s) && x < |s.execs|
    ensures AccountedFor(s.execs[x], false)
  {
    assert Fresh(s.execs[x]);
  }

  /**
   When a stop took requested_stop before the monitor's decision, the terminal row is the monitor's, that is
   the first stop's or the recording failure's, if and only if the monitor's own write went through. If it
   failed, the row is that of a later stop which found no entry any more.
   */
  lemma FirstStopStandsExactly(states: seq<State>, steps: seq<Step>, i: nat, j: nat, x: Id)
    requires IsRun(states, steps) && i <= j < |states| && x < |states[i].execs|
    requires states[i].execs[x].requested.Some? && states[i].execs[x].hist.decision == None
    requires x < |states[j].execs| && Terminal(states[j].execs[x].row)
    ensures var e, st := states[j].execs[x], states[i].execs[x].requested.value;
            && (e.hist.winner == Some(ByMonitor) <==> !WriteFailed(steps, j, x))
            && (!WriteFailed(steps, j, x) ==>
                  if e.recorder == Recorded(CaptureComplete) then StoppedRow(e.row, st) else UnrecordedRow(e.row))
            && (WriteFailed(steps, j, x) ==>
                  exists t :: 0 <= t < |states[j].stops| && states[j].stops[t].target == x
                    && e.hist.winner == Some(ByOrphanStop(t)) && e.row == Present(states[j].stops[t].status, None, None))
  {
    StopIntentDecides(states, steps, i, j, x);
    RunRecorded(states, steps, j, x);
    hide StoppedRow, UnrecordedRow, IsRun, WriteFailed;
  }
}
