/** What the start/stop/exit protocol guarantees over every run. */
module ExecutionTheorems {
  import opened Options
  import opened ProcessOutcome
  import opened ExecutionSystem
  import opened ExecutionInvariant
  import opened ExecutionRuns

  // ---------------------------------------------------------------- how one execution changes over a run

  lemma EvolvesRefl(e: Exec)
    ensures Evolves(e, e)
  {
  }

  lemma EvolvesTrans(a: Exec, b: Exec, c: Exec)
    requires Evolves(a, b) && Evolves(b, c)
    ensures Evolves(a, c)
  {
  }

  lemma StepEvolves(s: State, l: Step, x: Id)
    requires Inv(s) && Enabled(s, l) && x < |s.execs|
    ensures |Next(s, l).execs| == |s.execs| && |Next(s, l).stops| == |s.stops|
    ensures Evolves(s.execs[x], Next(s, l).execs[x])
    ensures forall t :: 0 <= t < |s.stops| ==>
              Next(s, l).stops[t].target == s.stops[t].target && Next(s, l).stops[t].status == s.stops[t].status
  {
    hide ExecOk, StopStateOk, StartEnabled, MonitorEnabled, StopEnabled, Evolves, MonitorEffect, StartEffect, RecorderEffect, TargetAfter;
    EvolvesRefl(s.execs[x]);
    match l
    case Starts(y, a) =>
      StartKeeps(s.execs[y], y, s.adm, s.mapW, a);
    case Monitors(z, a) =>
      MonitorKeeps(s.execs[z], z, s.adm, s.mapW, LaunchOver(s, z), a);
    case Launches(z, y) =>
      LauncherKept(s.execs[z], z, y, s.adm, s.mapW);
      LaunchedKept(s.execs[y], y, s.adm, s.mapW);
    case Records(z, a) =>
      RecorderKeeps(s.execs[z], z, s.adm, s.mapW, a);
    case ChildExits(z) =>
      ChildExitKeeps(s.execs[z], z, s.adm, s.mapW);
    case Stops(t, a) =>
      var z := s.stops[t].target;
      assert ExecOk(s.execs[z], z, s.adm, s.mapW) && StopStateOk(s.stops[t], t, s.adm, s.execs[z]);
      StopKeeps(s.stops[t], t, s.execs[z], z, s.adm, s.mapW, a);
  }

  lemma {:induction false} RunEvolves(states: seq<State>, steps: seq<Step>, i: nat, j: nat, x: Id)
    requires IsRun(states, steps) && i <= j < |states| && x < |states[i].execs|
    ensures |states[j].execs| == |states[i].execs| && |states[j].stops| == |states[i].stops|
    ensures Evolves(states[i].execs[x], states[j].execs[x])
    ensures forall t :: 0 <= t < |states[i].stops| ==>
              states[j].stops[t].target == states[i].stops[t].target && states[j].stops[t].status == states[i].stops[t].status
    decreases j
  {
    hide Evolves, Enabled, Next, Initial;
    if i == j {
      EvolvesRefl(states[i].execs[x]);
    } else {
      RunEvolves(states, steps, i, j - 1, x);
      RunKeepsInv(states, steps, j - 1);
      assert Enabled(states[j - 1], steps[j - 1]) && states[j] == Next(states[j - 1], steps[j - 1]);
      StepEvolves(states[j - 1], steps[j - 1], x);
      EvolvesTrans(states[i].execs[x], states[j - 1].execs[x], states[j].execs[x]);
    }
  }

  lemma StepKeepsSizes(s: State, l: Step)
    requires Enabled(s, l)
    ensures |Next(s, l).execs| == |s.execs| && |Next(s, l).stops| == |s.stops|
  {
  }

  lemma {:induction false} RunKeepsSizes(states: seq<State>, steps: seq<Step>, i: nat)
    requires IsRun(states, steps) && i < |states|
    ensures |states[i].execs| == |states[0].execs| && |states[i].stops| == |states[0].stops|
  {
    hide Initial, Next, Enabled;
    if i > 0 {
      RunKeepsSizes(states, steps, i - 1);
      assert Enabled(states[i - 1], steps[i - 1]) && states[i] == Next(states[i - 1], steps[i - 1]);
      StepKeepsSizes(states[i - 1], steps[i - 1]);
    }
  }

  // ---------------------------------------------------------------- the child

  lemma OwnedStart(e: Exec, x: Id, adm: Option<AdmissionHolder>, mapW: Option<Id>)
    requires ExecOk(e, x, adm, mapW)
    ensures StartParts(e)
  {
  }

  /** The server sees the child's exit, or a kill of it succeeds. */
  predicate Ends(s: State, l: Step, x: Id) {
    match l
    case Starts(y, CaptureSetupFails(killed)) => y == x && killed
    case Monitors(y, SeeExit(exit)) => y == x && exit.Ok?
    case Monitors(y, SignalKillDone(ok)) => y == x && ok
    case Monitors(y, ReapKill(ok)) => y == x && ok
    case Records(y, KillChild(ok)) => y == x && ok
    case Stops(t, KillDone(ok)) => t < |s.stops| && s.stops[t].target == x && ok
    case _ => false
  }

  /** The last kill before a launch or a monitor lets go of the child fails; the code goes on regardless. */
  predicate LetsGo(l: Step, x: Id) {
    l == Starts(x, CaptureSetupFails(false)) || l == Monitors(x, ReapKill(false))
  }

  ghost predicate EndedBefore(states: seq<State>, steps: seq<Step>, i: nat, x: Id)
    requires i <= |steps| < |states|
  {
    exists k :: 0 <= k < i && Ends(states[k], steps[k], x)
  }

  ghost predicate LetGoBefore(steps: seq<Step>, i: nat, x: Id)
    requires i <= |steps|
  {
    exists k :: 0 <= k < i && LetsGo(steps[k], x)
  }

  lemma EndingLeavesDead(s: State, l: Step, x: Id)
    requires Enabled(s, l) && x < |s.execs| && Ends(s, l, x)
    ensures Next(s, l).execs[x].child == Dead
  {
  }

  /** A child whose exit has been seen, or that has been killed, is dead from then on. */
  lemma EndedIsDead(states: seq<State>, steps: seq<Step>, i: nat, x: Id)
    requires IsRun(states, steps) && i < |states| && x < |states[i].execs| && EndedBefore(states, steps, i, x)
    ensures states[i].execs[x].child == Dead
  {
    hide Next, Enabled, Initial, Ends;
    var k :| 0 <= k < i && Ends(states[k], steps[k], x);
    assert Enabled(states[k], steps[k]) && states[k + 1] == Next(states[k], steps[k]);
    RunKeepsSizes(states, steps, i);
    RunKeepsSizes(states, steps, k);
    RunKeepsSizes(states, steps, k + 1);
    EndingLeavesDead(states[k], steps[k], x);
    RunEvolves(states, steps, k + 1, i, x);
  }

  predicate PastReaping(m: Monitor) {
    5 <= Stage(m) <= 19
  }

  /** The child runs although its launch has failed or its monitor has gone on to drain its output. */
  predicate LetGo(e: Exec) {
    && e.child == Alive
    && (PastReaping(e.monitor) || (e.monitor.NotSpawned? && (e.start == SpawnFailed || e.start == StartOver)))
  }

  lemma StartLetsGo(e: Exec, y: Id, adm: Option<AdmissionHolder>, mapW: Option<Id>, a: StartStep)
    requires StartParts(e) && StartEnabled(e, y, adm, mapW, a) && !LetGo(e)
    ensures LetGo(StartEffect(e, y, adm, mapW, a).e) ==> a == CaptureSetupFails(false)
  {
  }

  lemma ReapKills(e: Exec)
    ensures MonitorSideEffect(e, ReapKill(true)).child == Dead
  {
  }

  lemma PassesByReaping(e: Exec, x: Id, adm: Option<AdmissionHolder>, mapW: Option<Id>, launched: bool, a: MonitorStep)
    requires MonitorEnabled(e, x, adm, mapW, launched, a) && !PastReaping(e.monitor)
    ensures PastReaping(MonitorPhaseAfter(e, x, adm, mapW, launched, a)) ==> a.ReapKill?
  {
  }

  lemma StaysSpawned(e: Exec, x: Id, adm: Option<AdmissionHolder>, mapW: Option<Id>, launched: bool, a: MonitorStep)
    requires MonitorEnabled(e, x, adm, mapW, launched, a)
    ensures !e.monitor.NotSpawned? && !MonitorPhaseAfter(e, x, adm, mapW, launched, a).NotSpawned?
    ensures (a.LockIntent? ==> e.monitor.Captured?) && (a.Publish? ==> e.monitor.Deciding?)
  {
  }

  lemma LetGoByReaping(e: Exec, f: Exec, m: Monitor, reaps: bool)
    requires !e.monitor.NotSpawned? && !m.NotSpawned? && !LetGo(e) && SameFrame(e, f)
    requires !PastReaping(e.monitor) && PastReaping(m) ==> reaps
    ensures LetGo(f.(monitor := m)) ==> reaps && f.child == Alive
  {
    hide Stage;
  }

  lemma MonitorLetsGo(e: Exec, x: Id, adm: Option<AdmissionHolder>, mapW: Option<Id>, launched: bool, a: MonitorStep)
    requires MonitorEnabled(e, x, adm, mapW, launched, a) && !LetGo(e)
    ensures LetGo(MonitorEffect(e, x, adm, mapW, launched, a).e) ==> a == ReapKill(false)
  {
    hide MonitorSideEffect, MonitorPhaseAfter, MonitorEnabled, LetGo, PastReaping, SameFrame;
    StaysSpawned(e, x, adm, mapW, launched, a);
    SideEffectFrame(e, a);
    ReapKills(e);
    if !PastReaping(e.monitor) {
      PassesByReaping(e, x, adm, mapW, launched, a);
    }
    LetGoByReaping(e, MonitorSideEffect(e, a), MonitorPhaseAfter(e, x, adm, mapW, launched, a), a.ReapKill?);
  }

  lemma RecorderLetsNothingGo(e: Exec, a: RecorderStep)
    requires !LetGo(e)
    ensures !LetGo(RecorderEffect(e, a)) && !LetGo(e.(child := Dead))
  {
  }

  lemma LaunchLetsNothingGo(e: Exec, y: Id)
    requires !LetGo(e)
    ensures e.monitor.PostNext? || e.monitor.DispatchHolding? ==> !LetGo(LaunchingEffect(e, y))
    ensures e.start == Unstarted ==> !LetGo(e.(start := Admitted))
  {
  }

  lemma StopOnlyKills(st: Stop, t: Tid, e: Exec, a: StopStep)
    ensures TargetAfter(st, t, e, a).child == e.child || TargetAfter(st, t, e, a).child == Dead
  {
    WritersOnlyWrite(e, t, Present(st.status, None, None), ByOrphanStop(t), st.status);
    hide Cas, WithIntent;
  }

  lemma WritersOnlyWrite(e: Exec, t: Tid, row: Row, who: Winner, status: Status)
    ensures Cas(e, row, who).child == e.child && WithIntent(e, t, status).child == e.child
  {
  }

  lemma StopLetsNothingGo(st: Stop, t: Tid, e: Exec, a: StopStep)
    requires !LetGo(e)
    ensures !LetGo(TargetAfter(st, t, e, a))
  {
    QuietRecord(st, t, e, a);
    StopOnlyKills(st, t, e, a);
    hide TargetAfter;
  }

  lemma StepLetsGo(s: State, l: Step, x: Id)
    requires Inv(s) && Enabled(s, l) && x < |s.execs| && !LetGo(s.execs[x])
    ensures LetGo(Next(s, l).execs[x]) ==> LetsGo(l, x)
  {
    hide ExecOk, StopStateOk, StartEnabled, MonitorEnabled, StopEnabled, LetGo, MonitorEffect, StartEffect, RecorderEffect,
      TargetAfter, PhaseAfter, AdmissionAfter, LaunchingEffect, RecorderEnabled;
    var e := s.execs[x];
    assert ExecOk(e, x, s.adm, s.mapW);
    OwnedStart(e, x, s.adm, s.mapW);
    match l
    case Starts(y, a) =>
      if y == x {
        StartLetsGo(e, x, s.adm, s.mapW, a);
      }
    case Monitors(z, a) =>
      if z == x {
        MonitorLetsGo(e, x, s.adm, s.mapW, LaunchOver(s, x), a);
      }
    case Launches(z, y) => LaunchLetsNothingGo(e, y);
    case Records(z, a) => RecorderLetsNothingGo(e, a);
    case ChildExits(z) => RecorderLetsNothingGo(e, Seal);
    case Stops(t, a) => StopLetsNothingGo(s.stops[t], t, e, a);
  }

  /** A child that has been let go alive was let go by a kill that failed, and was not known to have ended. */
  lemma {:induction false} LetGoExactly(states: seq<State>, steps: seq<Step>, i: nat, x: Id)
    requires IsRun(states, steps) && i < |states| && x < |states[i].execs| && LetGo(states[i].execs[x])
    ensures LetGoBefore(steps, i, x) && !EndedBefore(states, steps, i, x)
  {
    hide LetGo, LetsGo, Next, Enabled, EndedBefore, Inv, Initial, Ends;
    LetGoIsAlive(states[i].execs[x]);
    if EndedBefore(states, steps, i, x) {
      EndedIsDead(states, steps, i, x);
    }
    if i == 0 {
      FreshIsNotLetGo(states[0], x);
    } else {
      assert Enabled(states[i - 1], steps[i - 1]) && states[i] == Next(states[i - 1], steps[i - 1]);
      StepKeepsSizes(states[i - 1], steps[i - 1]);
      RunKeepsInv(states, steps, i - 1);
      if LetGo(states[i - 1].execs[x]) {
        LetGoExactly(states, steps, i - 1, x);
      } else {
        StepLetsGo(states[i - 1], steps[i - 1], x);
      }
    }
  }

  lemma LetGoIsAlive(e: Exec)
    requires LetGo(e)
    ensures e.child == Alive
  {
  }

  lemma FreshIsNotLetGo(s: State, x: Id)
    requires Initial(s) && x < |s.execs|
    ensures !LetGo(s.execs[x])
  {
    assert Fresh(s.execs[x]);
  }

  // ---------------------------------------------------------------- main theorems

  /** A row leaves Running at most once: once terminal it keeps its status, exit code and outcome, and its one author. */
  lemma TerminalRowIsFinal(states: seq<State>, steps: seq<Step>, i: nat, j: nat, x: Id)
    requires IsRun(states, steps) && i <= j < |states| && x < |states[i].execs|
    requires Terminal(states[i].execs[x].row)
    ensures x < |states[j].execs| && states[j].execs[x].row == states[i].execs[x].row
    ensures states[j].execs[x].hist.winner == states[i].execs[x].hist.winner
    ensures states[i].execs[x].hist.winner.Some?
  {
    RunKeepsInv(states, steps, i);
    assert ExecOk(states[i].execs[x], x, states[i].adm, states[i].mapW);
    RunEvolves(states, steps, i, j, x);
  }

  /**
   A stop that takes requested_stop before the monitor takes it for the last time decides the outcome:
   from then on the row can only become that stop's status, or the recording failure, or (when the
   monitor's database write failed and its entry is gone) the status of a later stop. It never becomes
   the child's own outcome, and no next action is started.
   */
  lemma StopIntentDecides(states: seq<State>, steps: seq<Step>, i: nat, j: nat, x: Id)
    requires IsRun(states, steps) && i <= j < |states| && x < |states[i].execs|
    requires states[i].execs[x].requested.Some? && states[i].execs[x].hist.decision == None
    ensures x < |states[j].execs|
    ensures var e := states[j].execs[x];
            var st := states[i].execs[x].requested.value;
            && e.requested == Some(st) && e.hist.nextStarts == 0
            && (Terminal(e.row) ==>
                  || (e.hist.winner == Some(ByMonitor)
                      && (e.recorder == Recorded(CaptureComplete) ==> StoppedRow(e.row, st))
                      && (e.recorder != Recorded(CaptureComplete) ==> UnrecordedRow(e.row)))
                  || (exists t :: 0 <= t < |states[j].stops| && states[j].stops[t].target == x
                        && e.hist.winner == Some(ByOrphanStop(t)) && Gone(e.monitor)
                        && e.row == Present(states[j].stops[t].status, None, None)))
  {
    RunKeepsInv(states, steps, i);
    RunKeepsInv(states, steps, j);
    RunEvolves(states, steps, i, j, x);
    assert ExecOk(states[i].execs[x], x, states[i].adm, states[i].mapW);
    assert ExecOk(states[j].execs[x], x, states[j].adm, states[j].mapW);
    assert LinkOk(states[j].execs[x], x, states[j].stops);
    IntentDecidesNow(states[j].execs[x], x, states[j].adm, states[j].mapW, states[j].stops, states[i].execs[x].requested.value);
  }

  lemma IntentDecidesNow(e: Exec, x: Id, adm: Option<AdmissionHolder>, mapW: Option<Id>, stops: seq<Stop>, st: Status)
    requires ExecOk(e, x, adm, mapW) && LinkOk(e, x, stops)
    requires e.requested == Some(st) && (e.hist.decision.Some? ==> e.hist.decision.value.intent == Some(st))
    ensures e.hist.nextStarts == 0
    ensures Terminal(e.row) ==>
              || (e.hist.winner == Some(ByMonitor)
                  && (e.recorder == Recorded(CaptureComplete) ==> StoppedRow(e.row, st))
                  && (e.recorder != Recorded(CaptureComplete) ==> UnrecordedRow(e.row)))
              || (exists t :: 0 <= t < |stops| && stops[t].target == x && e.hist.winner == Some(ByOrphanStop(t))
                    && Gone(e.monitor) && e.row == Present(stops[t].status, None, None))
  {
    if Terminal(e.row) && e.hist.winner != Some(ByMonitor) {
      assert e.hist.winner.Some? && e.hist.winner.value.ByOrphanStop?;
      assert stops[e.hist.winner.value.t].target == x;
    }
  }

  /** The recorded intent is the status of the first stop call that reached the mutex, and that call was aimed here. */
  lemma IntentIsTheFirstStops(states: seq<State>, steps: seq<Step>, i: nat, j: nat, x: Id)
    requires IsRun(states, steps) && i <= j < |states| && x < |states[i].execs|
    requires states[i].execs[x].requested.Some?
    ensures x < |states[j].execs| && states[i].execs[x].hist.firstStop.Some?
    ensures var t := states[i].execs[x].hist.firstStop.value;
            && states[j].execs[x].hist.firstStop == Some(t) && t < |states[j].stops|
            && states[j].stops[t].target == x && states[j].execs[x].requested == Some(states[j].stops[t].status)
  {
    RunKeepsInv(states, steps, i);
    RunKeepsInv(states, steps, j);
    RunEvolves(states, steps, i, j, x);
    assert ExecOk(states[i].execs[x], x, states[i].adm, states[i].mapW);
    assert LinkOk(states[j].execs[x], x, states[j].stops);
  }

  /**
   A stop classified as an orphan's after its re-check under admission is right to say so, now and
   for the rest of the run: the launch is over, no entry is registered, and the monitor either never
   existed or has already made its one attempt and removed its entry. The child is not running, unless the
   kill before it was let go failed, its exit was never seen and no other kill succeeded either.
   */
  lemma OrphanIsSound(states: seq<State>, steps: seq<Step>, i: nat, j: nat, t: Tid)
    requires IsRun(states, steps) && i <= j < |states| && t < |states[i].stops|
    requires states[i].stops[t].phase.Orphaned?
    ensures var x := states[i].stops[t].target;
            && x < |states[i].execs| && x < |states[j].execs|
            && var e := states[j].execs[x];
               && e.start == StartOver && !e.registered
               && (e.monitor.NotSpawned? || Gone(e.monitor))
               && (states[i].execs[x].monitor.NotSpawned? || states[i].execs[x].hist.decision.Some?)
               && (e.child == Alive ==> LetGoBefore(steps, j, x) && !EndedBefore(states, steps, j, x))
  {
    var x := states[i].stops[t].target;
    RunKeepsInv(states, steps, i);
    RunKeepsInv(states, steps, j);
    RunKeepsSizes(states, steps, i);
    RunKeepsSizes(states, steps, j);
    if LetGo(states[j].execs[x]) {
      LetGoExactly(states, steps, j, x);
    }
    assert StopStateOk(states[i].stops[t], t, states[i].adm, states[i].execs[x]);
    RunEvolves(states, steps, i, j, x);
    assert ExecOk(states[i].execs[x], x, states[i].adm, states[i].mapW);
    assert ExecOk(states[j].execs[x], x, states[j].adm, states[j].mapW);
  }

  lemma LaunchKeepsOwnedRow(e: Exec, y: Id, adm: Option<AdmissionHolder>, mapW: Option<Id>, a: StartStep)
    requires StartParts(e) && YetToPublish(e.monitor) && StartEnabled(e, y, adm, mapW, a)
    ensures StartEffect(e, y, adm, mapW, a).e.row == e.row
  {
  }

  lemma MonitorKeepsOwnedRow(e: Exec, a: MonitorStep)
    requires !a.Publish? && (a.LockIntent? ==> e.monitor.Captured?)
    ensures MonitorSideEffect(e, a).row == e.row
  {
    hide Cas, Decide, RowOf;
  }

  lemma StopKeepsOwnedRow(st: Stop, t: Tid, e: Exec, adm: Option<AdmissionHolder>, mapW: Option<Id>, a: StopStep)
    requires StopStateOk(st, t, adm, e) && YetToPublish(e.monitor) && StopEnabled(st, t, e, adm, mapW, a)
    ensures TargetAfter(st, t, e, a).row == e.row
  {
  }

  lemma LauncherKeepsRow(e: Exec, y: Id)
    requires e.monitor.PostNext? || e.monitor.DispatchHolding?
    ensures LaunchingEffect(e, y).row == e.row
  {
  }

  lemma RecorderKeepsRow(e: Exec, a: RecorderStep)
    ensures RecorderEffect(e, a).row == e.row
  {
  }

  lemma StepKeepsOwnedRow(s: State, l: Step, x: Id)
    requires Inv(s) && Enabled(s, l) && x < |s.execs| && YetToPublish(s.execs[x].monitor)
    requires !(l.Monitors? && l.x == x && l.mon.Publish?)
    ensures Next(s, l).execs[x].row == s.execs[x].row
  {
    hide ExecOk, StopStateOk, StartEnabled, StopEnabled, MonitorPhaseAfter, StartEffect, TargetAfter, MonitorSideEffect, LinksOk,
      PhaseAfter, AdmissionAfter, RecorderEnabled, RecorderEffect, LaunchingEffect;
    var e := s.execs[x];
    assert ExecOk(e, x, s.adm, s.mapW);
    OwnedStart(e, x, s.adm, s.mapW);
    if l.Starts? && l.y == x {
      LaunchKeepsOwnedRow(e, x, s.adm, s.mapW, l.start);
    } else if l.Monitors? && l.x == x {
      MonitorKeepsOwnedRow(e, l.mon);
    } else if l.Launches? && l.x == x {
      LauncherKeepsRow(e, l.y);
    } else if l.Records? {
      RecorderKeepsRow(e, l.rec);
    } else if l.Stops? && s.stops[l.t].target == x {
      assert StopStateOk(s.stops[l.t], l.t, s.adm, e);
      StopKeepsOwnedRow(s.stops[l.t], l.t, e, s.adm, s.mapW, l.stop);
    }
  }

  /** As long as a monitor is pending, nobody but that monitor can write the row, whatever step anyone takes. */
  lemma OnlyTheMonitorWrites(states: seq<State>, steps: seq<Step>, i: nat, x: Id)
    requires IsRun(states, steps) && i < |steps| && x < |states[i].execs| && YetToPublish(states[i].execs[x].monitor)
    requires !(steps[i].Monitors? && steps[i].x == x && steps[i].mon.Publish?)
    ensures x < |states[i + 1].execs| && states[i].execs[x].row == Present(Running, None, None)
    ensures states[i + 1].execs[x].row == states[i].execs[x].row
  {
    RunKeepsInv(states, steps, i);
    assert ExecOk(states[i].execs[x], x, states[i].adm, states[i].mapW);
    hide Next, Enabled, StopsOk, LinksOk;
    StepKeepsOwnedRow(states[i], steps[i], x);
    StepKeepsSizes(states[i], steps[i]);
  }

  /**
   A stop that returns Ok found a terminal row, and it stays. If it waited for the monitor, the capture
   task had finished, and the child was dead, unless the monitor's kill failed, its exit was never seen
   and no other kill succeeded either.
   */
  lemma OkStopSawTheEnd(states: seq<State>, steps: seq<Step>, i: nat, j: nat, t: Tid)
    requires IsRun(states, steps) && i <= j < |states| && t < |states[i].stops|
    requires states[i].stops[t].phase.Returned? && states[i].stops[t].phase.result == StopOk
    ensures var x := states[i].stops[t].target;
            && x < |states[i].execs| && x < |states[j].execs| && Terminal(states[i].execs[x].row)
            && states[j].execs[x].row == states[i].execs[x].row
            && (states[i].stops[t].phase.live ==>
                  && states[i].execs[x].monitor.Complete?
                  && (states[i].execs[x].child != Dead ==> LetGoBefore(steps, i, x) && !EndedBefore(states, steps, i, x))
                  && states[i].execs[x].recorder.Recorded? && states[j].execs[x].recorder == states[i].execs[x].recorder)
  {
    var x := states[i].stops[t].target;
    RunKeepsInv(states, steps, i);
    assert StopStateOk(states[i].stops[t], t, states[i].adm, states[i].execs[x]);
    assert ExecOk(states[i].execs[x], x, states[i].adm, states[i].mapW);
    RunEvolves(states, steps, i, j, x);
    if LetGo(states[i].execs[x]) {
      LetGoExactly(states, steps, i, x);
    }
  }

  /** A row the monitor marked Completed has a complete recording, and a success of its own or a stop that asked for Completed. */
  lemma CompletedMeansRecorded(states: seq<State>, steps: seq<Step>, i: nat, x: Id)
    requires IsRun(states, steps) && i < |states| && x < |states[i].execs|
    requires states[i].execs[x].hist.winner == Some(ByMonitor)
    ensures var e := states[i].execs[x];
            && e.row.Present? && e.hist.decision.Some?
            && (e.row.status == Completed <==>
                  && e.recorder == Recorded(CaptureComplete)
                  && (e.hist.decision.value.intent == Some(Completed)
                      || (e.hist.decision.value.intent == None && e.hist.decision.value.own.Success?)))
  {
    RunKeepsInv(states, steps, i);
    var e := states[i].execs[x];
    assert ExecOk(e, x, states[i].adm, states[i].mapW);
    var d := e.hist.decision.value;
    CompletedExactlyWhen(d.capture, d.intent, d.own);
  }

  /**
   The monitor's own work after completion happens at most once per execution, and only when it won the write.
   Reports of finished commands by anybody else are counted in ExecutionFinishes.
   */
  lemma PostWorkOnce(states: seq<State>, steps: seq<Step>, i: nat, x: Id)
    requires IsRun(states, steps) && i < |states| && x < |states[i].execs|
    ensures var h := states[i].execs[x].hist;
            && h.nextStarts <= 1 && h.commandsFinished <= 1 && h.finalized <= 1
            && (h.nextStarts + h.commandsFinished + h.finalized > 0 ==> h.winner == Some(ByMonitor))
            && (h.nextStarts > 0 ==>
                  && states[i].execs[x].recorder == Recorded(CaptureComplete) && h.decision.Some? && h.decision.value.intent == None
                  && states[i].execs[x].row.Present?
                  && var row := states[i].execs[x].row;
                     || (row.status == Completed && row.exitCode == Some(0))
                     || (states[i].execs[x].reason == CleanupScript && row.status != Running))
  {
    RunKeepsInv(states, steps, i);
    assert ExecOk(states[i].execs[x], x, states[i].adm, states[i].mapW);
  }

  /**
   An execution that can be cancelled is cancelled before a stop waits out its grace period, and before
   it may kill the process group; only such an execution is given a grace period.
   */
  lemma CancelledBeforeKilled(states: seq<State>, steps: seq<Step>, i: nat, t: Tid)
    requires IsRun(states, steps) && i < |states| && t < |states[i].stops|
    requires var p := states[i].stops[t].phase; p.GraceWait? || p.WantsChild? || p.KillingChild?
    ensures states[i].stops[t].target < |states[i].execs|
    ensures var e := states[i].execs[states[i].stops[t].target];
            && (e.hasCancel ==> e.cancelled) && (states[i].stops[t].phase.GraceWait? ==> e.hasCancel)
            && e.requested.Some?
  {
    RunKeepsInv(states, steps, i);
    assert StopStateOk(states[i].stops[t], t, states[i].adm, states[i].execs[states[i].stops[t].target]);
  }

  /** Nobody holds a lock while waiting for a monitor, and a monitor holds none while waiting for its recorder. */
  lemma WaitersHoldNoLock(states: seq<State>, steps: seq<Step>, i: nat)
    requires IsRun(states, steps) && i < |states|
    ensures forall t: Tid :: t < |states[i].stops| && (states[i].stops[t].phase.GraceWait? || states[i].stops[t].phase.AwaitingMonitor?) ==>
              && states[i].adm != Some(ByStop(t)) && states[i].stops[t].target < |states[i].execs|
              && states[i].execs[states[i].stops[t].target].childLock != Some(StopHolds(t))
    ensures forall x: Id :: x < |states[i].execs| && (states[i].execs[x].monitor.Draining? || states[i].execs[x].monitor.DrainExpired?) ==>
              && states[i].adm != Some(ByMonitorOf(x)) && !states[i].execs[x].stopLock
              && states[i].execs[x].childLock != Some(MonitorHolds)
  {
    RunKeepsInv(states, steps, i);
    var s := states[i];
    forall t: Tid | t < |s.stops| && (s.stops[t].phase.GraceWait? || s.stops[t].phase.AwaitingMonitor?)
      ensures s.adm != Some(ByStop(t)) && s.stops[t].target < |s.execs| && s.execs[s.stops[t].target].childLock != Some(StopHolds(t))
    {
      assert StopStateOk(s.stops[t], t, s.adm, s.execs[s.stops[t].target]);
    }
    forall x: Id | x < |s.execs| && (s.execs[x].monitor.Draining? || s.execs[x].monitor.DrainExpired?)
      ensures s.adm != Some(ByMonitorOf(x)) && !s.execs[x].stopLock && s.execs[x].childLock != Some(MonitorHolds)
    {
      assert ExecOk(s.execs[x], x, s.adm, s.mapW);
    }
  }
}
