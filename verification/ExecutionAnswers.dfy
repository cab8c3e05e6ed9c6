/** What has been written, what has been done, and what a stop answers, in terms of the events of the run. */
module ExecutionAnswers {
  import opened Options
  import opened ProcessOutcome
  import opened ExecutionSystem
  import opened ExecutionInvariant
  import opened ExecutionRuns
  import opened ExecutionTheorems
  import opened ExecutionFinishes

  // ---------------------------------------------------------------- terminal rows

  /** The four writes of a terminal row that can go through. */
  predicate Writes(s: State, l: Step, x: Id) {
    || l == Starts(x, BindFails) || l == Starts(x, RecordFailure(true)) || l == Monitors(x, Publish(true))
    || (l.Stops? && l.stop == OrphanCas(true) && l.t < |s.stops| && s.stops[l.t].target == x)
  }

  ghost predicate WrittenBefore(states: seq<State>, steps: seq<Step>, i: nat, x: Id)
    requires i <= |steps| < |states|
  {
    exists k :: 0 <= k < i && Writes(states[k], steps[k], x)
  }

  lemma StartWrites(e: Exec, y: Id, adm: Option<AdmissionHolder>, mapW: Option<Id>, a: StartStep)
    requires StartParts(e) && StartEnabled(e, y, adm, mapW, a)
    ensures Terminal(StartEffect(e, y, adm, mapW, a).e.row) <==> Terminal(e.row) || a == BindFails || a == RecordFailure(true)
  {
    if a.RecordFailure? {
      RecordingWrites(e, y, adm, mapW, a.dbOk);
      hide StartEffect;
    } else {
      hide Cas;
    }
  }

  lemma RecordingWrites(e: Exec, y: Id, adm: Option<AdmissionHolder>, mapW: Option<Id>, dbOk: bool)
    requires StartParts(e) && e.start == SpawnFailed
    ensures !Terminal(e.row) && (Terminal(StartEffect(e, y, adm, mapW, RecordFailure(dbOk)).e.row) <==> dbOk)
  {
  }

  lemma PublicationWrites(e: Exec, x: Id, adm: Option<AdmissionHolder>, mapW: Option<Id>, dbOk: bool)
    requires ExecOk(e, x, adm, mapW) && e.monitor.Deciding?
    ensures !Terminal(e.row) && (Terminal(MonitorSideEffect(e, Publish(dbOk)).row) <==> dbOk)
  {
    hide LockParts, StartParts, PostParts;
    CompletedExactlyWhen(e.monitor.capture, e.requested, e.monitor.own);
  }

  lemma MonitorWrites(e: Exec, x: Id, adm: Option<AdmissionHolder>, mapW: Option<Id>, launched: bool, a: MonitorStep)
    requires ExecOk(e, x, adm, mapW) && MonitorEnabled(e, x, adm, mapW, launched, a)
    ensures Terminal(MonitorEffect(e, x, adm, mapW, launched, a).e.row) <==> Terminal(e.row) || a == Publish(true)
  {
    StaysSpawned(e, x, adm, mapW, launched, a);
    if a.Publish? {
      PublicationWrites(e, x, adm, mapW, a.dbOk);
    } else {
      MonitorKeepsOwnedRow(e, a);
    }
    hide ExecOk, MonitorSideEffect, MonitorPhaseAfter, MonitorEnabled;
  }

  lemma StopWrites(st: Stop, t: Tid, e: Exec, adm: Option<AdmissionHolder>, mapW: Option<Id>, a: StopStep)
    requires StopStateOk(st, t, adm, e) && StopEnabled(st, t, e, adm, mapW, a)
    ensures Terminal(TargetAfter(st, t, e, a).row) <==> Terminal(e.row) || a == OrphanCas(true)
  {
    QuietRecord(st, t, e, a);
    if a.SetIntent? {
      IntentWritesNothing(e, t, st.status);
    }
    hide WithIntent, PhaseAfter;
  }

  lemma IntentWritesNothing(e: Exec, t: Tid, status: Status)
    ensures WithIntent(e, t, status).row == e.row
  {
  }

  lemma StepWrites(s: State, l: Step, x: Id)
    requires Inv(s) && Enabled(s, l) && x < |s.execs|
    ensures x < |Next(s, l).execs| && (Terminal(Next(s, l).execs[x].row) <==> Terminal(s.execs[x].row) || Writes(s, l, x))
  {
    hide ExecOk, StopStateOk, StartEnabled, MonitorEnabled, StopEnabled, MonitorEffect, StartEffect, Terminal,
      RecorderEffect, TargetAfter, PhaseAfter, AdmissionAfter, LaunchingEffect, RecorderEnabled;
    var e := s.execs[x];
    assert ExecOk(e, x, s.adm, s.mapW);
    OwnedStart(e, x, s.adm, s.mapW);
    match l {
      case Starts(y, a) => if y == x { StartWrites(e, x, s.adm, s.mapW, a); }
      case Monitors(z, a) => if z == x { MonitorWrites(e, x, s.adm, s.mapW, LaunchOver(s, x), a); }
      case Launches(z, y) => if z == x { LauncherKeepsRow(e, y); }
      case Records(z, a) => RecorderKeepsRow(e, a);
      case ChildExits(z) =>
      case Stops(t, a) =>
        if s.stops[t].target == x {
          assert StopStateOk(s.stops[t], t, s.adm, e);
          StopWrites(s.stops[t], t, e, s.adm, s.mapW, a);
        }
    }
  }

  /** A row is terminal exactly if one of the four writes has gone through. */
  lemma {:induction false} TerminalExactlyWhen(states: seq<State>, steps: seq<Step>, i: nat, x: Id)
    requires IsRun(states, steps) && i < |states| && x < |states[i].execs|
    ensures Terminal(states[i].execs[x].row) <==> WrittenBefore(states, steps, i, x)
  {
    hide Inv, Initial, Next, Enabled, Terminal, Writes;
    if i == 0 {
      FreshUnwritten(states[0], x);
    } else {
      assert Enabled(states[i - 1], steps[i - 1]) && states[i] == Next(states[i - 1], steps[i - 1]);
      StepKeepsSizes(states[i - 1], steps[i - 1]);
      RunKeepsInv(states, steps, i - 1);
      TerminalExactlyWhen(states, steps, i - 1, x);
      StepWrites(states[i - 1], steps[i - 1], x);
    }
  }

  lemma FreshUnwritten(s: State, x: Id)
    requires Initial(s) && x < |s.execs|
    ensures !Terminal(s.execs[x].row)
  {
    assert Fresh(s.execs[x]);
  }

  /**
   A stop that has waited for the monitor answers Ok exactly if it can read the row and some write of a
   terminal row has gone through; an orphan's stop exactly if its own write reaches the database.
   */
  lemma StopAnswersExactly(states: seq<State>, steps: seq<Step>, k: nat, t: Tid)
    requires IsRun(states, steps) && k < |steps| && t < |states[k].stops| && states[k].stops[t].target < |states[k].execs|
    ensures forall dbOk :: steps[k] == Stops(t, ReadRow(dbOk)) ==>
              && t < |states[k + 1].stops|
              && states[k + 1].stops[t].phase
                 == Returned(if dbOk && WrittenBefore(states, steps, k, states[k].stops[t].target) then StopOk else StopFailed, true)
    ensures forall dbOk :: steps[k] == Stops(t, OrphanCas(dbOk)) ==>
              && t < |states[k + 1].stops|
              && states[k + 1].stops[t].phase == Returned(if dbOk then StopOk else StopFailed, false)
  {
    TerminalExactlyWhen(states, steps, k, states[k].stops[t].target);
    assert Enabled(states[k], steps[k]) && states[k + 1] == Next(states[k], steps[k]);
    hide WrittenBefore, Terminal, TargetAfter, AdmissionAfter;
  }

  // ---------------------------------------------------------------- work after publication

  ghost predicate Did(steps: seq<Step>, i: nat, l: Step)
    requires i <= |steps|
  {
    exists k :: 0 <= k < i && steps[k] == l
  }

  /** The monitor published, and afterwards found the execution's context. */
  ghost predicate Loaded(steps: seq<Step>, i: nat, x: Id)
    requires i <= |steps|
  {
    exists k :: 0 <= k < i && steps[k] == Monitors(x, UnlockIntent(true)) && Did(steps, k, Monitors(x, Publish(true)))
  }

  ghost predicate Finalized(steps: seq<Step>, i: nat, x: Id)
    requires i <= |steps|
  {
    exists k :: 0 <= k < i && steps[k].Monitors? && steps[k].x == x && steps[k].mon.Finalize?
  }

  /** Where the monitor is in its work after publication. */
  predicate WorkDone(e: Exec, published: bool, loaded: bool, finalized: bool) {
    var n := Stage(e.monitor);
    && (n <= 8 ==> !published && !loaded && !finalized)
    && (e.monitor.Published? ==> e.monitor.won == published && !loaded && !finalized)
    && (10 <= n <= 16 ==> loaded && !finalized)
    && (17 <= n <= 19 ==> finalized == loaded)
    && (n <= 12 ==> e.hist.commandsFinished == 0)
    && (13 <= n <= 19 ==> e.hist.commandsFinished == AsNat(loaded && e.reason == CodingAgent))
  }

  lemma QuietWork(e: Exec, e': Exec, published: bool, loaded: bool, finalized: bool)
    requires WorkDone(e, published, loaded, finalized)
    requires e'.monitor == e.monitor && e'.hist.commandsFinished == e.hist.commandsFinished && e'.reason == e.reason
    ensures WorkDone(e', published, loaded, finalized)
  {
  }

  lemma StartWork(e: Exec, y: Id, adm: Option<AdmissionHolder>, mapW: Option<Id>, a: StartStep, p: bool, l: bool, f: bool)
    requires ExecOk(e, y, adm, mapW) && StartEnabled(e, y, adm, mapW, a) && WorkDone(e, p, l, f)
    ensures WorkDone(StartEffect(e, y, adm, mapW, a).e, p, l, f)
  {
    hide LockParts, DecisionParts, RowParts, PostParts;
  }

  /** How a monitor's phase moves through the work. */
  lemma PhaseWork(e: Exec, x: Id, adm: Option<AdmissionHolder>, mapW: Option<Id>, launched: bool, a: MonitorStep)
    requires MonitorEnabled(e, x, adm, mapW, launched, a)
    ensures var m, n, n' := MonitorPhaseAfter(e, x, adm, mapW, launched, a), Stage(e.monitor),
                            Stage(MonitorPhaseAfter(e, x, adm, mapW, launched, a));
            && (a.Crash? ==> n' == 20) && (!a.Crash? ==> 1 <= n' <= 19 && 1 <= n <= 18)
            && (a.Publish? <==> m.Published?)
            && (a.Publish? ==> n == 8 && (m.won <==> a.dbOk && CasWins(e)))
            && (a.UnlockIntent? <==> n == 9 && !a.Crash?)
            && (a.UnlockIntent? ==> n' == if e.monitor.won && a.contextLoaded then 10 else 17)
            && (a.FinishCommands? <==> n == 12 && !a.Crash?) && (a.FinishCommands? ==> n' == 13)
            && (a.Finalize? <==> n == 16 && !a.Crash?) && (a.Finalize? ==> n' == 17)
            && (n <= 7 && !a.Crash? ==> n' <= 8)
            && (10 <= n <= 11 && !a.Crash? ==> 10 <= n' <= 12)
            && (13 <= n <= 15 && !a.Crash? ==> 13 <= n' <= 16) && (17 <= n && !a.Crash? ==> 17 <= n')
    ensures (a.LockIntent? ==> e.monitor.Captured?) && (a.Publish? ==> e.monitor.Deciding?)
  {
  }

  lemma CommandsAfter(e: Exec, a: MonitorStep)
    requires (a.LockIntent? ==> e.monitor.Captured?) && (a.Publish? ==> e.monitor.Deciding?)
    ensures MonitorSideEffect(e, a).hist.commandsFinished == e.hist.commandsFinished + AsNat(a.FinishCommands? && e.reason == CodingAgent)
    ensures MonitorSideEffect(e, a).reason == e.reason
  {
    if a.FinishCommands? && e.reason == CodingAgent {
    } else {
      MonitorBookkept(e, a);
    }
    ReasonKept(e, a);
    hide MonitorSideEffect;
  }

  predicate SameReason(e: Exec, f: Exec) {
    f.reason == e.reason
  }

  lemma ReasonKept(e: Exec, a: MonitorStep)
    requires (a.LockIntent? ==> e.monitor.Captured?) && (a.Publish? ==> e.monitor.Deciding?)
    ensures SameReason(e, MonitorSideEffect(e, a))
  {
    if a.Publish? && a.dbOk {
      CasReason(e, RowOf(Decide(e.monitor.capture, e.requested, e.monitor.own)), ByMonitor);
      hide Cas, Decide, RowOf;
    } else {
      hide Cas, Decide, RowOf;
    }
  }

  lemma CasReason(e: Exec, row: Row, who: Winner)
    ensures SameReason(e, Cas(e, row, who))
  {
  }

  /** The row of a monitor that decides is Running, so what it writes is written. */
  lemma DecidingCasWins(e: Exec, x: Id, adm: Option<AdmissionHolder>, mapW: Option<Id>)
    requires ExecOk(e, x, adm, mapW) && e.monitor.Deciding?
    ensures CasWins(e)
  {
  }

  lemma MonitorWork(e: Exec, x: Id, adm: Option<AdmissionHolder>, mapW: Option<Id>, launched: bool, a: MonitorStep,
                    p: bool, l: bool, f: bool)
    requires ExecOk(e, x, adm, mapW) && MonitorEnabled(e, x, adm, mapW, launched, a) && WorkDone(e, p, l, f)
    ensures WorkDone(MonitorEffect(e, x, adm, mapW, launched, a).e, p || a == Publish(true),
                     l || (a == UnlockIntent(true) && p), f || a.Finalize?)
  {
    PhaseWork(e, x, adm, mapW, launched, a);
    CommandsAfter(e, a);
    if a.Publish? {
      DecidingCasWins(e, x, adm, mapW);
    }
    hide ExecOk, MonitorEnabled, MonitorPhaseAfter, MonitorSideEffect, CasWins;
  }

  lemma LaunchWork(e: Exec, y: Id, p: bool, l: bool, f: bool)
    requires (e.monitor.PostNext? || e.monitor.DispatchHolding?) && WorkDone(e, p, l, f)
    ensures WorkDone(LaunchingEffect(e, y), p, l, f)
  {
  }

  lemma RecorderQuiet(e: Exec, r: RecorderStep)
    ensures RecorderEffect(e, r).monitor == e.monitor && RecorderEffect(e, r).hist == e.hist && RecorderEffect(e, r).reason == e.reason
  {
  }

  lemma StopQuiet(st: Stop, t: Tid, e: Exec, a: StopStep)
    ensures var f := TargetAfter(st, t, e, a);
            f.monitor == e.monitor && f.hist.commandsFinished == e.hist.commandsFinished && SameReason(e, f)
  {
    QuietRecord(st, t, e, a);
    StopBookkept(st, t, e, a);
    CasReason(e, Present(st.status, None, None), ByOrphanStop(t));
    IntentReason(e, t, st.status);
    hide Cas, WithIntent;
  }

  lemma IntentReason(e: Exec, t: Tid, status: Status)
    ensures SameReason(e, WithIntent(e, t, status))
  {
  }

  lemma StepWork(s: State, l: Step, x: Id, p: bool, d: bool, f: bool)
    requires Inv(s) && Enabled(s, l) && x < |s.execs| && WorkDone(s.execs[x], p, d, f)
    ensures x < |Next(s, l).execs|
    ensures WorkDone(Next(s, l).execs[x], p || l == Monitors(x, Publish(true)),
                     d || (l == Monitors(x, UnlockIntent(true)) && p), f || (l.Monitors? && l.x == x && l.mon.Finalize?))
  {
    hide ExecOk, StopStateOk, StartEnabled, MonitorEnabled, StopEnabled, MonitorEffect, StartEffect, WorkDone,
      RecorderEffect, TargetAfter, PhaseAfter, AdmissionAfter, LaunchingEffect, RecorderEnabled;
    var e := s.execs[x];
    var e' := Next(s, l).execs[x];
    assert ExecOk(e, x, s.adm, s.mapW);
    match l {
      case Starts(y, a) => if y == x { StartWork(e, x, s.adm, s.mapW, a, p, d, f); }
      case Monitors(z, a) => if z == x { MonitorWork(e, x, s.adm, s.mapW, LaunchOver(s, x), a, p, d, f); }
      case Launches(z, y) =>
        if z == x { LaunchWork(e, y, p, d, f); } else { QuietWork(e, e', p, d, f); }
      case Records(z, a) =>
        RecorderQuiet(e, a);
        QuietWork(e, e', p, d, f);
      case ChildExits(z) => QuietWork(e, e', p, d, f);
      case Stops(t, a) =>
        StopQuiet(s.stops[t], t, e, a);
        QuietWork(e, e', p, d, f);
    }
  }

  lemma {:induction false} RunWork(states: seq<State>, steps: seq<Step>, i: nat, x: Id)
    requires IsRun(states, steps) && i < |states| && x < |states[i].execs|
    ensures WorkDone(states[i].execs[x], Did(steps, i, Monitors(x, Publish(true))), Loaded(steps, i, x), Finalized(steps, i, x))
  {
    hide Inv, Initial, Next, Enabled, WorkDone;
    if i == 0 {
      FreshWork(states[0], x);
    } else {
      assert Enabled(states[i - 1], steps[i - 1]) && states[i] == Next(states[i - 1], steps[i - 1]);
      StepKeepsSizes(states[i - 1], steps[i - 1]);
      RunKeepsInv(states, steps, i - 1);
      RunWork(states, steps, i - 1, x);
      StepWork(states[i - 1], steps[i - 1], x, Did(steps, i - 1, Monitors(x, Publish(true))), Loaded(steps, i - 1, x),
               Finalized(steps, i - 1, x));
    }
  }

  lemma FreshWork(s: State, x: Id)
    requires Initial(s) && x < |s.execs|
    ensures WorkDone(s.execs[x], false, false, false)
  {
    assert Fresh(s.execs[x]);
  }

  /**
   The work after publication is not skipped: a monitor that has come to its cleanup has finished its
   commands, if they were an agent's, and reached finalization exactly if its write went through and it could
   load the execution's context.
   */
  lemma WorkIsDoneExactly(states: seq<State>, steps: seq<Step>, i: nat, x: Id)
    requires IsRun(states, steps) && i < |states| && forall k :: 0 <= k < |states| ==> x < |states[k].execs|
    requires var m := states[i].execs[x].monitor; m.Cleanup? || m.Removed? || m.Complete?
    ensures Finalized(steps, i, x) <==> Loaded(steps, i, x)
    ensures Count(states, steps, i, x, TheMonitor) == AsNat(Loaded(steps, i, x) && states[i].execs[x].reason == CodingAgent)
  {
    hide IsRun, Loaded, Finalized, Did, Count;
    RunWork(states, steps, i, x);
    RunTallies(states, steps, i, x);
  }
}
