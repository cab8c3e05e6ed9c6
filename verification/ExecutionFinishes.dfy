/**
 How often the queued commands behind one execution are reported finished, and by whom. Three places report:
 the monitor after its publication, the launch itself when starting the child failed, and the dispatcher of
 the queue when the launch it made returned an error. Only the first report changes the commands' state.
 */
module ExecutionFinishes {
  import opened Options
  import opened ProcessOutcome
  import opened ExecutionSystem
  import opened ExecutionInvariant
  import opened ExecutionRuns
  import opened ExecutionTheorems

  datatype Reporter = TheMonitor | TheLaunch | TheDispatcher

  /** The ends of a launch that return an error to whoever made it; a full house is not one for the dispatcher. */
  predicate ReturnsError(a: StartStep) {
    a == Refuse(false) || a.BindFails? || a.Abandon? || a.RecordFailure? || a == ReleaseAdmission(false)
  }

  predicate Reports(s: State, l: Step, x: Id, who: Reporter)
    requires x < |s.execs|
  {
    match who
    case TheMonitor => l == Monitors(x, FinishCommands) && s.execs[x].reason == CodingAgent
    case TheLaunch => l.Starts? && l.y == x && l.start.RecordFailure?
    case TheDispatcher => l.Starts? && l.y == x && ReturnsError(l.start) && s.execs[x].byDispatch
  }

  /** The number of reports one of them has made in the first i steps. */
  ghost function Count(states: seq<State>, steps: seq<Step>, i: nat, x: Id, who: Reporter): nat
    requires i <= |steps| < |states| && forall k :: 0 <= k < |states| ==> x < |states[k].execs|
  {
    if i == 0 then 0
    else Count(states, steps, i - 1, x, who) + if Reports(states[i - 1], steps[i - 1], x, who) then 1 else 0
  }

  ghost function Reported(states: seq<State>, steps: seq<Step>, i: nat, x: Id): nat
    requires i <= |steps| < |states| && forall k :: 0 <= k < |states| ==> x < |states[k].execs|
  {
    Count(states, steps, i, x, TheMonitor) + Count(states, steps, i, x, TheLaunch) + Count(states, steps, i, x, TheDispatcher)
  }

  /** What the state tells about the reports so far. */
  predicate Tallies(e: Exec, monitor: nat, launch: nat, dispatcher: nat) {
    && monitor == e.hist.commandsFinished
    && launch <= 1 && (launch == 1 ==> e.start == StartOver && e.monitor.NotSpawned?)
    && dispatcher <= 1 && (dispatcher == 1 ==> e.start == StartOver && e.byDispatch)
  }

  /** A step without a report. */
  predicate Silent(e: Exec, e': Exec) {
    && e'.hist.commandsFinished == e.hist.commandsFinished && e'.byDispatch == e.byDispatch
    && (e.start == StartOver ==> e'.start == StartOver)
    && (e.start == StartOver && e.monitor.NotSpawned? ==> e'.monitor.NotSpawned?)
  }

  lemma SilentKeeps(e: Exec, e': Exec, monitor: nat, launch: nat, dispatcher: nat)
    requires Tallies(e, monitor, launch, dispatcher) && Silent(e, e')
    ensures Tallies(e', monitor, launch, dispatcher)
  {
  }

  lemma StartTallies(e: Exec, y: Id, adm: Option<AdmissionHolder>, mapW: Option<Id>, a: StartStep, m: nat, l: nat, d: nat)
    requires StartParts(e) && StartEnabled(e, y, adm, mapW, a) && Tallies(e, m, l, d)
    ensures Tallies(StartEffect(e, y, adm, mapW, a).e, m, l + (if a.RecordFailure? then 1 else 0),
                    d + (if ReturnsError(a) && e.byDispatch then 1 else 0))
  {
  }

  predicate Bookkept(e: Exec, e': Exec) {
    e'.hist.commandsFinished == e.hist.commandsFinished && e'.byDispatch == e.byDispatch && e'.start == e.start
  }

  lemma CasBookkept(e: Exec, row: Row, who: Winner)
    ensures Bookkept(e, Cas(e, row, who))
  {
  }

  lemma MonitorBookkept(e: Exec, a: MonitorStep)
    requires (a.LockIntent? ==> e.monitor.Captured?) && (a.Publish? ==> e.monitor.Deciding?)
    requires !(a.FinishCommands? && e.reason == CodingAgent)
    ensures Bookkept(e, MonitorSideEffect(e, a))
  {
    if a.Publish? && a.dbOk {
      CasBookkept(e, RowOf(Decide(e.monitor.capture, e.requested, e.monitor.own)), ByMonitor);
      hide Cas, Decide, RowOf;
    } else {
      hide Cas, Decide, RowOf;
    }
  }

  lemma MonitorSilent(e: Exec, x: Id, adm: Option<AdmissionHolder>, mapW: Option<Id>, launched: bool, a: MonitorStep)
    requires MonitorEnabled(e, x, adm, mapW, launched, a) && !(a.FinishCommands? && e.reason == CodingAgent)
    ensures Silent(e, MonitorEffect(e, x, adm, mapW, launched, a).e)
  {
    StaysSpawned(e, x, adm, mapW, launched, a);
    hide MonitorEnabled, MonitorPhaseAfter, MonitorSideEffect;
    MonitorBookkept(e, a);
  }

  lemma MonitorReports(e: Exec, x: Id, adm: Option<AdmissionHolder>, mapW: Option<Id>, launched: bool, m: nat, l: nat, d: nat)
    requires MonitorEnabled(e, x, adm, mapW, launched, FinishCommands) && e.reason == CodingAgent && Tallies(e, m, l, d)
    ensures Tallies(MonitorEffect(e, x, adm, mapW, launched, FinishCommands).e, m + 1, l, d)
  {
  }

  lemma OthersSilent(e: Exec, y: Id, r: RecorderStep)
    ensures Silent(e, RecorderEffect(e, r)) && Silent(e, e.(child := Dead)) && Silent(e, e)
    ensures e.start == Unstarted ==> Silent(e, e.(start := Admitted))
    ensures e.monitor.PostNext? || e.monitor.DispatchHolding? ==> Silent(e, LaunchingEffect(e, y))
  {
  }

  lemma StopSilent(st: Stop, t: Tid, e: Exec, a: StopStep)
    ensures Silent(e, TargetAfter(st, t, e, a))
  {
    QuietRecord(st, t, e, a);
    StopBookkept(st, t, e, a);
    hide TargetAfter;
  }

  lemma StopBookkept(st: Stop, t: Tid, e: Exec, a: StopStep)
    ensures Bookkept(e, TargetAfter(st, t, e, a))
  {
    CasBookkept(e, Present(st.status, None, None), ByOrphanStop(t));
    IntentBookkept(e, t, st.status);
    hide Cas, WithIntent;
  }

  lemma IntentBookkept(e: Exec, t: Tid, status: Status)
    ensures Bookkept(e, WithIntent(e, t, status))
  {
  }

  function AsNat(b: bool): nat {
    if b then 1 else 0
  }

  lemma StepTallies(s: State, l: Step, x: Id, m: nat, n: nat, d: nat)
    requires Inv(s) && Enabled(s, l) && x < |s.execs| && Tallies(s.execs[x], m, n, d)
    ensures x < |Next(s, l).execs|
    ensures Tallies(Next(s, l).execs[x], m + AsNat(Reports(s, l, x, TheMonitor)), n + AsNat(Reports(s, l, x, TheLaunch)),
                    d + AsNat(Reports(s, l, x, TheDispatcher)))
  {
    hide ExecOk, StopStateOk, StartEnabled, MonitorEnabled, StopEnabled, Tallies, Silent, MonitorEffect, StartEffect,
      RecorderEffect, TargetAfter, PhaseAfter, AdmissionAfter, LaunchingEffect, RecorderEnabled;
    var e := s.execs[x];
    assert ExecOk(e, x, s.adm, s.mapW);
    OwnedStart(e, x, s.adm, s.mapW);
    OthersSilent(e, 0, Seal);
    if l.Starts? && l.y == x {
      StartTallies(e, x, s.adm, s.mapW, l.start, m, n, d);
    } else if l == Monitors(x, FinishCommands) && e.reason == CodingAgent {
      MonitorReports(e, x, s.adm, s.mapW, LaunchOver(s, x), m, n, d);
    } else {
      match l {
        case Starts(y, a) =>
        case Monitors(z, a) =>
          if z == x { MonitorSilent(e, x, s.adm, s.mapW, LaunchOver(s, x), a); }
        case Launches(z, y) => OthersSilent(e, y, Seal);
        case Records(z, a) => OthersSilent(e, 0, a);
        case ChildExits(z) =>
        case Stops(t, a) => StopSilent(s.stops[t], t, e, a);
      }
      SilentKeeps(e, Next(s, l).execs[x], m, n, d);
    }
  }

  lemma {:induction false} RunTallies(states: seq<State>, steps: seq<Step>, i: nat, x: Id)
    requires IsRun(states, steps) && i < |states| && forall k :: 0 <= k < |states| ==> x < |states[k].execs|
    ensures Tallies(states[i].execs[x], Count(states, steps, i, x, TheMonitor), Count(states, steps, i, x, TheLaunch),
                    Count(states, steps, i, x, TheDispatcher))
  {
    hide Inv, Initial, Next, Enabled, Tallies, Reports;
    if i == 0 {
      FreshTallies(states[0], x);
    } else {
      assert Enabled(states[i - 1], steps[i - 1]) && states[i] == Next(states[i - 1], steps[i - 1]);
      RunKeepsInv(states, steps, i - 1);
      RunTallies(states, steps, i - 1, x);
      StepTallies(states[i - 1], steps[i - 1], x, Count(states, steps, i - 1, x, TheMonitor),
                  Count(states, steps, i - 1, x, TheLaunch), Count(states, steps, i - 1, x, TheDispatcher));
    }
  }

  lemma FreshTallies(s: State, x: Id)
    requires Initial(s) && x < |s.execs|
    ensures Tallies(s.execs[x], 0, 0, 0)
  {
    assert Fresh(s.execs[x]);
  }

  /**
   Each place reports at most once per execution, the launch's own report excludes the monitor's, and only the
   queue's dispatcher adds to one of these: at most two reports in all, and one if nobody dispatched it.
   */
  lemma ReportedAtMostTwice(states: seq<State>, steps: seq<Step>, i: nat, x: Id)
    requires IsRun(states, steps) && i < |states| && forall k :: 0 <= k < |states| ==> x < |states[k].execs|
    ensures forall who :: Count(states, steps, i, x, who) <= 1
    ensures Count(states, steps, i, x, TheMonitor) + Count(states, steps, i, x, TheLaunch) <= 1
    ensures Count(states, steps, i, x, TheMonitor) == 1 ==> states[i].execs[x].hist.winner == Some(ByMonitor)
    ensures Count(states, steps, i, x, TheLaunch) == 1 ==> states[i].execs[x].monitor.NotSpawned?
    ensures Reported(states, steps, i, x) <= if states[i].execs[x].byDispatch then 2 else 1
  {
    RunTallies(states, steps, i, x);
    RunKeepsInv(states, steps, i);
    var e := states[i].execs[x];
    assert ExecOk(e, x, states[i].adm, states[i].mapW);
    forall who
      ensures Count(states, steps, i, x, who) <= 1
    {
      match who
      case TheMonitor =>
      case TheLaunch =>
      case TheDispatcher =>
    }
  }
}
