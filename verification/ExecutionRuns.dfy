/** The invariant holds initially and is kept by every step, hence holds throughout every run. */
module ExecutionRuns {
  import opened Options
  import opened ProcessOutcome
  import opened ExecutionSystem
  import opened ExecutionInvariant

  lemma InitialOk(s: State)
    requires Initial(s)
    ensures Inv(s)
  {
    forall x | 0 <= x < |s.execs|
      ensures ExecOk(s.execs[x], x, s.adm, s.mapW) && LinkOk(s.execs[x], x, s.stops) && LaunchOk(s.execs[x].monitor, s.execs)
    {
      assert Fresh(s.execs[x]);
    }
    forall t | 0 <= t < |s.stops|
      ensures StopStateOk(s.stops[t], t, s.adm, s.execs[s.stops[t].target])
    {
      assert Fresh(s.execs[s.stops[t].target]);
    }
  }

  /** One execution and the two shared locks change; everything else is untouched. */
  lemma PutKeeps(s: State, x: Id, who: AdmissionHolder, f: Effect)
    requires Inv(s) && x < |s.execs| && (who == ByStart(x) || who == ByMonitorOf(x))
    requires Kept(s.execs[x], x, who, s.adm, s.mapW, f)
    ensures Inv(Put(s, x, f))
  {
    hide ExecOk, StopStateOk, LinkOk;
    RecordsStops(s.execs[x], x, s.adm, s.mapW);
    var s' := Put(s, x, f);
    var e := s.execs[x];
    forall z | 0 <= z < |s.execs|
      ensures ExecOk(s'.execs[z], z, s'.adm, s'.mapW) && LinkOk(s'.execs[z], z, s'.stops)
      ensures LaunchOk(s'.execs[z].monitor, s'.execs)
    {
      assert ExecOk(s.execs[z], z, s.adm, s.mapW) && LinkOk(s.execs[z], z, s.stops) && LaunchOk(s.execs[z].monitor, s.execs);
      if z == x {
        OwnLinkKept(e, f.e, x, s.stops);
      } else {
        OtherExecKept(s.execs[z], z, s.adm, s'.adm, s.mapW, s'.mapW);
      }
    }
    forall t | 0 <= t < |s.stops|
      ensures StopStateOk(s'.stops[t], t, s'.adm, s'.execs[s'.stops[t].target])
    {
      assert StopStateOk(s.stops[t], t, s.adm, s.execs[s.stops[t].target]);
      OtherStopKept(s.stops[t], t, s.adm, s'.adm, s.execs[s.stops[t].target], s'.execs[s.stops[t].target]);
    }
  }

  lemma OwnLinkKept(e: Exec, e': Exec, x: Id, stops: seq<Stop>)
    requires LinkOk(e, x, stops) && Evolves(e, e') && KeepsStopHolds(e, e')
    requires e.hist.winner.Some? ==> Terminal(e.row)
    requires e'.requested == e.requested && e'.hist.firstStop == e.hist.firstStop
    requires e'.hist.winner == e.hist.winner || e'.hist.winner == Some(ByMonitor) || e'.hist.winner == Some(ByStarter)
    ensures LinkOk(e', x, stops)
  {
    if e'.childLock.Some? && e'.childLock.value.StopHolds? {
      assert e.childLock == Some(StopHolds(e'.childLock.value.t));
    }
  }

  predicate SameProgress(e: Exec, e': Exec) {
    e'.start == e.start && e'.monitor == e.monitor
  }

  lemma WritersKeepProgress(e: Exec, t: Tid, row: Row, who: Winner, status: Status)
    ensures SameProgress(e, Cas(e, row, who)) && SameProgress(e, WithIntent(e, t, status))
  {
  }

  predicate SameRecord(e: Exec, e': Exec) {
    e'.hist == e.hist && e'.requested == e.requested && e'.row == e.row
  }

  /** Only the orphan write and the first intent touch what the record says about stop calls. */
  lemma QuietRecord(st: Stop, t: Tid, e: Exec, a: StopStep)
    ensures SameProgress(e, TargetAfter(st, t, e, a))
    ensures a.OrphanCas? || a.SetIntent? || SameRecord(e, TargetAfter(st, t, e, a))
  {
    WritersKeepProgress(e, t, Present(st.status, None, None), ByOrphanStop(t), st.status);
    if a.OrphanCas? || a.SetIntent? {
      hide Cas, WithIntent, SameProgress;
      assert SameProgress(e, e) by { KeepsItself(e); }
    } else {
      hide Cas, WithIntent;
    }
  }

  lemma KeepsItself(e: Exec)
    ensures SameProgress(e, e)
  {
  }

  lemma QuietLock(st: Stop, t: Tid, e: Exec, a: StopStep)
    ensures var f := TargetAfter(st, t, e, a);
            f.childLock == e.childLock || f.childLock == None || f.childLock == Some(StopHolds(t))
  {
  }

  lemma QuietStop(st: Stop, t: Tid, e: Exec, adm: Option<AdmissionHolder>, a: StopStep)
    ensures var f := StopEffectOf(st, t, e, adm, a);
            && f.e.start == e.start && f.e.monitor == e.monitor
            && (a.OrphanCas? || a.SetIntent? || (f.e.hist == e.hist && f.e.requested == e.requested && f.e.row == e.row))
            && (f.e.childLock == e.childLock || f.e.childLock == None || f.e.childLock == Some(StopHolds(t)))
  {
    QuietRecord(st, t, e, a);
    QuietLock(st, t, e, a);
    hide TargetAfter, PhaseAfter, AdmissionAfter;
  }

  lemma OrphanLinkKept(st: Stop, t: Tid, e: Exec, x: Id, stops: seq<Stop>)
    requires LinkOk(e, x, stops) && t < |stops| && stops[t] == st && st.target == x
    requires e.hist.winner.Some? ==> Terminal(e.row)
    ensures LinkOk(Cas(e, Present(st.status, None, None), ByOrphanStop(t)), x, stops)
  {
  }

  lemma IntentLinkKept(st: Stop, t: Tid, e: Exec, x: Id, stops: seq<Stop>)
    requires LinkOk(e, x, stops) && t < |stops| && stops[t] == st && st.target == x
    requires e.requested.Some? <==> e.hist.firstStop.Some?
    ensures LinkOk(WithIntent(e, t, st.status), x, stops)
  {
  }

  lemma QuietLinkKept(e: Exec, e': Exec, t: Tid, x: Id, stops: seq<Stop>)
    requires LinkOk(e, x, stops) && t < |stops| && stops[t].target == x
    requires e'.hist == e.hist && e'.requested == e.requested && e'.row == e.row
    requires e'.childLock == e.childLock || e'.childLock == None || e'.childLock == Some(StopHolds(t))
    ensures LinkOk(e', x, stops)
  {
  }

  lemma StopLinkKept(st: Stop, t: Tid, e: Exec, adm: Option<AdmissionHolder>, a: StopStep, x: Id, stops: seq<Stop>)
    requires LinkOk(e, x, stops) && t < |stops| && stops[t] == st && st.target == x
    requires e.requested.Some? <==> e.hist.firstStop.Some?
    requires e.hist.winner.Some? ==> Terminal(e.row)
    requires var f := StopEffectOf(st, t, e, adm, a); f.st.target == x && f.st.status == st.status
    ensures var f := StopEffectOf(st, t, e, adm, a); LinkOk(f.e, x, stops[t := f.st])
  {
    hide LinkOk, PhaseAfter, AdmissionAfter, Cas, WithIntent;
    var f := StopEffectOf(st, t, e, adm, a);
    if a.OrphanCas? {
      OrphanLinkKept(st, t, e, x, stops);
    } else if a.SetIntent? {
      IntentLinkKept(st, t, e, x, stops);
    } else {
      QuietStop(st, t, e, adm, a);
      hide TargetAfter;
      QuietLinkKept(e, f.e, t, x, stops);
    }
    OtherLinkKept(f.e, x, stops, t, f.st);
  }

  lemma OtherLinkKept(e: Exec, z: Id, stops: seq<Stop>, t: Tid, st: Stop)
    requires LinkOk(e, z, stops) && t < |stops| && st.target == stops[t].target && st.status == stops[t].status
    ensures LinkOk(e, z, stops[t := st])
  {
  }

  lemma LaunchKept(m: Monitor, execs: seq<Exec>, execs': seq<Exec>)
    requires LaunchOk(m, execs) && |execs| == |execs'|
    requires forall i :: 0 <= i < |execs| && execs[i].start != Unstarted ==> execs'[i].start != Unstarted
    ensures LaunchOk(m, execs')
  {
  }

  lemma RecordsStops(e: Exec, x: Id, adm: Option<AdmissionHolder>, mapW: Option<Id>)
    requires ExecOk(e, x, adm, mapW)
    ensures e.requested.Some? <==> e.hist.firstStop.Some?
    ensures e.hist.winner.Some? ==> Terminal(e.row)
  {
  }

  lemma StopStepKeeps(s: State, t: Tid, a: StopStep)
    requires Inv(s) && Enabled(s, Stops(t, a))
    ensures Inv(Next(s, Stops(t, a)))
  {
    hide ExecOk, StopStateOk, LinkOk, LaunchOk, StopEffectOf, StopEnabled;
    var s' := Next(s, Stops(t, a));
    var x := s.stops[t].target;
    var e := s.execs[x];
    var f := StopEffectOf(s.stops[t], t, e, s.adm, a);
    assert ExecOk(e, x, s.adm, s.mapW) && StopStateOk(s.stops[t], t, s.adm, e) && LinkOk(e, x, s.stops);
    StopKeeps(s.stops[t], t, e, x, s.adm, s.mapW, a);
    RecordsStops(e, x, s.adm, s.mapW);
    QuietStop(s.stops[t], t, e, s.adm, a);
    StopLinkKept(s.stops[t], t, e, s.adm, a, x, s.stops);
    forall z | 0 <= z < |s.execs|
      ensures ExecOk(s'.execs[z], z, s'.adm, s'.mapW) && LinkOk(s'.execs[z], z, s'.stops)
      ensures LaunchOk(s'.execs[z].monitor, s'.execs)
    {
      assert ExecOk(s.execs[z], z, s.adm, s.mapW) && LinkOk(s.execs[z], z, s.stops) && LaunchOk(s.execs[z].monitor, s.execs);
      LaunchKept(s.execs[z].monitor, s.execs, s'.execs);
      if z != x {
        OtherExecKept(s.execs[z], z, s.adm, s'.adm, s.mapW, s'.mapW);
        OtherLinkKept(s.execs[z], z, s.stops, t, f.st);
      }
    }
    forall u | 0 <= u < |s.stops|
      ensures StopStateOk(s'.stops[u], u, s'.adm, s'.execs[s'.stops[u].target])
    {
      assert StopStateOk(s.stops[u], u, s.adm, s.execs[s.stops[u].target]);
      if u != t {
        OtherStopKept(s.stops[u], u, s.adm, s'.adm, s.execs[s.stops[u].target], s'.execs[s.stops[u].target]);
      }
    }
  }

  /** A monitor hands admission to the execution it launches and waits for it. */
  lemma LauncherKept(e: Exec, x: Id, y: Id, adm: Option<AdmissionHolder>, mapW: Option<Id>)
    requires x != y && ExecOk(e, x, adm, mapW)
    requires (e.monitor.PostNext? && ChainContinues(e, e.monitor.allowNext) && adm == None) || e.monitor.DispatchHolding?
    ensures var e' := LaunchingEffect(e, y);
            ExecOk(e', x, Some(ByStart(y)), mapW) && Evolves(e, e') && e'.childLock == e.childLock
            && e'.hist == e.hist.(nextStarts := e'.hist.nextStarts) && e'.requested == e.requested && e'.row == e.row
    ensures adm == None || adm == Some(ByMonitorOf(x))
  {
  }

  /** The execution launched takes admission over. */
  lemma LaunchedKept(n: Exec, y: Id, adm: Option<AdmissionHolder>, mapW: Option<Id>)
    requires ExecOk(n, y, adm, mapW) && n.start == Unstarted && (adm == None || !adm.value.ByStart?)
    ensures var n' := n.(start := Admitted);
            ExecOk(n', y, Some(ByStart(y)), mapW) && Evolves(n, n')
  {
  }

  lemma LaunchKeeps(s: State, x: Id, y: Id)
    requires Inv(s) && Enabled(s, Launches(x, y))
    ensures Inv(Next(s, Launches(x, y)))
  {
    LaunchKeepsExecs(s, x, y);
    LaunchKeepsLinks(s, x, y);
    LaunchKeepsStops(s, x, y);
    hide RangeOk, ExecsOk, StopsOk, LinksOk;
  }

  lemma LaunchKeepsExecs(s: State, x: Id, y: Id)
    requires Inv(s) && Enabled(s, Launches(x, y))
    ensures ExecsOk(Next(s, Launches(x, y)))
  {
    hide ExecOk, StopStateOk, Evolves, StopsOk, LinksOk, LaunchingEffect;
    var s' := Next(s, Launches(x, y));
    assert ExecOk(s.execs[x], x, s.adm, s.mapW) && ExecOk(s.execs[y], y, s.adm, s.mapW);
    LauncherKept(s.execs[x], x, y, s.adm, s.mapW);
    LaunchedKept(s.execs[y], y, s.adm, s.mapW);
    forall z | 0 <= z < |s.execs|
      ensures ExecOk(s'.execs[z], z, s'.adm, s'.mapW)
    {
      assert ExecOk(s.execs[z], z, s.adm, s.mapW);
      if z != x && z != y {
        OtherExecKept(s.execs[z], z, s.adm, s'.adm, s.mapW, s'.mapW);
      }
    }
  }

  lemma LaunchPairLinks(e: Exec, x: Id, n: Exec, y: Id, stops: seq<Stop>)
    requires (e.monitor.PostNext? || e.monitor.DispatchHolding?) && LinkOk(e, x, stops) && LinkOk(n, y, stops)
    ensures LinkOk(LaunchingEffect(e, y), x, stops) && LaunchingEffect(e, y).start == e.start
    ensures LaunchingEffect(e, y).monitor.LaunchingNext? || LaunchingEffect(e, y).monitor.LaunchingDispatch?
    ensures LaunchingEffect(e, y).monitor.next == y
    ensures LinkOk(n.(start := Admitted), y, stops)
  {
  }

  lemma LaunchKeepsLinks(s: State, x: Id, y: Id)
    requires Inv(s) && Enabled(s, Launches(x, y))
    ensures LinksOk(Next(s, Launches(x, y)))
  {
    hide ExecOk, StopStateOk, Evolves, StopsOk, ExecsOk, LinkOk, LaunchingEffect, ChainContinues;
    var s' := Next(s, Launches(x, y));
    assert LinkOk(s.execs[x], x, s.stops) && LinkOk(s.execs[y], y, s.stops);
    LaunchPairLinks(s.execs[x], x, s.execs[y], y, s.stops);
    forall z | 0 <= z < |s.execs|
      ensures LinkOk(s'.execs[z], z, s'.stops) && LaunchOk(s'.execs[z].monitor, s'.execs)
    {
      assert LinkOk(s.execs[z], z, s.stops) && LaunchOk(s.execs[z].monitor, s.execs);
    }
  }

  lemma LaunchKeepsStops(s: State, x: Id, y: Id)
    requires Inv(s) && Enabled(s, Launches(x, y))
    ensures RangeOk(Next(s, Launches(x, y))) && StopsOk(Next(s, Launches(x, y)))
  {
    hide ExecOk, StopStateOk, Evolves, LinksOk;
    var s' := Next(s, Launches(x, y));
    assert ExecOk(s.execs[x], x, s.adm, s.mapW) && ExecOk(s.execs[y], y, s.adm, s.mapW);
    LauncherKept(s.execs[x], x, y, s.adm, s.mapW);
    LaunchedKept(s.execs[y], y, s.adm, s.mapW);
    forall t | 0 <= t < |s.stops|
      ensures StopStateOk(s'.stops[t], t, s'.adm, s'.execs[s'.stops[t].target])
    {
      var z := s.stops[t].target;
      assert StopStateOk(s.stops[t], t, s.adm, s.execs[z]);
      if z == x || z == y {
        OtherStopKept(s.stops[t], t, s.adm, s'.adm, s.execs[z], s'.execs[z]);
      } else {
        StopSeesNothing(s.stops[t], t, s.adm, s'.adm, s.execs[z]);
      }
    }
  }

  lemma StopSeesNothing(st: Stop, t: Tid, adm: Option<AdmissionHolder>, adm': Option<AdmissionHolder>, e: Exec)
    requires StopStateOk(st, t, adm, e) && (adm == Some(ByStop(t)) <==> adm' == Some(ByStop(t)))
    ensures StopStateOk(st, t, adm', e)
  {
  }

  predicate SameFrame(e: Exec, e': Exec) {
    && e'.start == e.start && e'.dispatchRounds == e.dispatchRounds && e'.recorder == e.recorder
    && (e'.child == e.child || e'.child == Dead)
  }

  lemma CasFrame(e: Exec, row: Row, who: Winner)
    ensures SameFrame(e, Cas(e, row, who))
  {
  }

  lemma SideEffectFrame(e: Exec, a: MonitorStep)
    requires (a.LockIntent? ==> e.monitor.Captured?) && (a.Publish? ==> e.monitor.Deciding?)
    ensures SameFrame(e, MonitorSideEffect(e, a))
  {
    if a.Publish? && a.dbOk {
      CasFrame(e, RowOf(Decide(e.monitor.capture, e.requested, e.monitor.own)), ByMonitor);
      hide Cas, Decide, RowOf;
    } else {
      hide Cas, Decide, RowOf;
    }
  }

  lemma ChildExitKeeps(e: Exec, x: Id, adm: Option<AdmissionHolder>, mapW: Option<Id>)
    requires ExecOk(e, x, adm, mapW) && e.child == Alive
    ensures Kept(e, x, ByStart(x), adm, mapW, Effect(e.(child := Dead), adm, mapW))
  {
  }

  lemma StepKeepsInv(s: State, l: Step)
    requires Inv(s) && Enabled(s, l)
    ensures Inv(Next(s, l))
  {
    match l
    case Starts(y, a) =>
      StartKeeps(s.execs[y], y, s.adm, s.mapW, a);
      PutKeeps(s, y, ByStart(y), StartEffect(s.execs[y], y, s.adm, s.mapW, a));
    case Monitors(x, a) =>
      MonitorKeeps(s.execs[x], x, s.adm, s.mapW, LaunchOver(s, x), a);
      PutKeeps(s, x, ByMonitorOf(x), MonitorEffect(s.execs[x], x, s.adm, s.mapW, LaunchOver(s, x), a));
    case Launches(x, y) =>
      LaunchKeeps(s, x, y);
    case Records(x, a) =>
      RecorderKeeps(s.execs[x], x, s.adm, s.mapW, a);
      PutKeeps(s, x, ByStart(x), Effect(RecorderEffect(s.execs[x], a), s.adm, s.mapW));
    case ChildExits(x) =>
      ChildExitKeeps(s.execs[x], x, s.adm, s.mapW);
      PutKeeps(s, x, ByStart(x), Effect(s.execs[x].(child := Dead), s.adm, s.mapW));
    case Stops(t, a) =>
      StopStepKeeps(s, t, a);
  }

  lemma {:induction false} RunKeepsInv(states: seq<State>, steps: seq<Step>, i: nat)
    requires IsRun(states, steps) && i < |states|
    ensures Inv(states[i])
  {
    if i == 0 {
      InitialOk(states[0]);
    } else {
      RunKeepsInv(states, steps, i - 1);
      StepKeepsInv(states[i - 1], steps[i - 1]);
    }
  }
}
