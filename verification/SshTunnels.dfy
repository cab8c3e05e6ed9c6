/**
 One local SSH tunnel per remote host (crates/relay-hosts/src/tunnel_manager.rs).

 The class holds the locked map and has one method per critical section. The transition system below
 interleaves those sections: callers that check, bind a listener, check again and insert; listener tasks
 that end and clean up; cancellations; and the shutdown of the parent token.
 */
module SshTunnels {
  import opened Options

  type Host = nat
  type Port = nat

  /** Tunnel ids are fresh UUIDs; here the number of the call that made the tunnel. */
  type TunnelId = nat

  datatype Tunnel = Tunnel(id: TunnelId, port: Port)

  type Tunnels = map<Host, Tunnel>

  // ---------------------------------------------------------------- the critical sections on values

  /** A child token is cancelled by its own cancellation or by the shutdown of its parent. */
  predicate IsCancelled(cancelled: set<TunnelId>, shutdown: bool, id: TunnelId) {
    shutdown || id in cancelled
  }

  function Usable(tunnels: Tunnels, cancelled: set<TunnelId>, shutdown: bool, host: Host): Option<Port> {
    if host in tunnels && !IsCancelled(cancelled, shutdown, tunnels[host].id) then Some(tunnels[host].port) else None
  }

  function AfterCleanup(tunnels: Tunnels, host: Host, id: TunnelId): Tunnels {
    if host in tunnels && tunnels[host].id == id then tunnels - {host} else tunnels
  }

  // ---------------------------------------------------------------- the manager

  class TunnelManager {
    var tunnels: Tunnels
    var cancelled: set<TunnelId>
    var shutdown: bool

    constructor ()
      ensures tunnels == map[] && cancelled == {} && !shutdown
    {
      tunnels, cancelled, shutdown := map[], {}, false;
    }

    method FindUsable(host: Host) returns (port: Option<Port>)
      ensures port == Usable(tunnels, cancelled, shutdown, host)
    {
      if host in tunnels {
        var tunnel := tunnels[host];
        if !shutdown && tunnel.id !in cancelled {
          return Some(tunnel.port);
        }
      }
      return None;
    }

    /** The second check and the insertion, under one lock. A usable tunnel found here wins the race. */
    method InsertUnlessUsable(host: Host, fresh_: Tunnel) returns (winner: Option<Port>)
      modifies this`tunnels
      ensures winner == Usable(old(tunnels), cancelled, shutdown, host)
      ensures tunnels == if winner.Some? then old(tunnels) else old(tunnels)[host := fresh_]
    {
      winner := FindUsable(host);
      if winner == None {
        tunnels := tunnels[host := fresh_];
      }
    }

    /** The listener task's last action: remove the entry, but only if it is still this tunnel's. */
    method CleanUp(host: Host, id: TunnelId)
      modifies this`tunnels
      ensures tunnels == AfterCleanup(old(tunnels), host, id)
    {
      if host in tunnels {
        if tunnels[host].id == id {
          tunnels := map h | h in tunnels && h != host :: tunnels[h];
        }
      }
    }

    method CancelTunnel(host: Host)
      modifies this`tunnels, this`cancelled
      ensures tunnels == old(tunnels) - {host}
      ensures cancelled == old(cancelled) + (if host in old(tunnels) then {old(tunnels)[host].id} else {})
    {
      if host in tunnels {
        cancelled := cancelled + {tunnels[host].id};
      }
      tunnels := map h | h in tunnels && h != host :: tunnels[h];
    }
  }

  // ---------------------------------------------------------------- interleavings

  datatype Phase =
    | Idle
    | Missed               // the first check found no usable tunnel
    | Bound                // this call's own listener is bound
    | Inserted             // registered, task not yet spawned
    | Listening            // spawned; the call has returned its own port
    | Ended                // the accept loop is over, cleanup is pending
    | CleanedUp
    | Served(served: Port) // the call returned another tunnel's port
    | Abandoned            // bind failed, or the caller went away

  datatype Call = Call(host: Host, port: Port, phase: Phase)

  datatype State = State(tunnels: Tunnels, cancelled: set<TunnelId>, shutdown: bool, calls: seq<Call>)

  datatype Step =
    | Check(i: TunnelId)
    | Bind(i: TunnelId, port: Port)
    | Abandon(i: TunnelId)
    | Recheck(i: TunnelId)
    | Spawn(i: TunnelId)
    | LoopEnds(i: TunnelId, acceptFailed: bool)
    | Clean(i: TunnelId)
    | Cancel(host: Host)
    | Shutdown

  predicate Enabled(s: State, l: Step) {
    match l
    case Check(i) => i < |s.calls| && s.calls[i].phase == Idle
    case Bind(i, _) => i < |s.calls| && s.calls[i].phase == Missed
    case Abandon(i) => i < |s.calls| && (s.calls[i].phase == Idle || s.calls[i].phase == Missed || s.calls[i].phase == Bound)
    case Recheck(i) => i < |s.calls| && s.calls[i].phase == Bound
    case Spawn(i) => i < |s.calls| && s.calls[i].phase == Inserted
    case LoopEnds(i, failed) =>
      i < |s.calls| && s.calls[i].phase == Listening && (failed || IsCancelled(s.cancelled, s.shutdown, i))
    case Clean(i) => i < |s.calls| && s.calls[i].phase == Ended
    case Cancel(_) => true
    case Shutdown => true
  }

  function WithPhase(s: State, i: TunnelId, p: Phase): State
    requires i < |s.calls|
  {
    s.(calls := s.calls[i := s.calls[i].(phase := p)])
  }

  function Next(s: State, l: Step): State
    requires Enabled(s, l)
  {
    match l
    case Check(i) =>
      var u := Usable(s.tunnels, s.cancelled, s.shutdown, s.calls[i].host);
      WithPhase(s, i, if u.Some? then Served(u.value) else Missed)
    case Bind(i, port) => s.(calls := s.calls[i := s.calls[i].(phase := Bound, port := port)])
    case Abandon(i) => WithPhase(s, i, Abandoned)
    case Recheck(i) =>
      var c := s.calls[i];
      var u := Usable(s.tunnels, s.cancelled, s.shutdown, c.host);
      if u.Some? then WithPhase(s, i, Served(u.value))
      else WithPhase(s, i, Inserted).(tunnels := s.tunnels[c.host := Tunnel(i, c.port)])
    case Spawn(i) => WithPhase(s, i, Listening)
    case LoopEnds(i, _) => WithPhase(s, i, Ended)
    case Clean(i) => WithPhase(s, i, CleanedUp).(tunnels := AfterCleanup(s.tunnels, s.calls[i].host, i))
    case Cancel(h) =>
      s.(tunnels := s.tunnels - {h},
         cancelled := s.cancelled + (if h in s.tunnels then {s.tunnels[h].id} else {}))
    case Shutdown => s.(shutdown := true)
  }

  predicate Initial(s: State) {
    s.tunnels == map[] && s.cancelled == {} && !s.shutdown
    && forall i :: 0 <= i < |s.calls| ==> s.calls[i].phase == Idle
  }

  ghost predicate IsRun(states: seq<State>, steps: seq<Step>) {
    && |states| == |steps| + 1 && Initial(states[0])
    && forall n :: 0 <= n < |steps| ==> Enabled(states[n], steps[n]) && states[n + 1] == Next(states[n], steps[n])
  }

  // ---------------------------------------------------------------- the invariant

  /** The tunnel's listener is open and its accept loop is running or about to. */
  predicate Open(c: Call) {
    c.phase == Inserted || c.phase == Listening
  }

  predicate WasInserted(c: Call) {
    Open(c) || c.phase == Ended || c.phase == CleanedUp
  }

  /** An open listener nobody has cancelled. */
  predicate LiveFor(s: State, h: Host, i: TunnelId) {
    i < |s.calls| && s.calls[i].host == h && Open(s.calls[i]) && !IsCancelled(s.cancelled, s.shutdown, i)
  }

  predicate Holds(s: State, h: Host, i: TunnelId) {
    h in s.tunnels && s.tunnels[h].id == i
  }

  predicate EntryOk(s: State, h: Host)
    requires h in s.tunnels
  {
    var t := s.tunnels[h];
    && t.id < |s.calls| && s.calls[t.id].host == h && s.calls[t.id].port == t.port
    && (Open(s.calls[t.id]) || s.calls[t.id].phase == Ended) && t.id !in s.cancelled
  }

  ghost predicate ServedOk(s: State, i: TunnelId)
    requires i < |s.calls|
  {
    s.calls[i].phase.Served? ==>
      exists j :: 0 <= j < |s.calls| && WasInserted(s.calls[j]) && s.calls[j].host == s.calls[i].host
                  && s.calls[j].port == s.calls[i].phase.served
  }

  ghost predicate Inv(s: State) {
    && (forall h :: h in s.tunnels ==> EntryOk(s, h))
    && (forall i :: 0 <= i < |s.calls| && LiveFor(s, s.calls[i].host, i) ==> Holds(s, s.calls[i].host, i))
    && (forall i :: i in s.cancelled ==> i < |s.calls| && WasInserted(s.calls[i]))
    && (forall i :: 0 <= i < |s.calls| ==> ServedOk(s, i))
  }

  /** Calls only move forward: an inserted tunnel keeps its host and port for ever. */
  lemma InsertedStays(s: State, l: Step, j: TunnelId)
    requires Enabled(s, l) && j < |s.calls| && WasInserted(s.calls[j])
    ensures |Next(s, l).calls| == |s.calls| && WasInserted(Next(s, l).calls[j])
    ensures Next(s, l).calls[j].host == s.calls[j].host && Next(s, l).calls[j].port == s.calls[j].port
  {
  }

  lemma ServedKept(s: State, l: Step, i: TunnelId)
    requires Inv(s) && Enabled(s, l) && i < |s.calls|
    ensures ServedOk(Next(s, l), i)
  {
    var s' := Next(s, l);
    assert ServedOk(s, i);
    if s'.calls[i].phase.Served? {
      var j: TunnelId;
      if s.calls[i].phase.Served? {
        j :| 0 <= j < |s.calls| && WasInserted(s.calls[j]) && s.calls[j].host == s.calls[i].host
             && s.calls[j].port == s.calls[i].phase.served;
      } else {
        assert EntryOk(s, s.calls[i].host);
        j := s.tunnels[s.calls[i].host].id;
      }
      InsertedStays(s, l, j);
      assert s'.calls[j].port == s'.calls[i].phase.served;
    }
  }

  lemma EntriesKept(s: State, l: Step)
    requires Inv(s) && Enabled(s, l)
    ensures forall h :: h in Next(s, l).tunnels ==> EntryOk(Next(s, l), h)
  {
    forall h | h in Next(s, l).tunnels
      ensures EntryOk(Next(s, l), h)
    {
      assert h in s.tunnels ==> EntryOk(s, h);
      match l {
        case Recheck(_) =>
        case Clean(_) =>
        case Cancel(k) => assert k in s.tunnels ==> EntryOk(s, k);
        case _ =>
      }
    }
  }

  lemma StepKeepsInv(s: State, l: Step)
    requires Inv(s) && Enabled(s, l)
    ensures Inv(Next(s, l))
  {
    var s' := Next(s, l);
    EntriesKept(s, l);
    forall i | 0 <= i < |s'.calls| && LiveFor(s', s'.calls[i].host, i)
      ensures Holds(s', s'.calls[i].host, i)
    {
      assert LiveFor(s, s.calls[i].host, i) ==> Holds(s, s.calls[i].host, i);
    }
    forall i | i in s'.cancelled
      ensures i < |s'.calls| && WasInserted(s'.calls[i])
    {
      if i !in s.cancelled {
        assert EntryOk(s, l.host);
      }
      InsertedStays(s, l, i);
    }
    forall i | 0 <= i < |s'.calls|
      ensures ServedOk(s', i)
    {
      ServedKept(s, l, i);
    }
  }

  lemma {:induction false} RunKeepsInv(states: seq<State>, steps: seq<Step>, n: nat)
    requires IsRun(states, steps) && n < |states|
    ensures Inv(states[n])
  {
    if n > 0 {
      RunKeepsInv(states, steps, n - 1);
      StepKeepsInv(states[n - 1], steps[n - 1]);
    }
  }

  // ---------------------------------------------------------------- main theorems

  /**
   In every interleaving, until shutdown, a host's uncancelled open listener is exactly the one the map
   registers, except that an entry may outlive a listener whose accept loop has failed, until its cleanup.
   */
  lemma RegisteredIsLive(states: seq<State>, steps: seq<Step>, n: nat, h: Host, i: TunnelId)
    requires IsRun(states, steps) && n < |states| && !states[n].shutdown
    ensures LiveFor(states[n], h, i)
       <==> Holds(states[n], h, i) && i < |states[n].calls| && states[n].calls[i].phase != Ended
  {
    RunKeepsInv(states, steps, n);
    assert h in states[n].tunnels ==> EntryOk(states[n], h);
  }

  lemma AtMostOneLive(states: seq<State>, steps: seq<Step>, n: nat, h: Host, i: TunnelId, j: TunnelId)
    requires IsRun(states, steps) && n < |states| && LiveFor(states[n], h, i) && LiveFor(states[n], h, j)
    ensures i == j
  {
    RegisteredIsLive(states, steps, n, h, i);
    RegisteredIsLive(states, steps, n, h, j);
  }

  /** A live tunnel stops being live only by its own loop ending, by cancelling its host, or by shutdown. */
  lemma OnlyOwnCauses(states: seq<State>, steps: seq<Step>, n: nat, h: Host, i: TunnelId)
    requires IsRun(states, steps) && n < |steps| && LiveFor(states[n], h, i)
    requires steps[n] != LoopEnds(i, true) && steps[n] != LoopEnds(i, false) && steps[n] != Cancel(h) && steps[n] != Shutdown
    ensures LiveFor(states[n + 1], h, i) && Holds(states[n + 1], h, i)
    ensures states[n + 1].tunnels[h] == states[n].tunnels[h]
  {
    RunKeepsInv(states, steps, n);
    RunKeepsInv(states, steps, n + 1);
    assert forall k :: k in states[n].tunnels ==> EntryOk(states[n], k);
  }

  /** Whoever checks or re-checks a host with a live tunnel is given that tunnel's port, and its own listener never opens. */
  lemma RaceLoserGetsWinnersPort(states: seq<State>, steps: seq<Step>, n: nat, h: Host, i: TunnelId, j: TunnelId)
    requires IsRun(states, steps) && n < |steps| && LiveFor(states[n], h, j)
    requires steps[n] == Recheck(i) || steps[n] == Check(i)
    requires i < |states[n].calls| && states[n].calls[i].host == h
    ensures states[n + 1].calls[i].phase == Served(states[n].calls[j].port)
    ensures states[n + 1].tunnels == states[n].tunnels
  {
    RunKeepsInv(states, steps, n);
    assert Enabled(states[n], steps[n]) && states[n + 1] == Next(states[n], steps[n]);
    assert EntryOk(states[n], h);
  }

  /** An insertion never overwrites anybody's entry before shutdown. */
  lemma InsertionOverwritesNothing(states: seq<State>, steps: seq<Step>, n: nat, i: TunnelId)
    requires IsRun(states, steps) && n < |steps| && steps[n] == Recheck(i) && !states[n].shutdown
    requires i < |states[n + 1].calls| && states[n + 1].calls[i].phase == Inserted
    ensures i < |states[n].calls| && states[n].calls[i].host !in states[n].tunnels
    ensures LiveFor(states[n + 1], states[n].calls[i].host, i) && Holds(states[n + 1], states[n].calls[i].host, i)
  {
    RunKeepsInv(states, steps, n);
    assert Enabled(states[n], steps[n]) && states[n + 1] == Next(states[n], steps[n]);
    var h := states[n].calls[i].host;
    assert h in states[n].tunnels ==> EntryOk(states[n], h);
  }

  /** The cleanup of an old tunnel leaves every other tunnel's entry alone, in particular a newer one for its host. */
  lemma CleanupSparesOthers(states: seq<State>, steps: seq<Step>, n: nat, i: TunnelId, h: Host)
    requires IsRun(states, steps) && n < |steps| && steps[n] == Clean(i) && !Holds(states[n], h, i)
    ensures h in states[n + 1].tunnels <==> h in states[n].tunnels
    ensures h in states[n].tunnels ==> states[n + 1].tunnels[h] == states[n].tunnels[h]
    ensures i < |states[n].calls| && !Holds(states[n + 1], states[n].calls[i].host, i)
  {
    assert Enabled(states[n], steps[n]) && states[n + 1] == Next(states[n], steps[n]);
  }

  /** After a cancellation the host has no live listener at all. */
  lemma CancelLeavesNone(states: seq<State>, steps: seq<Step>, n: nat, h: Host, i: TunnelId)
    requires IsRun(states, steps) && n < |steps| && steps[n] == Cancel(h)
    ensures !LiveFor(states[n + 1], h, i)
  {
    assert Enabled(states[n], steps[n]) && states[n + 1] == Next(states[n], steps[n]);
    if !states[n].shutdown {
      RegisteredIsLive(states, steps, n + 1, h, i);
    }
  }

  /** A port that was handed out belongs to a tunnel that was registered for the host asked for. */
  lemma ServedPortIsReal(states: seq<State>, steps: seq<Step>, n: nat, i: TunnelId)
    requires IsRun(states, steps) && n < |states| && i < |states[n].calls| && states[n].calls[i].phase.Served?
    ensures exists j :: 0 <= j < |states[n].calls| && j != i && WasInserted(states[n].calls[j])
              && states[n].calls[j].host == states[n].calls[i].host && states[n].calls[j].port == states[n].calls[i].phase.served
  {
    RunKeepsInv(states, steps, n);
    assert ServedOk(states[n], i);
  }

  /**
   A port handed out belongs to a listener that is live at that moment, unless its accept loop has failed and
   its cleanup has not run yet.
   */
  lemma ServedIsLiveExactly(states: seq<State>, steps: seq<Step>, n: nat, i: TunnelId) returns (j: TunnelId)
    requires IsRun(states, steps) && n < |steps| && (steps[n] == Check(i) || steps[n] == Recheck(i))
    requires i < |states[n].calls| && i < |states[n + 1].calls| && states[n + 1].calls[i].phase.Served?
    ensures var h := states[n].calls[i].host;
            && j < |states[n].calls| && Holds(states[n], h, j) && Holds(states[n + 1], h, j)
            && states[n + 1].calls[i].phase.served == states[n].calls[j].port
            && (LiveFor(states[n + 1], h, j) <==> states[n].calls[j].phase != Ended)
  {
    RunKeepsInv(states, steps, n);
    assert Enabled(states[n], steps[n]) && states[n + 1] == Next(states[n], steps[n]);
    var h := states[n].calls[i].host;
    assert EntryOk(states[n], h);
    j := states[n].tunnels[h].id;
  }

  /** Two calls for one host; the first has bound this port. */
  function Pair(tunnels: Tunnels, h: Host, port: Port, first: Phase, second: Phase): State {
    State(tunnels, {}, false, [Call(h, port, first), Call(h, 0, second)])
  }

  predicate Moves(s: State, l: Step, n: State) {
    Enabled(s, l) && Next(s, l) == n
  }

  lemma FirstRegisters(h: Host, port: Port)
    ensures Moves(Pair(map[], h, 0, Idle, Idle), Check(0), Pair(map[], h, 0, Missed, Idle))
    ensures Moves(Pair(map[], h, 0, Missed, Idle), Bind(0, port), Pair(map[], h, port, Bound, Idle))
    ensures Moves(Pair(map[], h, port, Bound, Idle), Recheck(0), Pair(map[h := Tunnel(0, port)], h, port, Inserted, Idle))
  {
  }

  lemma FirstFails(h: Host, port: Port)
    ensures var t: Tunnels := map[h := Tunnel(0, port)];
            && Moves(Pair(t, h, port, Inserted, Idle), Spawn(0), Pair(t, h, port, Listening, Idle))
            && Moves(Pair(t, h, port, Listening, Idle), LoopEnds(0, true), Pair(t, h, port, Ended, Idle))
            && Moves(Pair(t, h, port, Ended, Idle), Check(1), Pair(t, h, port, Ended, Served(port)))
  {
  }

  /** In that interval a caller is indeed given the port of a closed listener. */
  lemma DeadPortIsServed(h: Host, port: Port) returns (states: seq<State>, steps: seq<Step>)
    ensures IsRun(states, steps) && |steps| == 6 && |states[6].calls| == 2
    ensures states[6].calls[1] == Call(h, 0, Served(port)) && steps[5] == Check(1) && |states[5].calls| == 2
    ensures states[5].calls[0].phase == Ended && forall j :: !LiveFor(states[6], h, j)
  {
    FirstRegisters(h, port);
    FirstFails(h, port);
    var t: Tunnels := map[h := Tunnel(0, port)];
    states := [Pair(map[], h, 0, Idle, Idle), Pair(map[], h, 0, Missed, Idle), Pair(map[], h, port, Bound, Idle),
               Pair(t, h, port, Inserted, Idle), Pair(t, h, port, Listening, Idle), Pair(t, h, port, Ended, Idle),
               Pair(t, h, port, Ended, Served(port))];
    steps := [Check(0), Bind(0, port), Recheck(0), Spawn(0), LoopEnds(0, true), Check(1)];
    hide Enabled, Next;
    forall n | 0 <= n < 6
      ensures Moves(states[n], steps[n], states[n + 1])
    {
      hide Moves, Pair;
    }
  }

  /** After shutdown no port is handed out any more, and no listener is live. */
  lemma NothingServedAfterShutdown(states: seq<State>, steps: seq<Step>, m: nat, n: nat, i: TunnelId, h: Host)
    requires IsRun(states, steps) && m < n < |steps| && steps[m] == Shutdown
    ensures !LiveFor(states[n], h, i)
    ensures (steps[n] == Check(i) || steps[n] == Recheck(i)) && i < |states[n + 1].calls| ==> !states[n + 1].calls[i].phase.Served?
  {
    ShutdownStays(states, steps, m, n);
    assert Enabled(states[n], steps[n]) && states[n + 1] == Next(states[n], steps[n]);
  }

  lemma {:induction false} ShutdownStays(states: seq<State>, steps: seq<Step>, m: nat, n: nat)
    requires IsRun(states, steps) && m < n < |states| && steps[m] == Shutdown
    ensures states[n].shutdown
    decreases n
  {
    assert Enabled(states[n - 1], steps[n - 1]) && states[n] == Next(states[n - 1], steps[n - 1]);
    if n > m + 1 {
      ShutdownStays(states, steps, m, n - 1);
    }
  }
}
