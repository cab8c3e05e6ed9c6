/**
 The per-host WebRTC connection cache (crates/relay-hosts/src/webrtc_cache.rs) and the handshake tasks
 that drive it (maybe_start_webrtc in crates/relay-hosts/src/lib.rs).

 The class is the locked map with one method per transition. The transition system interleaves any
 number of calls, their handshake tasks and the watchers that catch a panic. A task that panics does so
 before it has published its result.
 */
module WebRtcCache {
  import opened Options

  type Host = nat

  /** A client is named after the handshake that made it. */
  type Client = nat

  const SECOND: nat := 1_000_000_000
  const COOLDOWN: nat := 5 * 60 * SECOND

  datatype Connection = Connecting | Connected(client: Client) | Failed(at: nat)

  type Hosts = map<Host, Connection>

  // ---------------------------------------------------------------- transitions on values

  /** Whether start_connecting may begin a handshake. */
  predicate MayStart(hosts: Hosts, down: set<Client>, now: nat, h: Host) {
    h !in hosts
    || (hosts[h].Failed? && hosts[h].at + COOLDOWN <= now)
    || (hosts[h].Connected? && hosts[h].client in down)
  }

  function Usable(hosts: Hosts, down: set<Client>, h: Host): Option<Client> {
    if h in hosts && hosts[h].Connected? && hosts[h].client !in down then Some(hosts[h].client) else None
  }

  class WebRtcConnectionCache {
    var hosts: Hosts

    constructor ()
      ensures hosts == map[]
    {
      hosts := map[];
    }

    method Get(h: Host, down: set<Client>) returns (client: Option<Client>)
      ensures client == Usable(hosts, down, h)
    {
      if h in hosts {
        match hosts[h] {
          case Connected(c) => return if c in down then None else Some(c);
          case _ => return None;
        }
      }
      return None;
    }

    method Insert(h: Host, c: Client)
      modifies this
      ensures hosts == old(hosts)[h := Connected(c)]
    {
      hosts := hosts[h := Connected(c)];
    }

    /** Returns the client that must be shut down, if the host was connected. */
    method Remove(h: Host) returns (closed: Option<Client>)
      modifies this
      ensures hosts == old(hosts) - {h}
      ensures closed == if h in old(hosts) && old(hosts)[h].Connected? then Some(old(hosts)[h].client) else None
    {
      closed := if h in hosts && hosts[h].Connected? then Some(hosts[h].client) else None;
      hosts := map k | k in hosts && k != h :: hosts[k];
    }

    method StartConnecting(h: Host, down: set<Client>, now: nat) returns (started: bool)
      modifies this
      ensures started == MayStart(old(hosts), down, now, h)
      ensures hosts == if started then old(hosts)[h := Connecting] else old(hosts)
    {
      if h in hosts {
        match hosts[h] {
          case Failed(at) => started := now >= at + COOLDOWN;
          case Connected(c) => started := c in down;
          case Connecting => started := false;
        }
      } else {
        started := true;
      }
      if started {
        hosts := hosts[h := Connecting];
      }
    }

    method MarkFailed(h: Host, now: nat)
      modifies this
      ensures hosts == old(hosts)[h := Failed(now)]
    {
      hosts := hosts[h := Failed(now)];
    }
  }

  // ---------------------------------------------------------------- interleavings

  datatype Phase = Uncalled | Refused | Negotiating | Panicked | Done

  datatype Task = Task(host: Host, phase: Phase)

  datatype State = State(hosts: Hosts, down: set<Client>, now: nat, tasks: seq<Task>)

  datatype Step =
    | Start(i: Client)        // maybe_start_webrtc reaches start_connecting
    | Succeeds(i: Client)     // negotiated and connected in time: insert
    | Fails(i: Client)        // negotiation error or timeout: mark_failed
    | Panics(i: Client)
    | Caught(i: Client)       // the watcher sees the panic: mark_failed
    | Disconnects(c: Client)
    | Unpair(host: Host)      // remove
    | Tick(elapsed: nat)

  predicate Enabled(s: State, l: Step) {
    match l
    case Start(i) => i < |s.tasks| && s.tasks[i].phase == Uncalled
    case Succeeds(i) => i < |s.tasks| && s.tasks[i].phase == Negotiating
    case Fails(i) => i < |s.tasks| && s.tasks[i].phase == Negotiating
    case Panics(i) => i < |s.tasks| && s.tasks[i].phase == Negotiating
    case Caught(i) => i < |s.tasks| && s.tasks[i].phase == Panicked
    case Disconnects(_) => true
    case Unpair(_) => true
    case Tick(_) => true
  }

  function WithPhase(s: State, i: Client, p: Phase): State
    requires i < |s.tasks|
  {
    s.(tasks := s.tasks[i := s.tasks[i].(phase := p)])
  }

  function Next(s: State, l: Step): State
    requires Enabled(s, l)
  {
    match l
    case Start(i) =>
      var h := s.tasks[i].host;
      if MayStart(s.hosts, s.down, s.now, h) then WithPhase(s, i, Negotiating).(hosts := s.hosts[h := Connecting])
      else WithPhase(s, i, Refused)
    case Succeeds(i) => WithPhase(s, i, Done).(hosts := s.hosts[s.tasks[i].host := Connected(i)])
    case Fails(i) => WithPhase(s, i, Done).(hosts := s.hosts[s.tasks[i].host := Failed(s.now)])
    case Panics(i) => WithPhase(s, i, Panicked)
    case Caught(i) => WithPhase(s, i, Done).(hosts := s.hosts[s.tasks[i].host := Failed(s.now)])
    case Disconnects(c) => s.(down := s.down + {c})
    case Unpair(h) => s.(hosts := s.hosts - {h})
    case Tick(d) => s.(now := s.now + d)
  }

  predicate Initial(s: State) {
    s.hosts == map[] && s.down == {} && forall i :: 0 <= i < |s.tasks| ==> s.tasks[i].phase == Uncalled
  }

  ghost predicate IsRun(states: seq<State>, steps: seq<Step>) {
    && |states| == |steps| + 1 && Initial(states[0])
    && forall n :: 0 <= n < |steps| ==> Enabled(states[n], steps[n]) && states[n + 1] == Next(states[n], steps[n])
  }

  /** The handshake has begun and its result, a panic included, has not reached the cache. */
  predicate InFlight(s: State, h: Host, i: Client) {
    i < |s.tasks| && s.tasks[i].host == h && (s.tasks[i].phase == Negotiating || s.tasks[i].phase == Panicked)
  }

  predicate SaysConnecting(s: State, h: Host) {
    h in s.hosts && s.hosts[h] == Connecting
  }

  /** The cache says Connecting exactly when a handshake is in flight, and there are never two. */
  ghost predicate HostOk(s: State, h: Host) {
    && (SaysConnecting(s, h) <==> exists i :: InFlight(s, h, i))
    && (forall i, j :: InFlight(s, h, i) && InFlight(s, h, j) ==> i == j)
  }

  lemma StepKeepsHostOk(s: State, l: Step, h: Host)
    requires HostOk(s, h) && Enabled(s, l) && l != Unpair(h)
    ensures HostOk(Next(s, l), h)
  {
    var s' := Next(s, l);
    forall i: Client, j: Client | InFlight(s', h, i) && InFlight(s', h, j)
      ensures i == j
    {
      assert !l.Start? ==> InFlight(s, h, i) && InFlight(s, h, j);
      assert i < |s.tasks| && j < |s.tasks|;
      assert InFlight(s, h, i) || l == Start(i);
      assert InFlight(s, h, j) || l == Start(j);
    }
    if SaysConnecting(s', h) {
      if l.Start? && InFlight(s', h, l.i) {
        assert InFlight(s', h, l.i);
      } else {
        var i :| InFlight(s, h, i);
        assert InFlight(s', h, i);
      }
    }
    forall i: Client | InFlight(s', h, i)
      ensures SaysConnecting(s', h)
    {
      assert InFlight(s, h, i) || l == Start(i);
      assert l.Succeeds? || l.Fails? || l.Caught? ==> InFlight(s, s.tasks[l.i].host, l.i);
    }
  }

  // ---------------------------------------------------------------- main theorems

  /** In every run that never removes the host: Connecting iff a handshake is in flight, and at most one ever is. */
  lemma {:induction false} ConnectingIffInFlight(states: seq<State>, steps: seq<Step>, n: nat, h: Host)
    requires IsRun(states, steps) && n < |states| && Unpair(h) !in steps[..n]
    ensures HostOk(states[n], h)
  {
    if n > 0 {
      assert steps[..n] == steps[..n - 1] + [steps[n - 1]];
      ConnectingIffInFlight(states, steps, n - 1, h);
      StepKeepsHostOk(states[n - 1], steps[n - 1], h);
    }
  }

  /** Removing a host keeps that property exactly when the host was not Connecting. */
  lemma UnpairKeepsExactlyWhenIdle(s: State, h: Host)
    requires HostOk(s, h)
    ensures HostOk(Next(s, Unpair(h)), h) <==> !SaysConnecting(s, h)
  {
    var s' := Next(s, Unpair(h));
    assert forall i :: InFlight(s', h, i) <==> InFlight(s, h, i);
  }

  /** And when it was Connecting, the next call for that host puts a second handshake in flight beside the first. */
  lemma UnpairThenTwoInFlight(s: State, h: Host, i: Client)
    requires HostOk(s, h) && SaysConnecting(s, h)
    requires i < |s.tasks| && s.tasks[i].host == h && s.tasks[i].phase == Uncalled
    ensures var s1 := Next(s, Unpair(h));
            && Enabled(s1, Start(i))
            && exists j :: j != i && InFlight(Next(s1, Start(i)), h, i) && InFlight(Next(s1, Start(i)), h, j)
  {
    var j :| InFlight(s, h, j);
    var s2 := Next(Next(s, Unpair(h)), Start(i));
    assert j != i && InFlight(s2, h, i) && InFlight(s2, h, j);
  }

  predicate MarksFailed(s: State, l: Step, h: Host) {
    (l.Fails? || l.Caught?) && l.i < |s.tasks| && s.tasks[l.i].host == h
  }

  predicate Begins(s: State, l: Step, h: Host)
    requires Enabled(s, l)
  {
    l.Start? && s.tasks[l.i].host == h && Next(s, l).tasks[l.i].phase == Negotiating
  }

  /** Since a failure at `at`, the host either still shows a failure no older, or the cooldown has passed. */
  ghost predicate Cooling(s: State, h: Host, at: nat) {
    at <= s.now && (s.now >= at + COOLDOWN || (h in s.hosts && s.hosts[h].Failed? && s.hosts[h].at >= at))
  }

  lemma CoolingStep(s: State, l: Step, h: Host, at: nat)
    requires HostOk(s, h) && Enabled(s, l) && l != Unpair(h) && Cooling(s, h, at)
    ensures Cooling(Next(s, l), h, at)
  {
    assert forall i :: InFlight(s, h, i) ==> SaysConnecting(s, h);
    if l.Succeeds? {
      assert InFlight(s, s.tasks[l.i].host, l.i);
    }
  }

  lemma {:induction false} StaysCooling(states: seq<State>, steps: seq<Step>, m: nat, n: nat, h: Host)
    requires IsRun(states, steps) && m < n < |states| && Unpair(h) !in steps[..n]
    requires MarksFailed(states[m], steps[m], h)
    ensures Cooling(states[n], h, states[m].now)
    decreases n
  {
    if n > m + 1 {
      assert steps[..n] == steps[..n - 1] + [steps[n - 1]];
      StaysCooling(states, steps, m, n - 1, h);
      ConnectingIffInFlight(states, steps, n - 1, h);
      CoolingStep(states[n - 1], steps[n - 1], h, states[m].now);
    } else {
      assert states[n] == Next(states[m], steps[m]);
    }
  }

  /** After a failure, a panic included, no handshake begins for the host before the cooldown has elapsed. */
  lemma NoHandshakeBeforeCooldown(states: seq<State>, steps: seq<Step>, m: nat, n: nat, h: Host)
    requires IsRun(states, steps) && m < n < |steps| && Unpair(h) !in steps[..n]
    requires MarksFailed(states[m], steps[m], h) && Enabled(states[n], steps[n]) && Begins(states[n], steps[n], h)
    ensures states[n].now >= states[m].now + COOLDOWN
  {
    StaysCooling(states, steps, m, n, h);
  }

  /**
   An established connection is the one callers get, for as long as its client is up: until then no handshake
   begins for the host, and no failure can overwrite it.
   */
  lemma {:induction false} EstablishedStays(states: seq<State>, steps: seq<Step>, m: nat, n: nat, i: Client, h: Host)
    requires IsRun(states, steps) && m < n < |states| && Unpair(h) !in steps[..n]
    requires steps[m] == Succeeds(i) && i < |states[m].tasks| && states[m].tasks[i].host == h && i !in states[n].down
    ensures Usable(states[n].hosts, states[n].down, h) == Some(i)
    decreases n
  {
    assert Enabled(states[n - 1], steps[n - 1]) && states[n] == Next(states[n - 1], steps[n - 1]);
    if n > m + 1 {
      assert steps[..n] == steps[..n - 1] + [steps[n - 1]];
      EstablishedStays(states, steps, m, n - 1, i, h);
      ConnectingIffInFlight(states, steps, n - 1, h);
      EstablishedStep(states[n - 1], steps[n - 1], h, i);
    }
  }

  lemma EstablishedStep(s: State, l: Step, h: Host, i: Client)
    requires HostOk(s, h) && Enabled(s, l) && l != Unpair(h) && Usable(s.hosts, s.down, h) == Some(i)
    ensures i in Next(s, l).down || Usable(Next(s, l).hosts, Next(s, l).down, h) == Some(i)
  {
    assert forall j :: InFlight(s, h, j) ==> SaysConnecting(s, h);
    if l.Succeeds? || l.Fails? || l.Caught? {
      assert InFlight(s, s.tasks[l.i].host, l.i);
    }
  }

  /** A client handed out for a host is connected, and was made by a completed handshake with that very host. */
  lemma {:induction false} ClientsAreTheHostsOwn(states: seq<State>, steps: seq<Step>, n: nat, h: Host)
    requires IsRun(states, steps) && n < |states|
    ensures h in states[n].hosts && states[n].hosts[h].Connected? ==>
              var c := states[n].hosts[h].client;
              c < |states[n].tasks| && states[n].tasks[c].host == h && states[n].tasks[c].phase == Done
  {
    if n > 0 {
      ClientsAreTheHostsOwn(states, steps, n - 1, h);
      assert Enabled(states[n - 1], steps[n - 1]) && states[n] == Next(states[n - 1], steps[n - 1]);
    }
  }

  // ---------------------------------------------------------------- when a handshake begins

  /** The latest thing that happened to a host's handshakes. */
  datatype Latest = Never | UnderWay | EndedInFailure(at: nat) | EndedConnected(client: Client)

  ghost function LatestOf(states: seq<State>, steps: seq<Step>, n: nat, h: Host): Latest
    requires IsRun(states, steps) && n < |states|
  {
    if n == 0 then Never
    else
      var s, l := states[n - 1], steps[n - 1];
      if Begins(s, l, h) then UnderWay
      else if MarksFailed(s, l, h) then EndedInFailure(s.now)
      else if l.Succeeds? && s.tasks[l.i].host == h then EndedConnected(l.i)
      else LatestOf(states, steps, n - 1, h)
  }

  predicate Shows(s: State, h: Host, latest: Latest) {
    match latest
    case Never => h !in s.hosts
    case UnderWay => h in s.hosts && s.hosts[h] == Connecting
    case EndedInFailure(at) => h in s.hosts && s.hosts[h] == Failed(at)
    case EndedConnected(c) => h in s.hosts && s.hosts[h] == Connected(c)
  }

  lemma {:induction false} CacheShowsLatest(states: seq<State>, steps: seq<Step>, n: nat, h: Host)
    requires IsRun(states, steps) && n < |states| && Unpair(h) !in steps[..n]
    ensures Shows(states[n], h, LatestOf(states, steps, n, h))
  {
    if n > 0 {
      assert steps[..n] == steps[..n - 1] + [steps[n - 1]];
      CacheShowsLatest(states, steps, n - 1, h);
      assert Enabled(states[n - 1], steps[n - 1]) && states[n] == Next(states[n - 1], steps[n - 1]);
    }
  }

  /** A client is down exactly if it has disconnected. */
  lemma {:induction false} DownExactly(states: seq<State>, steps: seq<Step>, n: nat, c: Client)
    requires IsRun(states, steps) && n < |states|
    ensures (c in states[n].down) <==> (Disconnects(c) in steps[..n])
  {
    if n > 0 {
      assert steps[..n] == steps[..n - 1] + [steps[n - 1]];
      DownExactly(states, steps, n - 1, c);
      assert Enabled(states[n - 1], steps[n - 1]) && states[n] == Next(states[n - 1], steps[n - 1]);
    }
  }

  predicate Due(latest: Latest, now: nat, past: seq<Step>) {
    || latest.Never?
    || (latest.EndedInFailure? && now >= latest.at + 5 * 60 * 1_000_000_000)
    || (latest.EndedConnected? && Disconnects(latest.client) in past)
  }

  /**
   In every run that never removes the host, a call begins a handshake exactly if none has begun before, or the
   latest one ended in failure or was caught panicking at least five minutes ago, or the latest one connected
   a client that has since disconnected. While one is under way none begins.
   */
  lemma BeginsExactlyWhen(states: seq<State>, steps: seq<Step>, n: nat, i: Client, h: Host)
    requires IsRun(states, steps) && n < |steps| && Unpair(h) !in steps[..n] && steps[n] == Start(i)
    requires i < |states[n].tasks| && states[n].tasks[i].host == h
    ensures Enabled(states[n], steps[n])
    ensures Begins(states[n], steps[n], h) <==> Due(LatestOf(states, steps, n, h), states[n].now, steps[..n])
  {
    assert Enabled(states[n], steps[n]);
    CacheShowsLatest(states, steps, n, h);
    var latest := LatestOf(states, steps, n, h);
    if latest.EndedConnected? {
      DownExactly(states, steps, n, latest.client);
    }
  }
}
