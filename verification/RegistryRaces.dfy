/**
 The registries while the reload thread and the health check goroutines interleave.

 A start or a stop touches the client registry and the health registry in two separate critical
 sections, and a ping looks its client up, waits, and records its verdict later. Each critical
 section is one step.
 */
module RegistryRaces {
  import opened Options
  import opened Strings
  import opened Registry

  /** What the reload thread is in the middle of. */
  datatype Pending = Idle | Registering(name: string) | Unregistering(name: string)

  /** A ping on its way: the name and the client it was looked up with. */
  datatype Ping = Ping(name: string, client: Client)

  datatype Sys = Sys(view: View, pending: Pending, pings: multiset<Ping>)

  datatype Event =
    | BeginStart(name: string, c: Client, tools: seq<string>)
    | EndStart
    | BeginStop(name: string)
    | EndStop
    | ToolsUpdate(name: string, tools: seq<string>)
    | PingStart(name: string)
    | PingEnd(ping: Ping, status: HealthStatus, latency: Option<real>, now: int)

  predicate Enabled(s: Sys, e: Event) {
    match e
    case BeginStart(name, _, _) => s.pending.Idle? && Normalize(name) == name
    case EndStart => s.pending.Registering?
    case BeginStop(name) => s.pending.Idle? && Normalize(name) == name
    case EndStop => s.pending.Unregistering?
    case ToolsUpdate(_, _) => s.pending.Idle?
    case PingStart(name) => name in s.view.clients
    case PingEnd(p, _, _, _) => p in s.pings
  }

  function Apply(s: Sys, e: Event): Sys
    requires Enabled(s, e)
  {
    match e
    case BeginStart(name, c, tools) => s.(view := AddClient(s.view, name, c, tools), pending := Registering(name))
    case EndStart => s.(view := AddHealth(s.view, s.pending.name), pending := Idle)
    case BeginStop(name) =>
      if name in s.view.clients then s.(view := RemoveClient(s.view, name), pending := Unregistering(name)) else s
    case EndStop => s.(view := RemoveHealth(s.view, s.pending.name), pending := Idle)
    case ToolsUpdate(name, tools) => s.(view := PutTools(s.view, name, tools))
    case PingStart(name) => s.(pings := s.pings + multiset{Ping(name, s.view.clients[name])})
    case PingEnd(p, status, latency, now) =>
      s.(view := RecordHealth(s.view, p.name, status, latency, now), pings := s.pings - multiset{p})
  }

  /** The states of a run: every event is enabled where it happens. */
  predicate IsRun(s: Sys, events: seq<Event>)
    decreases |events|
  {
    events == [] || (Enabled(s, events[0]) && IsRun(Apply(s, events[0]), events[1..]))
  }

  function After(s: Sys, events: seq<Event>): Sys
    requires IsRun(s, events)
    decreases |events|
  {
    if events == [] then s else After(Apply(s, events[0]), events[1..])
  }

  /** The registries disagree at most about the one server between its two steps. */
  ghost predicate Inv(s: Sys) {
    && s.view.clients.Keys == s.view.tools.Keys
    && match s.pending
       case Idle => s.view.health.Keys == s.view.clients.Keys
       case Registering(n) => n in s.view.clients && s.view.health.Keys + {n} == s.view.clients.Keys
       case Unregistering(n) => n !in s.view.clients && s.view.health.Keys == s.view.clients.Keys + {n}
  }

  lemma StepKeepsInv(s: Sys, e: Event)
    requires Inv(s) && Enabled(s, e)
    ensures Inv(Apply(s, e))
  {
    hide NormalizeAll;
    match e
    case BeginStart(name, _, _) =>
    case EndStart =>
      assert Apply(s, e).view.health.Keys == s.view.health.Keys + {s.pending.name};
    case BeginStop(name) =>
      hide Normalize;
      assert RemoveClient(s.view, name).clients.Keys == s.view.clients.Keys - {name};
      assert RemoveClient(s.view, name).tools.Keys == s.view.tools.Keys - {name};
    case EndStop =>
      assert Apply(s, e).view.health.Keys == s.view.health.Keys - {s.pending.name};
    case ToolsUpdate(name, _) =>
      if Normalize(name) in s.view.clients {
        assert Apply(s, e).view.tools.Keys == s.view.tools.Keys + {Normalize(name)};
      }
    case PingStart(_) =>
    case PingEnd(p, _, _, _) => PingEndKeepsKeys(s, e);
  }

  /** Recording a verdict never creates or removes a health record. */
  lemma PingEndKeepsKeys(s: Sys, e: Event)
    requires e.PingEnd? && Enabled(s, e)
    ensures Apply(s, e).view.health.Keys == s.view.health.Keys
  {
    if e.ping.name in s.view.health {
      assert Apply(s, e).view.health.Keys == s.view.health.Keys + {e.ping.name};
    }
  }

  /** In every interleaving clients and tools have the same names, and health differs as Inv says. */
  lemma {:induction false} RunKeepsInv(s: Sys, events: seq<Event>)
    requires Inv(s) && IsRun(s, events)
    ensures Inv(After(s, events))
    decreases |events|
  {
    if events != [] {
      StepKeepsInv(s, events[0]);
      RunKeepsInv(Apply(s, events[0]), events[1..]);
    }
  }

  ghost predicate Untracked(s: Sys, n: string) {
    n !in s.view.health && s.pending != Registering(n)
  }

  /** A removed record stays away, whatever pings were in flight, until its server is started again. */
  lemma {:induction false} RemovedStaysRemoved(s: Sys, events: seq<Event>, n: string)
    requires IsRun(s, events) && Untracked(s, n)
    requires forall i :: 0 <= i < |events| && events[i].BeginStart? ==> events[i].name != n
    ensures Untracked(After(s, events), n)
    decreases |events|
  {
    if events != [] {
      assert events[0].BeginStart? ==> events[0].name != n;
      RemovedStaysRemoved(Apply(s, events[0]), events[1..], n);
    }
  }

  /** While nothing is pending, a health record belongs to a running client and the other way round. */
  lemma IdleRunsAgree(s: Sys, events: seq<Event>)
    requires Inv(s) && IsRun(s, events) && After(s, events).pending.Idle?
    ensures KeysAgree(After(s, events).view)
  {
    RunKeepsInv(s, events);
  }

  /** The steps of an old ping around a restart, one by one. */
  lemma StalePingSteps(n: string, old_: Client, new_: Client, tools: seq<string>, s: Sys, e: seq<Event>) returns (t: seq<Sys>)
    requires Normalize(n) == n
    requires s == Sys(View(map[n := old_], map[n := []], map[n := NewHealth(n)]), Idle, multiset{})
    requires e == [PingStart(n), BeginStop(n), EndStop, BeginStart(n, new_, tools), EndStart,
                   PingEnd(Ping(n, old_), Unreachable, None, 0)]
    ensures |t| == 7 && t[0] == s
    ensures forall i :: 0 <= i < 6 ==> Enabled(t[i], e[i]) && Apply(t[i], e[i]) == t[i + 1]
    ensures n in t[6].view.clients && t[6].view.clients[n] == new_
    ensures n in t[6].view.health && t[6].view.health[n].status == Unreachable
  {
    hide Normalize, NormalizeAll;
    var s1 := Apply(s, e[0]);
    var s2 := Apply(s1, e[1]);
    var s3 := Apply(s2, e[2]);
    var s4 := Apply(s3, e[3]);
    var s5 := Apply(s4, e[4]);
    t := [s, s1, s2, s3, s4, s5, Apply(s5, e[5])];
  }

  lemma {:induction false} StepsAreRun(t: seq<Sys>, events: seq<Event>)
    requires |t| == |events| + 1
    requires forall i :: 0 <= i < |events| ==> Enabled(t[i], events[i]) && Apply(t[i], events[i]) == t[i + 1]
    ensures IsRun(t[0], events) && After(t[0], events) == t[|events|]
    decreases |events|
  {
    hide Enabled, Apply;
    if events != [] {
      forall i | 0 <= i < |events[1..]| ensures Enabled(t[1..][i], events[1..][i]) && Apply(t[1..][i], events[1..][i]) == t[1..][i + 1] {
        assert t[1..][i] == t[i + 1] && events[1..][i] == events[i + 1] && t[1..][i + 1] == t[i + 1 + 1];
      }
      StepsAreRun(t[1..], events[1..]);
    }
  }

  /**
   The guarantee stops at names: a ping looked up before a restart may record its verdict in the
   record of the new client.
   */
  lemma StalePingHitsNewClient(n: string, old_: Client, new_: Client, tools: seq<string>)
    returns (s: Sys, events: seq<Event>)
    requires Normalize(n) == n && old_ != new_
    ensures Inv(s) && IsRun(s, events)
    ensures
      var t := After(s, events);
      && n in t.view.clients && t.view.clients[n] == new_
      && n in t.view.health && t.view.health[n].status == Unreachable
    ensures forall i :: 0 <= i < |events| && events[i].PingEnd? ==> events[i].ping.client == old_
  {
    hide Normalize, Enabled, Apply, IsRun, After;
    s := Sys(View(map[n := old_], map[n := []], map[n := NewHealth(n)]), Idle, multiset{});
    events := [PingStart(n), BeginStop(n), EndStop, BeginStart(n, new_, tools), EndStart,
               PingEnd(Ping(n, old_), Unreachable, None, 0)];
    var t := StalePingSteps(n, old_, new_, tools, s, events);
    StepsAreRun(t, events);
  }

  /******* When a verdict is about the client that is registered *******/

  /** The client of the last start of `n` among the events, and `c` when there is none. */
  function LastStarted(events: seq<Event>, n: string, c: Client): Client
    decreases |events|
  {
    if events == [] then c
    else LastStarted(events[1..], n, if events[0].BeginStart? && events[0].name == n then events[0].c else c)
  }

  /** Registered is whoever was started last. */
  lemma {:induction false} RegisteredIsLastStarted(s: Sys, events: seq<Event>, n: string, c: Client)
    requires IsRun(s, events) && (n in s.view.clients ==> s.view.clients[n] == c)
    ensures n in After(s, events).view.clients ==> After(s, events).view.clients[n] == LastStarted(events, n, c)
    decreases |events|
  {
    if events != [] {
      hide IsRun, After;
      var e := events[0];
      RunFirst(s, events);
      StepRegisters(s, e, n, c);
      RegisteredIsLastStarted(Apply(s, e), events[1..], n, if e.BeginStart? && e.name == n then e.c else c);
    }
  }

  lemma RunFirst(s: Sys, events: seq<Event>)
    requires events != [] && IsRun(s, events)
    ensures Enabled(s, events[0]) && IsRun(Apply(s, events[0]), events[1..])
    ensures After(s, events) == After(Apply(s, events[0]), events[1..])
  {
  }

  lemma StepRegisters(s: Sys, e: Event, n: string, c: Client)
    requires Enabled(s, e) && (n in s.view.clients ==> s.view.clients[n] == c)
    ensures var started := if e.BeginStart? && e.name == n then e.c else c;
      n in Apply(s, e).view.clients ==> Apply(s, e).view.clients[n] == started
  {
    hide NormalizeAll, Normalize;
  }

  /**
   A ping of the client `c` of `n` is under way while `events` happen, and may record its verdict at
   their end. It is recorded for the registered client iff `c` is the client that was started last;
   for another client otherwise.
   */
  lemma VerdictIsRightIff(s: Sys, n: string, c: Client, events: seq<Event>)
    requires Enabled(s, PingStart(n)) && s.view.clients[n] == c && IsRun(Apply(s, PingStart(n)), events)
    ensures var u := After(Apply(s, PingStart(n)), events);
      n in u.view.clients && n in u.view.health ==> (u.view.clients[n] == c <==> LastStarted(events, n, c) == c)
  {
    hide IsRun, After, LastStarted;
    RegisteredIsLastStarted(Apply(s, PingStart(n)), events, n, c);
  }

  lemma {:induction false} NoStartKeeps(events: seq<Event>, n: string, c: Client)
    requires forall i :: 0 <= i < |events| && events[i].BeginStart? ==> events[i].name != n
    ensures LastStarted(events, n, c) == c
    decreases |events|
  {
    if events != [] {
      assert !(events[0].BeginStart? && events[0].name == n);
      NoStartKeeps(events[1..], n, c);
    }
  }

  /** When the server is not started while the ping is under way, the verdict is about the registered client. */
  lemma VerdictIsRightWithoutStart(s: Sys, n: string, c: Client, events: seq<Event>)
    requires Enabled(s, PingStart(n)) && s.view.clients[n] == c && IsRun(Apply(s, PingStart(n)), events)
    requires forall i :: 0 <= i < |events| && events[i].BeginStart? ==> events[i].name != n
    ensures var u := After(Apply(s, PingStart(n)), events);
      n in u.view.clients && n in u.view.health ==> u.view.clients[n] == c
  {
    hide IsRun, After, LastStarted;
    VerdictIsRightIff(s, n, c, events);
    NoStartKeeps(events, n, c);
  }

  /******* Which tools are registered *******/

  /** The tools of the last start or update of `n` among the events, and `tools` when there is none. */
  function LastTools(events: seq<Event>, n: string, tools: seq<string>): seq<string>
    decreases |events|
  {
    if events == [] then tools else
    LastTools(events[1..], n,
      match events[0]
      case BeginStart(name, _, given) => if name == n then NormalizeAll(given) else tools
      case ToolsUpdate(name, given) => if Normalize(name) == n then NormalizeAll(given) else tools
      case _ => tools)
  }

  /** A registered server offers the tools it was started with or updated to last, pings or not. */
  lemma {:induction false} ToolsAreLast(s: Sys, events: seq<Event>, n: string, tools: seq<string>)
    requires Inv(s) && IsRun(s, events) && (n in s.view.tools ==> s.view.tools[n] == tools)
    ensures n in After(s, events).view.tools ==> After(s, events).view.tools[n] == LastTools(events, n, tools)
    decreases |events|
  {
    if events != [] {
      hide IsRun, After, Inv, Normalize, NormalizeAll;
      var e := events[0];
      RunFirst(s, events);
      StepKeepsInv(s, e);
      StepTools(s, e, n, tools);
      ToolsAreLast(Apply(s, e), events[1..], n,
        match e
        case BeginStart(name, _, given) => if name == n then NormalizeAll(given) else tools
        case ToolsUpdate(name, given) => if Normalize(name) == n then NormalizeAll(given) else tools
        case _ => tools);
    }
  }

  lemma StepTools(s: Sys, e: Event, n: string, tools: seq<string>)
    requires Inv(s) && Enabled(s, e) && (n in s.view.tools ==> s.view.tools[n] == tools)
    ensures var next := match e
      case BeginStart(name, _, given) => if name == n then NormalizeAll(given) else tools
      case ToolsUpdate(name, given) => if Normalize(name) == n then NormalizeAll(given) else tools
      case _ => tools;
      n in Apply(s, e).view.tools ==> Apply(s, e).view.tools[n] == next
  {
    hide NormalizeAll, Normalize;
  }
}
