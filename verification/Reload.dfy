/** Reconciling the running servers with a new configuration. */
module Reload {
  import opened Options
  import opened Strings
  import opened ServerConfig
  import opened ServerValidation
  import opened Registry

  datatype ReloadError =
    | Invalid(name: string) | StopFailed(name: string) | UpdateToolsFailed(name: string)
    | RestartStopFailed(name: string) | RestartStartFailed(name: string) | AddFailed(name: string)

  /** Names are assumed to be stored normalized; see RegistrationAgreesIffNormalized. */
  ghost predicate NamesNormalized(servers: seq<Server>) {
    forall i :: 0 <= i < |servers| ==> Normalize(servers[i].entry.name) == servers[i].entry.name
  }

  /** The configuration by name; a later entry replaces an earlier one of the same name. */
  function ByName(servers: seq<Server>): (m: map<string, Server>)
    ensures forall n :: n in m ==> Normalize(m[n].entry.name) == n && m[n] in servers
  {
    if servers == [] then map[] else
    var last := servers[|servers| - 1];
    ByName(servers[..|servers| - 1])[Normalize(last.entry.name) := last]
  }

  /** Of several servers of one name the last is configured, and nothing else is. */
  lemma {:induction false} ByNameIsLast(servers: seq<Server>, i: nat)
    requires i < |servers|
    requires forall j :: i < j < |servers| ==> Normalize(servers[j].entry.name) != Normalize(servers[i].entry.name)
    ensures Normalize(servers[i].entry.name) in ByName(servers)
    ensures ByName(servers)[Normalize(servers[i].entry.name)] == servers[i]
  {
    hide Normalize;
    if i < |servers| - 1 { ByNameIsLast(servers[..|servers| - 1], i); }
  }

  lemma {:induction false} ByNameHasNoOther(servers: seq<Server>, n: string)
    ensures n in ByName(servers) <==> exists i :: 0 <= i < |servers| && Normalize(servers[i].entry.name) == n
  {
    hide Normalize;
    if servers != [] { ByNameHasNoOther(servers[..|servers| - 1], n); }
  }

  /******* Specification *******/

  /** One running server agrees with its configuration, up to what the comparisons look at. */
  ghost predicate RunsAs(v: View, n: string, cfg: Server) {
    && n in v.clients && n in v.tools && n in v.health
    && SameLaunch(v.clients[n].launched, cfg)
    && multiset(v.tools[n]) == multiset(NormalizeAll(cfg.entry.tools))
  }

  /** The registries hold exactly the configured servers, each running as configured. */
  ghost predicate Matches(v: View, servers: seq<Server>) {
    && KeysAgree(v)
    && v.clients.Keys == ByName(servers).Keys
    && (forall n :: n in ByName(servers) ==> RunsAs(v, n, ByName(servers)[n]))
  }

  /** What every reload keeps, failures or not: only configured servers run, and those that run do so as configured. */
  ghost predicate RunsOnly(v: View, servers: seq<Server>) {
    && KeysAgree(v)
    && v.clients.Keys <= ByName(servers).Keys
    && (forall n :: n in v.clients ==> RunsAs(v, n, ByName(servers)[n]))
  }

  lemma MatchesMeans(v: View, servers: seq<Server>)
    ensures Matches(v, servers) <==> RunsOnly(v, servers) && v.clients.Keys == ByName(servers).Keys
  {
    hide RunsAs, KeysAgree, ByName;
  }

  /** Configured, but not running. */
  ghost predicate IsDown(v: View, servers: seq<Server>, n: string) {
    n in ByName(servers) && n !in v.clients
  }

  ghost predicate Kept(v: View, w: View, n: string) {
    && n in v.clients && n in w.clients && v.clients[n] == w.clients[n]
    && n in v.health && n in w.health && v.health[n] == w.health[n]
    && n in v.tools && n in w.tools
  }

  /** A restarted or added server: launched from the new configuration, with a new health record. */
  ghost predicate Launched(w: View, n: string, cfg: Server) {
    && RunsAs(w, n, cfg)
    && w.clients[n].launched == cfg && w.tools[n] == NormalizeAll(cfg.entry.tools)
    && w.health[n] == NewHealth(n)
  }

  ghost predicate ReloadedAt(v: View, existing: map<string, Server>, w: View, n: string, cfg: Server) {
    if n in existing && SameLaunch(existing[n], cfg) then
      Kept(v, w, n) && (SameTools(existing[n], cfg) ==> w.tools[n] == v.tools[n])
    else
      Launched(w, n, cfg)
  }

  /** A successful reload that started from a state matching the old configuration. */
  ghost predicate Reloaded(v: View, was: seq<Server>, w: View, now: seq<Server>) {
    && Matches(w, now)
    && (forall n :: n in ByName(now) ==> ReloadedAt(v, ByName(was), w, n, ByName(now)[n]))
  }

  /******* The reload as a method on the daemon *******/

  ghost function FailedNames(errs: seq<ReloadError>): set<string> {
    set e | e in errs :: e.name
  }

  lemma FailedNamesConcat(a: seq<ReloadError>, b: seq<ReloadError>)
    ensures FailedNames(a + b) == FailedNames(a) + FailedNames(b)
  {
  }

  /**
   What holds after every reload that passed validation, even when some operations failed: the
   registries agree, only configured servers run, and each of them is as after a full success; a
   configured server that does not run was reported or was down before, and what was down stays down.
   */
  ghost predicate PartlyReloaded(v: View, was: seq<Server>, w: View, now: seq<Server>, failed: set<string>) {
    && KeysAgree(w)
    && w.clients.Keys <= ByName(now).Keys
    && (forall n :: n in w.clients ==> PlacedAs(v, was, w, now, n))
    && (forall n :: IsDown(w, now, n) ==> n in failed || IsDown(v, was, n))
    && (forall n :: IsDown(v, was, n) ==> n !in w.clients)
  }

  ghost predicate PlacedAs(v: View, was: seq<Server>, w: View, now: seq<Server>, n: string) {
    n in ByName(now) && RunsAs(w, n, ByName(now)[n]) && ReloadedAt(v, ByName(was), w, n, ByName(now)[n])
  }

  lemma NoFailureReloads(v: View, was: seq<Server>, w: View, now: seq<Server>)
    requires Matches(v, was) && PartlyReloaded(v, was, w, now, {})
    ensures Reloaded(v, was, w, now)
  {
    hide RunsAs, ReloadedAt, ByName, KeysAgree;
    forall n | n in ByName(now)
      ensures n in w.clients && RunsAs(w, n, ByName(now)[n]) && ReloadedAt(v, ByName(was), w, n, ByName(now)[n])
    {
      assert n in ByName(was) ==> n in v.clients;
      assert !IsDown(v, was, n) && !IsDown(w, now, n);
      assert PlacedAs(v, was, w, now, n);
    }
    assert w.clients.Keys == ByName(now).Keys;
  }

  lemma PartlyRunsOnly(v: View, was: seq<Server>, w: View, now: seq<Server>, failed: set<string>)
    requires PartlyReloaded(v, was, w, now, failed)
    ensures RunsOnly(w, now)
  {
    hide RunsAs, ReloadedAt, KeysAgree, ByName;
    forall n | n in w.clients ensures RunsAs(w, n, ByName(now)[n]) { assert PlacedAs(v, was, w, now, n); }
  }

  predicate Distinct<T(==)>(items: seq<T>) {
    forall i, j :: 0 <= i < j < |items| ==> items[i] != items[j]
  }

  ghost predicate AllNormalized(names: seq<string>) {
    forall i :: 0 <= i < |names| ==> Normalize(names[i]) == names[i]
  }

  /******* One operation on the joint state *******/

  /** Every name outside `names` is as before. */
  ghost predicate OnlyTouches(v: View, w: View, names: seq<string>) {
    forall n :: n !in names ==> SameAt(v, w, n)
  }

  function Stopped(v: View, name: string): View {
    if Normalize(name) in v.clients then RemoveHealth(RemoveClient(v, name), name) else v
  }

  function Started(v: View, server: Server, c: Client): View {
    AddHealth(AddClient(v, server.entry.name, c, server.entry.tools), server.entry.name)
  }

  /** How the environment let one stop or start end. */
  datatype Attempt = StopFails | StartFails | Up(c: Client)

  /** Stop, then start when the stop succeeded; a stop that times out has already unregistered. */
  function Restarted(v: View, server: Server, attempt: Attempt): View {
    var w := Stopped(v, server.entry.name);
    if attempt.Up? then Started(w, server, attempt.c) else w
  }

  lemma StoppedEffect(v: View, name: string)
    requires KeysAgree(v) && Normalize(name) == name
    ensures KeysAgree(Stopped(v, name)) && name !in Stopped(v, name).clients
    ensures OnlyTouches(v, Stopped(v, name), [name])
  {
    hide Normalize;
  }

  lemma StartedEffect(v: View, server: Server, c: Client)
    requires KeysAgree(v) && Normalize(server.entry.name) == server.entry.name
    requires server.entry.name !in v.clients && c.launched == server
    ensures KeysAgree(Started(v, server, c)) && Launched(Started(v, server, c), server.entry.name, server)
    ensures OnlyTouches(v, Started(v, server, c), [server.entry.name])
  {
    hide Normalize, NormalizeAll;
  }

  lemma RestartedEffect(v: View, server: Server, attempt: Attempt)
    requires KeysAgree(v) && Normalize(server.entry.name) == server.entry.name
    requires attempt.Up? ==> attempt.c.launched == server
    ensures KeysAgree(Restarted(v, server, attempt)) && OnlyTouches(v, Restarted(v, server, attempt), [server.entry.name])
    ensures EndsAs(Restarted(v, server, attempt), server.entry.name, server, attempt)
  {
    hide Stopped, Started, Normalize, Launched, KeysAgree;
    StoppedEffect(v, server.entry.name);
    if attempt.Up? {
      StartedEffect(Stopped(v, server.entry.name), server, attempt.c);
    }
  }

  lemma PutToolsEffect(v: View, name: string, tools: seq<string>)
    requires KeysAgree(v) && Normalize(name) == name
    ensures KeysAgree(PutTools(v, name, tools)) && OnlyTouches(v, PutTools(v, name, tools), [name])
    ensures name in v.clients ==>
              Kept(v, PutTools(v, name, tools), name) && PutTools(v, name, tools).tools[name] == NormalizeAll(tools)
  {
    hide Normalize, NormalizeAll;
  }

  lemma PutToolsKeepsClients(v: View, name: string, tools: seq<string>)
    ensures PutTools(v, name, tools).clients == v.clients
  {
  }

  /******* Health checks in between *******/

  /** Differs by verdicts of health checks only: the same clients and tools, and records for the same names. */
  ghost predicate Pinged(v: View, w: View) {
    v.clients == w.clients && v.tools == w.tools && v.health.Keys == w.health.Keys
  }

  lemma VerdictPings(v: View, name: string, status: HealthStatus, latency: Option<real>, now: int)
    ensures Pinged(v, RecordHealth(v, name, status, latency, now))
  {
    if name in v.health {
      assert RecordHealth(v, name, status, latency, now).health.Keys == v.health.Keys + {name};
    }
  }

  lemma PingedTransitive(v: View, w: View, x: View)
    requires Pinged(v, w) && Pinged(w, x)
    ensures Pinged(v, x)
  {
  }

  lemma PingedKeeps(v: View, w: View, servers: seq<Server>)
    requires Pinged(v, w)
    ensures RunsOnly(v, servers) <==> RunsOnly(w, servers)
    ensures Matches(v, servers) <==> Matches(w, servers)
    ensures forall n :: IsDown(v, servers, n) <==> IsDown(w, servers, n)
  {
    hide ByName, SameLaunch, NormalizeAll;
    forall n, cfg ensures RunsAs(v, n, cfg) <==> RunsAs(w, n, cfg) {}
  }

  lemma StoppedPinged(v: View, w: View, name: string)
    requires Pinged(v, w)
    ensures Pinged(Stopped(v, name), Stopped(w, name))
  {
    hide Normalize;
  }

  lemma StartedPinged(v: View, w: View, server: Server, c: Client)
    requires Pinged(v, w)
    ensures Pinged(Started(v, server, c), Started(w, server, c))
  {
    hide Normalize, NormalizeAll;
    var name := server.entry.name;
    assert AddHealth(v, name).health.Keys == v.health.Keys + {name};
    assert AddHealth(w, name).health.Keys == w.health.Keys + {name};
  }

  lemma PutToolsPinged(v: View, w: View, name: string, tools: seq<string>)
    requires Pinged(v, w)
    ensures Pinged(PutTools(v, name, tools), PutTools(w, name, tools))
  {
    hide Normalize, NormalizeAll;
  }

  /******* The phases of a reload, as folds over the names they process *******/

  function StopAll(v: View, order: seq<string>): View {
    if order == [] then v else Stopped(StopAll(v, order[..|order| - 1]), order[|order| - 1])
  }

  function UpdateAll(v: View, order: seq<string>, incoming: map<string, Server>): View
    requires AllIn(order, incoming)
  {
    if order == [] then v else
    var last := incoming[order[|order| - 1]];
    PutTools(UpdateAll(v, order[..|order| - 1], incoming), last.entry.name, last.entry.tools)
  }

  function RestartAll(v: View, order: seq<string>, incoming: map<string, Server>, attempts: seq<Attempt>): View
    requires AllIn(order, incoming) && |attempts| == |order|
  {
    if order == [] then v else
    var k := |order| - 1;
    Restarted(RestartAll(v, order[..k], incoming, attempts[..k]), incoming[order[k]], attempts[k])
  }

  function AddAll(v: View, order: seq<string>, incoming: map<string, Server>, attempts: seq<Attempt>): View
    requires AllIn(order, incoming) && |attempts| == |order|
  {
    if order == [] then v else
    var k := |order| - 1;
    var w := AddAll(v, order[..k], incoming, attempts[..k]);
    if attempts[k].Up? then Started(w, incoming[order[k]], attempts[k].c) else w
  }

  predicate AllIn(order: seq<string>, incoming: map<string, Server>) {
    forall i :: 0 <= i < |order| ==> order[i] in incoming
  }

  /** Distinct names, each of them the normalized name of its configured server. */
  predicate Named(order: seq<string>, incoming: map<string, Server>) {
    && Distinct(order)
    && (forall i :: 0 <= i < |order| ==>
          order[i] in incoming && incoming[order[i]].entry.name == order[i] && Normalize(order[i]) == order[i])
  }

  ghost predicate EndsAs(w: View, n: string, cfg: Server, attempt: Attempt) {
    if attempt.Up? then Launched(w, n, cfg) else n !in w.clients
  }

  lemma TouchOneMore(v: View, w: View, x: View, names: seq<string>, i: nat)
    requires i < |names| && OnlyTouches(v, w, names[..i]) && OnlyTouches(w, x, [names[i]])
    ensures OnlyTouches(v, x, names[..i + 1])
  {
    assert names[..i + 1] == names[..i] + [names[i]];
    forall n | n !in names[..i + 1] ensures SameAt(v, x, n) {
      assert SameAt(v, w, n) && SameAt(w, x, n);
    }
  }

  lemma {:induction false} StopAllEffect(v: View, order: seq<string>)
    requires KeysAgree(v) && AllNormalized(order)
    ensures KeysAgree(StopAll(v, order)) && OnlyTouches(v, StopAll(v, order), order)
    ensures forall i :: 0 <= i < |order| ==> order[i] !in StopAll(v, order).clients
  {
    if order != [] {
      hide Normalize, KeysAgree, OnlyTouches, StopAll, Stopped, SameAt;
      var k := |order| - 1;
      StopAllLast(v, order);
      var w, x := StopAll(v, order[..k]), StopAll(v, order);
      StopAllEffect(v, order[..k]);
      StoppedEffect(w, order[k]);
      TouchOneMore(v, w, x, order, k);
      assert order[..k + 1] == order;
      forall i | 0 <= i < k ensures order[i] !in x.clients {
        assert order[..k][i] !in w.clients;
        if order[i] != order[k] { LeftAlone(w, x, [order[k]], order[i]); }
      }
    }
  }

  lemma StopAllLast(v: View, order: seq<string>)
    requires order != []
    ensures StopAll(v, order) == Stopped(StopAll(v, order[..|order| - 1]), order[|order| - 1])
  {
    hide Stopped;
  }

  lemma {:induction false} UpdateAllEffect(v: View, order: seq<string>, incoming: map<string, Server>)
    requires KeysAgree(v) && Named(order, incoming)
    ensures KeysAgree(UpdateAll(v, order, incoming)) && OnlyTouches(v, UpdateAll(v, order, incoming), order)
    ensures UpdateAll(v, order, incoming).clients == v.clients
    ensures forall i :: 0 <= i < |order| && order[i] in v.clients ==>
              ToolsReplaced(v, UpdateAll(v, order, incoming), order[i], incoming[order[i]])
  {
    if order != [] {
      hide Normalize, NormalizeAll, KeysAgree, PutTools, UpdateAll, OnlyTouches, SameAt, Named, ToolsReplaced, Kept;
      var k := |order| - 1;
      PrefixNamed(order, incoming);
      UpdateAllLast(v, order, incoming);
      var w, x, n := UpdateAll(v, order[..k], incoming), UpdateAll(v, order, incoming), order[k];
      UpdateAllEffect(v, order[..k], incoming);
      PutToolsEffect(w, n, incoming[n].entry.tools);
      PutToolsKeepsClients(w, n, incoming[n].entry.tools);
      TouchOneMore(v, w, x, order, k);
      assert order[..k + 1] == order;
      if n in v.clients { UntouchedThenReplaced(v, w, x, order[..k], n, incoming[n]); }
      forall i | 0 <= i < k && order[i] in v.clients ensures ToolsReplaced(v, x, order[i], incoming[order[i]]) {
        assert order[..k][i] in v.clients && ToolsReplaced(v, w, order[..k][i], incoming[order[i]]);
        TouchesNoOther(w, x, n, order[i]);
        ReplacedStable(v, w, x, order[i], incoming[order[i]]);
      }
    }
  }

  lemma UpdateAllLast(v: View, order: seq<string>, incoming: map<string, Server>)
    requires order != [] && AllIn(order, incoming)
    ensures
      var k := |order| - 1;
      && AllIn(order[..k], incoming)
      && UpdateAll(v, order, incoming) == PutTools(
           UpdateAll(v, order[..k], incoming), incoming[order[k]].entry.name, incoming[order[k]].entry.tools)
  {
    hide PutTools;
  }

  lemma PrefixNamed(order: seq<string>, incoming: map<string, Server>)
    requires order != [] && Named(order, incoming)
    ensures
      var k := |order| - 1;
      && Named(order[..k], incoming) && AllIn(order, incoming)
      && incoming[order[k]].entry.name == order[k] && Normalize(order[k]) == order[k]
      && (forall i :: 0 <= i < k ==> order[i] != order[k]) && order[k] !in order[..k]
  {
    hide Normalize;
  }

  lemma UntouchedThenReplaced(v: View, w: View, x: View, names: seq<string>, n: string, cfg: Server)
    requires OnlyTouches(v, w, names) && n !in names
    requires Kept(w, x, n) && x.tools[n] == NormalizeAll(cfg.entry.tools)
    ensures ToolsReplaced(v, x, n, cfg)
  {
    hide NormalizeAll;
    assert SameAt(v, w, n);
  }

  lemma ReplacedStable(v: View, w: View, x: View, n: string, cfg: Server)
    requires ToolsReplaced(v, w, n, cfg) && SameAt(w, x, n)
    ensures ToolsReplaced(v, x, n, cfg)
  {
    hide NormalizeAll;
  }

  ghost predicate ToolsReplaced(v: View, w: View, n: string, cfg: Server) {
    Kept(v, w, n) && w.tools[n] == NormalizeAll(cfg.entry.tools)
  }

  lemma {:induction false} RestartAllEffect(v: View, order: seq<string>, incoming: map<string, Server>, attempts: seq<Attempt>)
    requires KeysAgree(v) && Named(order, incoming) && |attempts| == |order|
    requires LaunchesOwn(order, incoming, attempts)
    ensures KeysAgree(RestartAll(v, order, incoming, attempts))
    ensures OnlyTouches(v, RestartAll(v, order, incoming, attempts), order)
    ensures forall i :: 0 <= i < |order| ==>
              EndsAs(RestartAll(v, order, incoming, attempts), order[i], incoming[order[i]], attempts[i])
  {
    if order != [] {
      hide Normalize, KeysAgree, Restarted, RestartAll, SameAt, EndsAs, Named, LaunchesOwn, OnlyTouches;
      var k := |order| - 1;
      PrefixLaunches(order, incoming, attempts);
      RestartAllLast(v, order, incoming, attempts);
      var w, x := RestartAll(v, order[..k], incoming, attempts[..k]), RestartAll(v, order, incoming, attempts);
      RestartAllEffect(v, order[..k], incoming, attempts[..k]);
      RestartedEffect(w, incoming[order[k]], attempts[k]);
      TouchOneMore(v, w, x, order, k);
      assert order[..k + 1] == order;
      forall i | 0 <= i < k ensures EndsAs(x, order[i], incoming[order[i]], attempts[i]) {
        assert EndsAs(w, order[..k][i], incoming[order[i]], attempts[..k][i]);
        TouchesNoOther(w, x, order[k], order[i]);
        EndsAsStable(w, x, order[i], incoming[order[i]], attempts[i]);
      }
    }
  }

  lemma RestartAllLast(v: View, order: seq<string>, incoming: map<string, Server>, attempts: seq<Attempt>)
    requires order != [] && AllIn(order, incoming) && |attempts| == |order|
    ensures
      var k := |order| - 1;
      && AllIn(order[..k], incoming)
      && RestartAll(v, order, incoming, attempts)
         == Restarted(RestartAll(v, order[..k], incoming, attempts[..k]), incoming[order[k]], attempts[k])
  {
    hide Restarted;
  }

  lemma TouchesNoOther(v: View, w: View, touched: string, n: string)
    requires OnlyTouches(v, w, [touched]) && n != touched
    ensures SameAt(v, w, n)
  {
    hide SameAt;
    assert n !in [touched];
  }

  lemma PrefixLaunches(order: seq<string>, incoming: map<string, Server>, attempts: seq<Attempt>)
    requires order != [] && Named(order, incoming) && |attempts| == |order| && LaunchesOwn(order, incoming, attempts)
    ensures
      var k := |order| - 1;
      && Named(order[..k], incoming) && AllIn(order[..k], incoming) && LaunchesOwn(order[..k], incoming, attempts[..k])
      && incoming[order[k]].entry.name == order[k] && Normalize(order[k]) == order[k]
      && (attempts[k].Up? ==> attempts[k].c.launched == incoming[order[k]])
      && (forall i :: 0 <= i < k ==> order[i] != order[k]) && order[k] !in order[..k]
  {
    hide Normalize;
  }

  ghost predicate LaunchesOwn(order: seq<string>, incoming: map<string, Server>, attempts: seq<Attempt>)
    requires AllIn(order, incoming) && |attempts| == |order|
  {
    forall i :: 0 <= i < |order| && attempts[i].Up? ==> attempts[i].c.launched == incoming[order[i]]
  }

  /** A restart gets past its stop only when the server is registered at that moment. */
  ghost predicate StopsFound(v: View, order: seq<string>, incoming: map<string, Server>, attempts: seq<Attempt>)
    requires AllIn(order, incoming) && |attempts| == |order|
  {
    if order == [] then true else
    var k := |order| - 1;
    StopsFound(v, order[..k], incoming, attempts[..k]) &&
    (attempts[k].StopFails? || Normalize(incoming[order[k]].entry.name) in RestartAll(v, order[..k], incoming, attempts[..k]).clients)
  }

  /** So a server that is not registered is not restarted. */
  lemma {:induction false} RestartNeedsClient(v: View, order: seq<string>, incoming: map<string, Server>, attempts: seq<Attempt>, i: nat)
    requires KeysAgree(v) && Named(order, incoming) && |attempts| == |order| && LaunchesOwn(order, incoming, attempts)
    requires StopsFound(v, order, incoming, attempts) && i < |order| && order[i] !in v.clients
    ensures attempts[i].StopFails?
  {
    hide Normalize, KeysAgree, RestartAll, OnlyTouches, SameAt, EndsAs, Named, LaunchesOwn;
    var k := |order| - 1;
    PrefixLaunches(order, incoming, attempts);
    if i < k {
      RestartNeedsClient(v, order[..k], incoming, attempts[..k], i);
    } else {
      var w := RestartAll(v, order[..k], incoming, attempts[..k]);
      RestartAllEffect(v, order[..k], incoming, attempts[..k]);
      LeftAlone(v, w, order[..k], order[k]);
    }
  }

  lemma LeftAlone(v: View, w: View, names: seq<string>, n: string)
    requires OnlyTouches(v, w, names) && n !in names
    ensures n in v.clients <==> n in w.clients
  {
    assert SameAt(v, w, n);
  }

  lemma EndsAsStable(w: View, x: View, n: string, cfg: Server, attempt: Attempt)
    requires SameAt(w, x, n) && EndsAs(w, n, cfg, attempt)
    ensures EndsAs(x, n, cfg, attempt)
  {
  }

  /** Adding is restarting when nothing of that name is registered. */
  lemma {:induction false} AddAllIsRestartAll(v: View, order: seq<string>, incoming: map<string, Server>, attempts: seq<Attempt>)
    requires KeysAgree(v) && Named(order, incoming) && |attempts| == |order|
    requires LaunchesOwn(order, incoming, attempts)
    requires forall i :: 0 <= i < |order| ==> order[i] !in v.clients
    ensures AddAll(v, order, incoming, attempts) == RestartAll(v, order, incoming, attempts)
  {
    if order != [] {
      var k := |order| - 1;
      AddAllIsRestartAll(v, order[..k], incoming, attempts[..k]);
      var w := RestartAll(v, order[..k], incoming, attempts[..k]);
      assert OnlyTouches(v, w, order[..k]) by { RestartAllEffect(v, order[..k], incoming, attempts[..k]); }
      assert order[k] !in w.clients by { assert order[k] !in order[..k] && SameAt(v, w, order[k]); }
    }
  }

  /******* The plan of a reload *******/

  datatype Change = Add | Unchanged | UpdateTools | Restart

  function ChangeOf(existing: map<string, Server>, srv: Server, n: string): Change {
    if n !in existing then Add
    else if Equals(existing[n], srv) then Unchanged
    else if EqualsExceptTools(existing[n], srv) then UpdateTools
    else Restart
  }

  datatype Plan = Plan(removed: seq<string>, updated: seq<string>, restarted: seq<string>, added: seq<string>)

  /** Every member of the set once. */
  ghost predicate Lists<T(!new)>(order: seq<T>, members: set<T>) {
    Distinct(order) && (forall n :: n in order <==> n in members)
  }

  function Having(existing: map<string, Server>, incoming: map<string, Server>, change: Change): set<string> {
    set n | n in incoming && ChangeOf(existing, incoming[n], n) == change
  }

  ghost predicate IsPlan(p: Plan, existing: map<string, Server>, incoming: map<string, Server>) {
    && Lists(p.removed, existing.Keys - incoming.Keys)
    && Lists(p.updated, Having(existing, incoming, UpdateTools))
    && Lists(p.restarted, Having(existing, incoming, Restart))
    && Lists(p.added, Having(existing, incoming, Add))
  }

  ghost predicate Normalized(m: map<string, Server>) {
    forall n :: n in m ==> m[n].entry.name == n && Normalize(n) == n
  }

  /** The states between the phases. */
  ghost predicate Executed(p: Plan, incoming: map<string, Server>, v: View, w: View, restarts: seq<Attempt>, adds: seq<Attempt>) {
    && AllIn(p.updated, incoming) && AllIn(p.restarted, incoming) && AllIn(p.added, incoming)
    && |restarts| == |p.restarted| && |adds| == |p.added|
    && LaunchesOwn(p.restarted, incoming, restarts) && LaunchesOwn(p.added, incoming, adds)
    && var between := UpdateAll(StopAll(v, p.removed), p.updated, incoming);
    && StopsFound(between, p.restarted, incoming, restarts)
    && w == AddAll(RestartAll(between, p.restarted, incoming, restarts), p.added, incoming, adds)
  }

  lemma ListedNamed(order: seq<string>, names: set<string>, incoming: map<string, Server>)
    requires Lists(order, names) && names <= incoming.Keys && Normalized(incoming)
    ensures Named(order, incoming) && AllIn(order, incoming)
  {
    forall i | 0 <= i < |order| ensures order[i] in names { assert order[i] in order; }
  }

  /** Names of different categories are different, so a phase leaves the others' names alone. */
  lemma OtherCategory(v: View, w: View, order: seq<string>, names: set<string>, n: string)
    requires Lists(order, names) && OnlyTouches(v, w, order) && n !in names
    ensures SameAt(v, w, n)
  {
    assert n !in order;
  }

  lemma SameAtTransitive(v: View, w: View, x: View, n: string)
    requires SameAt(v, w, n) && SameAt(w, x, n)
    ensures SameAt(v, x, n)
  {
  }

  /** After stopping and updating: removed names are gone, updated ones have their tools, the rest is as before. */
  lemma FirstPhases(p: Plan, was: seq<Server>, incoming: map<string, Server>, v: View) returns (w: View)
    requires RunsOnly(v, was) && Normalized(ByName(was)) && Normalized(incoming) && IsPlan(p, ByName(was), incoming)
    ensures AllIn(p.updated, incoming) && w == UpdateAll(StopAll(v, p.removed), p.updated, incoming)
    ensures KeysAgree(w)
    ensures forall n :: n in ByName(was) && n !in incoming ==> n !in w.clients
    ensures forall n :: n in incoming ==> (n in w.clients <==> n in v.clients)
    ensures forall n :: n in Having(ByName(was), incoming, UpdateTools) && n in v.clients ==>
              ToolsReplaced(v, w, n, incoming[n])
    ensures forall n :: n !in ByName(was).Keys - incoming.Keys && n !in Having(ByName(was), incoming, UpdateTools) ==>
              SameAt(v, w, n)
  {
    hide Normalize, KeysAgree, StopAll, UpdateAll, ToolsReplaced, SameAt, SameLaunch, Equals, EqualsExceptTools, RunsAs;
    var existing := ByName(was);
    var gone, updated := existing.Keys - incoming.Keys, Having(existing, incoming, UpdateTools);
    ListedNamed(p.removed, gone, existing);
    ListedNamed(p.updated, updated, incoming);
    var v1 := StopAll(v, p.removed);
    StopAllEffect(v, p.removed);
    forall n | n !in gone ensures SameAt(v, v1, n) { OtherCategory(v, v1, p.removed, gone, n); }
    w := UpdateAll(v1, p.updated, incoming);
    UpdateAllEffect(v1, p.updated, incoming);
    forall n | n !in updated ensures SameAt(v1, w, n) { OtherCategory(v1, w, p.updated, updated, n); }
    forall n | n in existing && n !in incoming ensures n !in w.clients { assert n in p.removed; }
    forall n | n in incoming ensures n in w.clients <==> n in v.clients { SameAtClients(v, v1, n); }
    forall n | n in updated && n in v.clients ensures ToolsReplaced(v, w, n, incoming[n]) {
      assert n in p.updated && SameAt(v, v1, n);
      SameAtClients(v, v1, n);
      ToolsReplacedFrom(v, v1, w, n, incoming[n]);
    }
    forall n | n !in gone && n !in updated ensures SameAt(v, w, n) { SameAtTransitive(v, v1, w, n); }
  }

  lemma SameAtClients(v: View, w: View, n: string)
    requires SameAt(v, w, n)
    ensures n in v.clients <==> n in w.clients
  {
  }

  lemma ToolsReplacedFrom(v: View, v1: View, w: View, n: string, cfg: Server)
    requires SameAt(v, v1, n) && ToolsReplaced(v1, w, n, cfg)
    ensures ToolsReplaced(v, w, n, cfg)
  {
  }

  /** Restarting a list of names: each of them ended as its attempt says, and the rest is as before. */
  lemma LaunchPhase(v: View, order: seq<string>, names: set<string>, incoming: map<string, Server>, attempts: seq<Attempt>)
    returns (w: View)
    requires KeysAgree(v) && Normalized(incoming) && Lists(order, names) && names <= incoming.Keys
    requires |attempts| == |order| && AllIn(order, incoming) && LaunchesOwn(order, incoming, attempts)
    ensures w == RestartAll(v, order, incoming, attempts)
    ensures KeysAgree(w) && AttemptsEnd(order, incoming, attempts, w)
    ensures forall n :: n !in names ==> SameAt(v, w, n)
  {
    hide Normalize, KeysAgree, RestartAll, EndsAs, SameAt, LaunchesOwn, Named, OnlyTouches, Lists;
    ListedNamed(order, names, incoming);
    w := RestartAll(v, order, incoming, attempts);
    RestartAllEffect(v, order, incoming, attempts);
    forall n | n !in names ensures SameAt(v, w, n) { OtherCategory(v, w, order, names, n); }
  }

  lemma AttemptsEndStable(v: View, w: View, order: seq<string>, incoming: map<string, Server>, attempts: seq<Attempt>)
    requires AttemptsEnd(order, incoming, attempts, v)
    requires forall i :: 0 <= i < |order| ==> SameAt(v, w, order[i])
    ensures AttemptsEnd(order, incoming, attempts, w)
  {
    hide EndsAs, SameAt;
    forall i | 0 <= i < |order| ensures EndsAs(w, order[i], incoming[order[i]], attempts[i]) {
      EndsAsStable(v, w, order[i], incoming[order[i]], attempts[i]);
    }
  }

  lemma AddPhase(v: View, order: seq<string>, names: set<string>, incoming: map<string, Server>, attempts: seq<Attempt>)
    returns (w: View)
    requires KeysAgree(v) && Normalized(incoming) && Lists(order, names) && names <= incoming.Keys
    requires |attempts| == |order| && AllIn(order, incoming) && LaunchesOwn(order, incoming, attempts)
    requires forall n :: n in names ==> n !in v.clients
    ensures w == AddAll(v, order, incoming, attempts)
    ensures KeysAgree(w) && AttemptsEnd(order, incoming, attempts, w)
    ensures forall n :: n !in names ==> SameAt(v, w, n)
  {
    hide Normalize, KeysAgree, RestartAll, AddAll, AttemptsEnd, SameAt, LaunchesOwn, Named, Normalized;
    w := LaunchPhase(v, order, names, incoming, attempts);
    ListedNamed(order, names, incoming);
    forall i | 0 <= i < |order| ensures order[i] !in v.clients { assert order[i] in order; }
    AddAllIsRestartAll(v, order, incoming, attempts);
  }

  lemma ListedIn(order: seq<string>, names: set<string>, i: nat)
    requires Lists(order, names) && i < |order|
    ensures order[i] in names
  {
    assert order[i] in order;
  }

  lemma NotRestarted(v: View, w: View, order: seq<string>, names: set<string>, incoming: map<string, Server>,
                     attempts: seq<Attempt>, n: string)
    requires KeysAgree(v) && Normalized(incoming) && Lists(order, names) && names <= incoming.Keys
    requires |attempts| == |order| && AllIn(order, incoming) && LaunchesOwn(order, incoming, attempts)
    requires StopsFound(v, order, incoming, attempts) && AttemptsEnd(order, incoming, attempts, w)
    requires n in names && n !in v.clients
    ensures n !in w.clients
  {
    hide KeysAgree, Normalized, LaunchesOwn, StopsFound, Named, Launched;
    ListedNamed(order, names, incoming);
    assert n in order;
    var i :| 0 <= i < |order| && order[i] == n;
    RestartNeedsClient(v, order, incoming, attempts, i);
    assert EndsAs(w, order[i], incoming[order[i]], attempts[i]);
  }

  /** After restarting and adding, each touched name ended as its attempt says and the rest is as before. */
  lemma LastPhases(p: Plan, existing: map<string, Server>, incoming: map<string, Server>, v: View, w: View,
                   restarts: seq<Attempt>, adds: seq<Attempt>)
    requires KeysAgree(v) && Normalized(incoming) && IsPlan(p, existing, incoming)
    requires |restarts| == |p.restarted| && |adds| == |p.added| && AllIn(p.restarted, incoming) && AllIn(p.added, incoming)
    requires LaunchesOwn(p.restarted, incoming, restarts) && LaunchesOwn(p.added, incoming, adds)
    requires StopsFound(v, p.restarted, incoming, restarts)
    requires forall n :: n in Having(existing, incoming, Add) ==> n !in v.clients
    requires w == AddAll(RestartAll(v, p.restarted, incoming, restarts), p.added, incoming, adds)
    ensures KeysAgree(w)
    ensures AttemptsEnd(p.restarted, incoming, restarts, w) && AttemptsEnd(p.added, incoming, adds, w)
    ensures forall n :: n in Having(existing, incoming, Restart) && n !in v.clients ==> n !in w.clients
    ensures forall n :: n !in Having(existing, incoming, Restart) && n !in Having(existing, incoming, Add) ==> SameAt(v, w, n)
  {
    hide KeysAgree, RestartAll, AddAll, AttemptsEnd, SameAt, ChangeOf, LaunchesOwn, AllIn, Normalized, Lists, StopsFound,
         EndsAs, OnlyTouches, Named, Distinct, RunsAs, SameLaunch;
    var changed, new_ := Having(existing, incoming, Restart), Having(existing, incoming, Add);
    var v3 := LaunchPhase(v, p.restarted, changed, incoming, restarts);
    assert changed !! new_;
    forall n | n in new_ ensures n !in v3.clients { SameAtClients(v, v3, n); }
    var added := AddPhase(v3, p.added, new_, incoming, adds);
    forall i | 0 <= i < |p.restarted| ensures SameAt(v3, w, p.restarted[i]) { ListedIn(p.restarted, changed, i); }
    AttemptsEndStable(v3, w, p.restarted, incoming, restarts);
    forall n | n in changed && n !in v.clients ensures n !in w.clients {
      NotRestarted(v, w, p.restarted, changed, incoming, restarts, n);
    }
    forall n | n !in changed && n !in new_ ensures SameAt(v, w, n) { SameAtTransitive(v, v3, w, n); }
  }

  /******* The plan meets the specification *******/

  lemma {:induction false} ByNameNormalized(servers: seq<Server>)
    requires NamesNormalized(servers)
    ensures Normalized(ByName(servers))
  {
    hide Normalize;
    if servers != [] { ByNameNormalized(servers[..|servers| - 1]); }
  }

  lemma UnchangedPlaced(v: View, was: seq<Server>, w: View, now: seq<Server>, n: string)
    requires n in ByName(was) && n in ByName(now) && RunsAs(v, n, ByName(was)[n]) && SameAt(v, w, n)
    requires SameLaunch(ByName(was)[n], ByName(now)[n]) && SameTools(ByName(was)[n], ByName(now)[n])
    ensures PlacedAs(v, was, w, now, n)
  {
    hide NormalizeAll, ByName;
    NormalizeAllKeepsMultisets(ByName(was)[n].entry.tools, ByName(now)[n].entry.tools);
  }

  lemma UpdatedPlaced(v: View, was: seq<Server>, w: View, now: seq<Server>, n: string)
    requires n in ByName(was) && n in ByName(now) && RunsAs(v, n, ByName(was)[n])
    requires ToolsReplaced(v, w, n, ByName(now)[n])
    requires SameLaunch(ByName(was)[n], ByName(now)[n]) && !SameTools(ByName(was)[n], ByName(now)[n])
    ensures PlacedAs(v, was, w, now, n)
  {
    hide NormalizeAll, ByName;
  }

  lemma LaunchedPlaced(v: View, was: seq<Server>, w: View, now: seq<Server>, n: string)
    requires n in ByName(now) && Launched(w, n, ByName(now)[n])
    requires n in ByName(was) ==> !SameLaunch(ByName(was)[n], ByName(now)[n])
    ensures PlacedAs(v, was, w, now, n)
  {
    hide ByName;
  }

  function RestartErrors(order: seq<string>, incoming: map<string, Server>, attempts: seq<Attempt>): seq<ReloadError>
    requires AllIn(order, incoming) && |order| == |attempts|
  {
    if order == [] then [] else
    var k := |order| - 1;
    var name := incoming[order[k]].entry.name;
    RestartErrors(order[..k], incoming, attempts[..k]) +
    match attempts[k]
    case StopFails => [RestartStopFailed(name)]
    case StartFails => [RestartStartFailed(name)]
    case Up(_) => []
  }

  function AddErrors(order: seq<string>, incoming: map<string, Server>, attempts: seq<Attempt>): seq<ReloadError>
    requires AllIn(order, incoming) && |order| == |attempts|
  {
    if order == [] then [] else
    var k := |order| - 1;
    AddErrors(order[..k], incoming, attempts[..k]) +
    if attempts[k].Up? then [] else [AddFailed(incoming[order[k]].entry.name)]
  }

  lemma {:induction false} RestartErrorsName(order: seq<string>, incoming: map<string, Server>, attempts: seq<Attempt>)
    requires AllIn(order, incoming) && |order| == |attempts| && Normalized(incoming)
    ensures FailedNames(RestartErrors(order, incoming, attempts)) == FailedAttempts(order, attempts)
    ensures FailedNames(AddErrors(order, incoming, attempts)) == FailedAttempts(order, attempts)
  {
    hide FailedNames, Normalize;
    if order == [] {
      NoErrors();
    } else {
      var k := |order| - 1;
      RestartErrorsName(order[..k], incoming, attempts[..k]);
      var restarts, adds := RestartErrors(order[..k], incoming, attempts[..k]), AddErrors(order[..k], incoming, attempts[..k]);
      FailedAttemptsSnoc(order, attempts);
      OneError(restarts, RestartStopFailed(order[k]));
      OneError(restarts, RestartStartFailed(order[k]));
      OneError(adds, AddFailed(order[k]));
      assert restarts + [] == restarts && adds + [] == adds;
    }
  }

  lemma NoErrors()
    ensures FailedNames([]) == {}
  {
  }

  lemma OneError(errs: seq<ReloadError>, e: ReloadError)
    ensures FailedNames(errs + [e]) == FailedNames(errs) + {e.name}
  {
  }

  lemma FailedAttemptsSnoc(order: seq<string>, attempts: seq<Attempt>)
    requires |order| == |attempts| > 0
    ensures
      var k := |order| - 1;
      FailedAttempts(order, attempts) ==
      FailedAttempts(order[..k], attempts[..k]) + if attempts[k].Up? then {} else {order[k]}
  {
    var k := |order| - 1;
    var was, now := FailedAttempts(order[..k], attempts[..k]), FailedAttempts(order, attempts);
    forall n | n in now ensures n in was + if attempts[k].Up? then {} else {order[k]} {
      var i :| 0 <= i < |order| && !attempts[i].Up? && order[i] == n;
      if i < k { assert order[..k][i] == n && !attempts[..k][i].Up?; }
    }
    forall n | n in was ensures n in now {
      var i :| 0 <= i < k && !attempts[..k][i].Up? && order[..k][i] == n;
      assert order[i] == n;
    }
  }

  function FailedAttempts(order: seq<string>, attempts: seq<Attempt>): set<string>
    requires |order| == |attempts|
  {
    set i | 0 <= i < |order| && !attempts[i].Up? :: order[i]
  }

  /** What the phases did to one name. */
  ghost predicate NameFacts(existing: map<string, Server>, incoming: map<string, Server>, v: View, between: View, w: View, n: string) {
    && (n in existing && n !in incoming ==> n !in between.clients)
    && (n in incoming ==> (n in between.clients <==> n in v.clients))
    && (n in Having(existing, incoming, UpdateTools) && n in v.clients ==> ToolsReplaced(v, between, n, incoming[n]))
    && (n !in existing.Keys - incoming.Keys && n !in Having(existing, incoming, UpdateTools) ==> SameAt(v, between, n))
    && (n in Having(existing, incoming, Restart) && n !in between.clients ==> n !in w.clients)
    && (n !in Having(existing, incoming, Restart) && n !in Having(existing, incoming, Add) ==> SameAt(between, w, n))
  }

  ghost predicate AttemptsEnd(order: seq<string>, incoming: map<string, Server>, attempts: seq<Attempt>, w: View) {
    && |order| == |attempts| && AllIn(order, incoming)
    && (forall i :: 0 <= i < |order| ==> EndsAs(w, order[i], incoming[order[i]], attempts[i]))
  }

  /** What is promised for one name. */
  ghost predicate NameGoal(v: View, was: seq<Server>, w: View, now: seq<Server>, failed: set<string>, n: string) {
    if n in w.clients then PlacedAs(v, was, w, now, n) && !IsDown(v, was, n)
    else n in ByName(now) ==> n in failed || IsDown(v, was, n)
  }

  lemma GoalsMeet(v: View, was: seq<Server>, w: View, now: seq<Server>, failed: set<string>)
    requires KeysAgree(w) && forall n :: NameGoal(v, was, w, now, failed, n)
    ensures PartlyReloaded(v, was, w, now, failed)
  {
    hide KeysAgree, RunsAs, ReloadedAt, ByName;
    forall n | n in w.clients ensures n in ByName(now) && PlacedAs(v, was, w, now, n) && !IsDown(v, was, n) {
      assert NameGoal(v, was, w, now, failed, n);
    }
    forall n | IsDown(w, now, n) ensures n in failed || IsDown(v, was, n) {
      assert NameGoal(v, was, w, now, failed, n);
    }
  }

  /**
   Executing the plan, with whatever failures, from a state in which only configured servers run
   leaves every configured name as specified, or reported, or down as before.
   */
  lemma PlanMeets(p: Plan, was: seq<Server>, now: seq<Server>, v: View, w: View,
                  restarts: seq<Attempt>, adds: seq<Attempt>)
    requires NamesNormalized(was) && NamesNormalized(now) && RunsOnly(v, was)
    requires IsPlan(p, ByName(was), ByName(now)) && Executed(p, ByName(now), v, w, restarts, adds)
    ensures PartlyReloaded(v, was, w, now, FailedAttempts(p.restarted, restarts) + FailedAttempts(p.added, adds))
  {
    ByNameNormalized(was);
    ByNameNormalized(now);
    RunsOnlyAgrees(v, was);
    hide SameAt, ToolsReplaced, EndsAs, ByName, ChangeOf, Lists, Normalized, NamesNormalized, RunsOnly, FailedAttempts,
         NameFacts, PartlyReloaded, PlacedAs, IsPlan, LaunchesOwn, RestartAll, AddAll, StopAll, UpdateAll, KeysAgree, StopsFound;
    var existing, incoming := ByName(was), ByName(now);
    var between := FirstPhases(p, was, incoming, v);
    NothingToAdd(p, was, incoming, v, between);
    LastPhases(p, existing, incoming, between, w, restarts, adds);
    forall n ensures NameFacts(existing, incoming, v, between, w, n) { FactsOfName(existing, incoming, v, between, w, n); }
    AllNamesMeet(p, was, now, v, between, w, restarts, adds);
  }

  lemma RunsOnlyAgrees(v: View, servers: seq<Server>)
    requires RunsOnly(v, servers)
    ensures KeysAgree(v)
  {
  }

  lemma FactsOfName(existing: map<string, Server>, incoming: map<string, Server>, v: View, between: View, w: View, n: string)
    requires n in existing && n !in incoming ==> n !in between.clients
    requires n in incoming ==> (n in between.clients <==> n in v.clients)
    requires n in Having(existing, incoming, UpdateTools) && n in v.clients ==> ToolsReplaced(v, between, n, incoming[n])
    requires n !in existing.Keys - incoming.Keys && n !in Having(existing, incoming, UpdateTools) ==> SameAt(v, between, n)
    requires n in Having(existing, incoming, Restart) && n !in between.clients ==> n !in w.clients
    requires n !in Having(existing, incoming, Restart) && n !in Having(existing, incoming, Add) ==> SameAt(between, w, n)
    ensures NameFacts(existing, incoming, v, between, w, n)
  {
  }

  lemma AllNamesMeet(p: Plan, was: seq<Server>, now: seq<Server>, v: View, between: View, w: View,
                     restarts: seq<Attempt>, adds: seq<Attempt>)
    requires RunsOnly(v, was) && IsPlan(p, ByName(was), ByName(now)) && KeysAgree(w)
    requires forall n :: NameFacts(ByName(was), ByName(now), v, between, w, n)
    requires AttemptsEnd(p.restarted, ByName(now), restarts, w) && AttemptsEnd(p.added, ByName(now), adds, w)
    ensures PartlyReloaded(v, was, w, now, FailedAttempts(p.restarted, restarts) + FailedAttempts(p.added, adds))
  {
    hide ByName, RunsOnly, IsPlan, FailedAttempts, NameFacts, NameGoal, PartlyReloaded, KeysAgree;
    var failed := FailedAttempts(p.restarted, restarts) + FailedAttempts(p.added, adds);
    forall n ensures NameGoal(v, was, w, now, failed, n) {
      NameMeets(p, was, now, v, between, w, restarts, adds, n);
    }
    GoalsMeet(v, was, w, now, failed);
  }

  lemma NothingToAdd(p: Plan, was: seq<Server>, incoming: map<string, Server>, v: View, between: View)
    requires RunsOnly(v, was)
    requires forall n :: n in incoming ==> (n in between.clients <==> n in v.clients)
    ensures forall n :: n in Having(ByName(was), incoming, Add) ==> n !in between.clients
  {
    hide ByName, KeysAgree, RunsAs, Equals, EqualsExceptTools;
  }

  lemma NameMeets(p: Plan, was: seq<Server>, now: seq<Server>, v: View, between: View, w: View,
                  restarts: seq<Attempt>, adds: seq<Attempt>, n: string)
    requires RunsOnly(v, was) && IsPlan(p, ByName(was), ByName(now))
    requires NameFacts(ByName(was), ByName(now), v, between, w, n)
    requires AttemptsEnd(p.restarted, ByName(now), restarts, w) && AttemptsEnd(p.added, ByName(now), adds, w)
    ensures NameGoal(v, was, w, now, FailedAttempts(p.restarted, restarts) + FailedAttempts(p.added, adds), n)
  {
    hide SameLaunch, SameTools, Equals, EqualsExceptTools, NormalizeAll, KeysAgree, Launched, ToolsReplaced, PlacedAs, RunsAs, SameAt, ByName;
    var existing, incoming := ByName(was), ByName(now);
    if n !in incoming {
      SameAtClients(between, w, n);
      if n !in existing { SameAtClients(v, between, n); }
    } else if n in existing && n !in v.clients {
      if ChangeOf(existing, incoming[n], n) != Restart { SameAtClients(between, w, n); }
    } else {
      if n in existing {
        ComparisonsMean(existing[n], incoming[n]);
        assert RunsAs(v, n, existing[n]);
      }
      match ChangeOf(existing, incoming[n], n)
      case Unchanged =>
        SameAtTransitive(v, between, w, n);
        UnchangedPlaced(v, was, w, now, n);
        PlacedRuns(v, was, w, now, n);
      case UpdateTools =>
        ToolsReplacedThen(v, between, w, n, incoming[n]);
        UpdatedPlaced(v, was, w, now, n);
        PlacedRuns(v, was, w, now, n);
      case Restart =>
        assert n in p.restarted;
        var i :| 0 <= i < |p.restarted| && p.restarted[i] == n;
        if restarts[i].Up? { LaunchedPlaced(v, was, w, now, n); PlacedRuns(v, was, w, now, n); }
      case Add =>
        assert n in p.added;
        var i :| 0 <= i < |p.added| && p.added[i] == n;
        if adds[i].Up? { LaunchedPlaced(v, was, w, now, n); PlacedRuns(v, was, w, now, n); }
    }
  }

  lemma PlacedRuns(v: View, was: seq<Server>, w: View, now: seq<Server>, n: string)
    requires PlacedAs(v, was, w, now, n)
    ensures n in w.clients
  {
  }

  lemma ToolsReplacedThen(v: View, between: View, w: View, n: string, cfg: Server)
    requires ToolsReplaced(v, between, n, cfg) && SameAt(between, w, n)
    ensures ToolsReplaced(v, w, n, cfg)
  {
  }

  /******* One reload, as what it did, and the errors it reports *******/

  function StopErrors(order: seq<string>, stops: seq<bool>): seq<ReloadError>
    requires |stops| == |order|
  {
    if order == [] then [] else
    var k := |order| - 1;
    StopErrors(order[..k], stops[..k]) + if stops[k] then [] else [StopFailed(order[k])]
  }

  /** A removed server that is not registered cannot be stopped. */
  ghost predicate RemovalsFound(v: View, order: seq<string>, stops: seq<bool>)
    requires |stops| == |order|
  {
    if order == [] then true else
    var k := |order| - 1;
    RemovalsFound(v, order[..k], stops[..k]) && (stops[k] ==> Normalize(order[k]) in StopAll(v, order[..k]).clients)
  }

  function UpdateErrors(order: seq<string>, incoming: map<string, Server>, running: set<string>): seq<ReloadError>
    requires AllIn(order, incoming)
  {
    if order == [] then [] else
    var k := |order| - 1;
    var name := incoming[order[k]].entry.name;
    UpdateErrors(order[..k], incoming, running) + if Normalize(name) in running then [] else [UpdateToolsFailed(name)]
  }

  /** The order in which a reload went through its four lists, and how each stop and start ended. */
  datatype Act = Act(plan: Plan, stops: seq<bool>, restarts: seq<Attempt>, adds: seq<Attempt>)

  /** The act is about configured servers, and has a result for every stop and start. */
  predicate Fits(a: Act, incoming: map<string, Server>) {
    && |a.stops| == |a.plan.removed| && |a.restarts| == |a.plan.restarted| && |a.adds| == |a.plan.added|
    && AllIn(a.plan.updated, incoming) && AllIn(a.plan.restarted, incoming) && AllIn(a.plan.added, incoming)
  }

  ghost predicate Step(v: View, was: seq<Server>, w: View, now: seq<Server>, a: Act) {
    && Fits(a, ByName(now))
    && IsPlan(a.plan, ByName(was), ByName(now))
    && RemovalsFound(v, a.plan.removed, a.stops)
    && Executed(a.plan, ByName(now), v, w, a.restarts, a.adds)
  }

  function ErrorsOf(v: View, now: seq<Server>, a: Act): seq<ReloadError>
    requires Fits(a, ByName(now))
  {
    StopErrors(a.plan.removed, a.stops) +
    UpdateErrors(a.plan.updated, ByName(now), StopAll(v, a.plan.removed).clients.Keys) +
    RestartErrors(a.plan.restarted, ByName(now), a.restarts) +
    AddErrors(a.plan.added, ByName(now), a.adds)
  }

  lemma StepFits(v: View, was: seq<Server>, w: View, now: seq<Server>, a: Act)
    requires Step(v, was, w, now, a)
    ensures Fits(a, ByName(now))
  {
  }

  lemma ErrorNames(v: View, was: seq<Server>, w: View, now: seq<Server>, a: Act)
    requires NamesNormalized(now) && Step(v, was, w, now, a)
    ensures FailedNames(ErrorsOf(v, now, a)) ==
            FailedNames(StopErrors(a.plan.removed, a.stops)) +
            FailedNames(UpdateErrors(a.plan.updated, ByName(now), StopAll(v, a.plan.removed).clients.Keys)) +
            FailedAttempts(a.plan.restarted, a.restarts) + FailedAttempts(a.plan.added, a.adds)
  {
    hide FailedNames, FailedAttempts, StopErrors, UpdateErrors, RestartErrors, AddErrors, IsPlan, ByName, StopAll, RemovalsFound;
    ByNameNormalized(now);
    var e1, e2 := StopErrors(a.plan.removed, a.stops), UpdateErrors(a.plan.updated, ByName(now), StopAll(v, a.plan.removed).clients.Keys);
    var e3, e4 := RestartErrors(a.plan.restarted, ByName(now), a.restarts), AddErrors(a.plan.added, ByName(now), a.adds);
    RestartErrorsName(a.plan.restarted, ByName(now), a.restarts);
    RestartErrorsName(a.plan.added, ByName(now), a.adds);
    FailedNamesConcat(e1 + e2 + e3, e4);
    FailedNamesConcat(e1 + e2, e3);
    FailedNamesConcat(e1, e2);
  }

  lemma MoreReported(v: View, was: seq<Server>, w: View, now: seq<Server>, failed: set<string>, more: set<string>)
    requires PartlyReloaded(v, was, w, now, failed) && failed <= more
    ensures PartlyReloaded(v, was, w, now, more)
  {
    hide KeysAgree, PlacedAs, ByName;
  }

  /** Whatever fails, a reload of a state in which only configured servers run is as specified for the reported names. */
  lemma StepMeets(v: View, was: seq<Server>, w: View, now: seq<Server>, a: Act)
    requires Step(v, was, w, now, a)
    ensures NamesNormalized(was) && NamesNormalized(now) && RunsOnly(v, was) ==>
              PartlyReloaded(v, was, w, now, FailedNames(ErrorsOf(v, now, a)))
  {
    hide FailedNames, FailedAttempts, IsPlan, ByName, Executed, RunsOnly, PartlyReloaded, ErrorsOf, NamesNormalized;
    if NamesNormalized(was) && NamesNormalized(now) && RunsOnly(v, was) {
      PlanMeets(a.plan, was, now, v, w, a.restarts, a.adds);
      ErrorNames(v, was, w, now, a);
      var failed := FailedAttempts(a.plan.restarted, a.restarts) + FailedAttempts(a.plan.added, a.adds);
      MoreReported(v, was, w, now, failed, FailedNames(ErrorsOf(v, now, a)));
    }
  }

  /** A reload of a matching state that reports no error has converged. */
  lemma StepReloads(v: View, was: seq<Server>, w: View, now: seq<Server>, a: Act)
    requires NamesNormalized(was) && NamesNormalized(now) && Matches(v, was) && Step(v, was, w, now, a)
    requires ErrorsOf(v, now, a) == []
    ensures Reloaded(v, was, w, now)
  {
    hide IsPlan, ByName, Executed, RunsOnly, PartlyReloaded, ErrorsOf, NamesNormalized, Matches, Reloaded;
    MatchesMeans(v, was);
    StepMeets(v, was, w, now, a);
    NoErrors();
    NoFailureReloads(v, was, w, now);
  }

  /******* What is down stays down, and is reported only when its configuration changed *******/

  lemma {:induction false} StopErrorsName(order: seq<string>, stops: seq<bool>, n: string)
    requires |stops| == |order| && n in FailedNames(StopErrors(order, stops))
    ensures n in order
  {
    hide FailedNames;
    if order == [] {
      NoErrors();
    } else {
      var k := |order| - 1;
      var before := StopErrors(order[..k], stops[..k]);
      OneError(before, StopFailed(order[k]));
      assert before + [] == before;
      if n in FailedNames(before) { StopErrorsName(order[..k], stops[..k], n); }
    }
  }

  lemma {:induction false} UpdateErrorsName(order: seq<string>, incoming: map<string, Server>, running: set<string>, n: string)
    requires AllIn(order, incoming) && Normalized(incoming)
    ensures n in FailedNames(UpdateErrors(order, incoming, running)) <==> n in order && n !in running
  {
    hide FailedNames, Normalize;
    if order == [] {
      NoErrors();
    } else {
      var k := |order| - 1;
      var before := UpdateErrors(order[..k], incoming, running);
      UpdateErrorsName(order[..k], incoming, running, n);
      OneError(before, UpdateToolsFailed(order[k]));
      assert before + [] == before;
      assert order == order[..k] + [order[k]];
    }
  }

  lemma FailedAttemptsMeans(order: seq<string>, attempts: seq<Attempt>, n: string)
    requires |order| == |attempts|
    ensures n in FailedAttempts(order, attempts) ==> n in order
    ensures forall i :: 0 <= i < |order| && order[i] == n && !attempts[i].Up? ==> n in FailedAttempts(order, attempts)
  {
  }

  /** A server that is down and still configured is reported by a reload exactly when its configuration changed. */
  lemma DownIsReportedIff(v: View, was: seq<Server>, w: View, now: seq<Server>, a: Act, n: string)
    requires NamesNormalized(was) && NamesNormalized(now) && RunsOnly(v, was) && Step(v, was, w, now, a)
    requires IsDown(v, was, n) && n in ByName(now)
    ensures n in FailedNames(ErrorsOf(v, now, a)) <==> ChangeOf(ByName(was), ByName(now)[n], n) != Unchanged
  {
    hide FailedNames, FailedAttempts, ByName, RestartAll, AddAll, UpdateAll, StopAll, StopsFound, LaunchesOwn, ErrorsOf, NamesNormalized,
         Normalize, SameAt, KeysAgree, RunsAs, UpdateErrors, StopErrors, RemovalsFound, Equals, EqualsExceptTools;
    ErrorNames(v, was, w, now, a);
    ByNameNormalized(was);
    ByNameNormalized(now);
    var p, existing, incoming := a.plan, ByName(was), ByName(now);
    if n in FailedNames(StopErrors(p.removed, a.stops)) { StopErrorsName(p.removed, a.stops, n); }
    var running := StopAll(v, p.removed).clients.Keys;
    UpdateErrorsName(p.updated, incoming, running, n);
    assert n !in running by {
      ListedNamed(p.removed, existing.Keys - incoming.Keys, existing);
      StopAllEffect(v, p.removed);
      LeftAlone(v, StopAll(v, p.removed), p.removed, n);
    }
    FailedAttemptsMeans(p.restarted, a.restarts, n);
    FailedAttemptsMeans(p.added, a.adds, n);
    if n in p.restarted {
      var i :| 0 <= i < |p.restarted| && p.restarted[i] == n;
      DownFailsRestart(v, was, w, now, a, i);
    }
  }

  lemma DownFailsRestart(v: View, was: seq<Server>, w: View, now: seq<Server>, a: Act, i: nat)
    requires NamesNormalized(was) && NamesNormalized(now) && RunsOnly(v, was) && Step(v, was, w, now, a)
    requires i < |a.plan.restarted| && a.plan.restarted[i] !in v.clients
    ensures i < |a.restarts| && !a.restarts[i].Up?
  {
    hide ByName, RestartAll, AddAll, UpdateAll, StopAll, StopsFound, LaunchesOwn, NamesNormalized, Normalized,
         Normalize, SameAt, KeysAgree, RunsAs, RemovalsFound, Equals, EqualsExceptTools, Named, RunsOnly;
    RunsOnlyAgrees(v, was);
    ByNameNormalized(was);
    ByNameNormalized(now);
    var p, existing, incoming := a.plan, ByName(was), ByName(now);
    var between := FirstPhases(p, was, incoming, v);
    ListedNamed(p.restarted, Having(existing, incoming, Restart), incoming);
    ListedIn(p.restarted, Having(existing, incoming, Restart), i);
    RestartNeedsClient(between, p.restarted, incoming, a.restarts, i);
  }

  /******* Sequences of reloads *******/

  /**
   Reload `i` begins in `before[i]` and leaves `views[i + 1]`; health checks may have recorded
   verdicts since the reload before. Anything may fail on the way.
   */
  ghost predicate Run(views: seq<View>, before: seq<View>, configs: seq<seq<Server>>, acts: seq<Act>) {
    && |views| == |configs| == |acts| + 1 && |before| == |acts|
    && (forall i :: 0 <= i < |configs| ==> NamesNormalized(configs[i]))
    && (forall i :: 0 <= i < |acts| ==>
          Pinged(views[i], before[i]) && Step(before[i], configs[i], views[i + 1], configs[i + 1], acts[i]))
  }

  lemma RunStep(views: seq<View>, before: seq<View>, configs: seq<seq<Server>>, acts: seq<Act>, i: nat)
    requires Run(views, before, configs, acts) && i < |acts|
    ensures Pinged(views[i], before[i]) && Step(before[i], configs[i], views[i + 1], configs[i + 1], acts[i])
    ensures NamesNormalized(configs[i]) && NamesNormalized(configs[i + 1])
  {
    hide Pinged, Step, NamesNormalized;
  }

  ghost predicate Succeeds(v: View, was: seq<Server>, w: View, now: seq<Server>, a: Act) {
    Step(v, was, w, now, a) && ErrorsOf(v, now, a) == []
  }

  /** Over any sequence of reloads with any failures, only configured servers run, and as configured. */
  lemma {:induction false} RunKeepsOnly(views: seq<View>, before: seq<View>, configs: seq<seq<Server>>, acts: seq<Act>, k: nat)
    requires Run(views, before, configs, acts) && k < |views| && RunsOnly(views[0], configs[0])
    ensures RunsOnly(views[k], configs[k])
    ensures k < |before| ==> RunsOnly(before[k], configs[k])
  {
    hide Step, RunsOnly, PartlyReloaded, NamesNormalized, Fits, ByName, ErrorsOf, FailedNames, Pinged;
    if k > 0 {
      var i := k - 1;
      RunKeepsOnly(views, before, configs, acts, i);
      RunStep(views, before, configs, acts, i);
      StepFits(before[i], configs[i], views[k], configs[k], acts[i]);
      StepMeets(before[i], configs[i], views[k], configs[k], acts[i]);
      PartlyRunsOnly(before[i], configs[i], views[k], configs[k], FailedNames(ErrorsOf(before[i], configs[k], acts[i])));
    }
    if k < |before| {
      RunStep(views, before, configs, acts, k);
      PingedKeeps(views[k], before[k], configs[k]);
    }
  }

  /** Over any sequence of reloads without errors the registries match every configuration in turn. */
  lemma {:induction false} RunMatches(views: seq<View>, before: seq<View>, configs: seq<seq<Server>>, acts: seq<Act>, k: nat)
    requires Run(views, before, configs, acts) && k < |views| && Matches(views[0], configs[0])
    requires forall i :: 0 <= i < k ==> Succeeds(before[i], configs[i], views[i + 1], configs[i + 1], acts[i])
    ensures Matches(views[k], configs[k])
  {
    hide Step, Matches, ErrorsOf, NamesNormalized, Pinged;
    if k > 0 {
      var i := k - 1;
      RunMatches(views, before, configs, acts, i);
      RunStep(views, before, configs, acts, i);
      PingedKeeps(views[i], before[i], configs[i]);
      assert Succeeds(before[i], configs[i], views[i + 1], configs[i + 1], acts[i]);
      StepReloads(before[i], configs[i], views[k], configs[k], acts[i]);
    }
  }

  lemma StepKeeps(v: View, was: seq<Server>, w: View, now: seq<Server>, a: Act, n: string)
    requires Step(v, was, w, now, a)
    ensures NamesNormalized(was) && NamesNormalized(now) && RunsOnly(v, was) && n in v.clients &&
            n in ByName(was) && n in ByName(now) && SameLaunch(ByName(was)[n], ByName(now)[n]) ==>
              Kept(v, w, n)
  {
    hide NamesNormalized, RunsOnly, Executed, ByName, SameLaunch, SameTools, FailedAttempts, RunsAs, KeysAgree,
         Equals, EqualsExceptTools, Launched, Kept, RemovalsFound;
    if NamesNormalized(was) && NamesNormalized(now) && RunsOnly(v, was) && n in v.clients &&
       n in ByName(was) && n in ByName(now) && SameLaunch(ByName(was)[n], ByName(now)[n])
    {
      PlanMeets(a.plan, was, now, v, w, a.restarts, a.adds);
      ComparisonsMean(ByName(was)[n], ByName(now)[n]);
      FailedAttemptsMeans(a.plan.restarted, a.restarts, n);
      FailedAttemptsMeans(a.plan.added, a.adds, n);
      assert !IsDown(w, now, n);
      assert PlacedAs(v, was, w, now, n);
    }
  }

  /** The server stays configured, and its launch configuration does not change, up to position `k`. */
  ghost predicate SameLaunchUpTo(configs: seq<seq<Server>>, n: string, k: nat) {
    && k < |configs|
    && (forall i :: 0 <= i <= k ==> n in ByName(configs[i]))
    && (forall i :: 0 <= i < k ==> SameLaunch(ByName(configs[i])[n], ByName(configs[i + 1])[n]))
  }

  lemma SameLaunchStep(configs: seq<seq<Server>>, n: string, k: nat)
    requires SameLaunchUpTo(configs, n, k) && k > 0
    ensures SameLaunchUpTo(configs, n, k - 1) && n in ByName(configs[k - 1]) && n in ByName(configs[k])
    ensures SameLaunch(ByName(configs[k - 1])[n], ByName(configs[k])[n])
  {
    hide SameLaunch, ByName;
    assert SameLaunch(ByName(configs[k - 1])[n], ByName(configs[k - 1 + 1])[n]);
  }

  ghost predicate SameClient(v: View, w: View, n: string) {
    n in v.clients && n in w.clients && v.clients[n] == w.clients[n]
  }

  /**
   A running server whose launch configuration never changes keeps its client, whatever fails, and
   each reload leaves its health record as the health checks before have left it.
   */
  lemma {:induction false} RunKeepsClient(views: seq<View>, before: seq<View>, configs: seq<seq<Server>>, acts: seq<Act>,
                                          n: string, k: nat)
    requires Run(views, before, configs, acts) && k < |views|
    ensures RunsOnly(views[0], configs[0]) && n in views[0].clients && SameLaunchUpTo(configs, n, k) ==>
              SameClient(views[0], views[k], n) && (k > 0 ==> Kept(before[k - 1], views[k], n))
  {
    hide Step, SameLaunch, NamesNormalized, ByName, RunsOnly, SameLaunchUpTo, Run;
    RunLengths(views, before, configs, acts);
    if RunsOnly(views[0], configs[0]) && n in views[0].clients && SameLaunchUpTo(configs, n, k) && k > 0 {
      var i := k - 1;
      SameLaunchStep(configs, n, k);
      RunKeepsClient(views, before, configs, acts, n, i);
      RunKeepsOnly(views, before, configs, acts, i);
      RunStep(views, before, configs, acts, i);
      StepKeeps(before[i], configs[i], views[k], configs[k], acts[i], n);
    }
  }

  lemma RunLengths(views: seq<View>, before: seq<View>, configs: seq<seq<Server>>, acts: seq<Act>)
    requires Run(views, before, configs, acts)
    ensures |views| == |configs| == |acts| + 1 && |before| == |acts|
  {
    hide Pinged, Step, NamesNormalized;
  }

  /** A server that is down stays down, over any sequence of reloads, as long as it remains configured. */
  lemma {:induction false} RunStaysDown(views: seq<View>, before: seq<View>, configs: seq<seq<Server>>, acts: seq<Act>,
                                        n: string, k: nat)
    requires Run(views, before, configs, acts) && k < |views|
    requires RunsOnly(views[0], configs[0]) && IsDown(views[0], configs[0], n)
    requires forall i :: 0 <= i <= k ==> n in ByName(configs[i])
    ensures IsDown(views[k], configs[k], n)
  {
    hide Step, RunsOnly, NamesNormalized, ByName, KeysAgree, PlacedAs, Fits, ErrorsOf, FailedNames, Pinged;
    if k > 0 {
      var i := k - 1;
      RunStaysDown(views, before, configs, acts, n, i);
      RunKeepsOnly(views, before, configs, acts, i);
      RunStep(views, before, configs, acts, i);
      PingedKeeps(views[i], before[i], configs[i]);
      StepMeets(before[i], configs[i], views[k], configs[k], acts[i]);
      assert IsDown(before[i], configs[i], n);
    }
  }
}
