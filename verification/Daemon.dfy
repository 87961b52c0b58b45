/** The daemon: starting servers, and reconciling the running ones with a new configuration. */
module Daemons {
  import opened Options
  import opened Strings
  import opened ServerConfig
  import opened ServerValidation
  import opened Registry
  import opened Reload
  import opened ReloadOutcome

  /******* Startup *******/

  function NamesOf(servers: seq<Server>): (names: set<string>)
    ensures forall i :: 0 <= i < |servers| ==> servers[i].entry.name in names
  {
    if servers == [] then {} else NamesOf(servers[..|servers| - 1]) + {servers[|servers| - 1].entry.name}
  }

  predicate DistinctNames(servers: seq<Server>) {
    forall i, j :: 0 <= i < j < |servers| ==> servers[i].entry.name != servers[j].entry.name
  }

  /** Nothing runs, and every configured name is tracked. */
  function Prepared(servers: seq<Server>): View {
    View(map[], map[], map n | n in NamesOf(servers) :: NewHealth(n))
  }

  function Positions(n: nat): (positions: set<nat>)
    ensures forall i: nat :: i in positions <==> i < n
  {
    if n == 0 then {} else Positions(n - 1) + {n - 1}
  }

  predicate ListedWithin(servers: seq<Server>, order: seq<nat>) {
    forall i :: 0 <= i < |order| ==> order[i] < |servers|
  }

  function StartedNames(servers: seq<Server>, order: seq<nat>): set<string>
    requires ListedWithin(servers, order)
  {
    if order == [] then {} else
    StartedNames(servers, order[..|order| - 1]) + {servers[order[|order| - 1]].entry.name}
  }

  ghost predicate RunsOwn(w: View, s: Server) {
    && s.entry.name in w.clients && w.clients[s.entry.name].launched == s
    && s.entry.name in w.tools && w.tools[s.entry.name] == NormalizeAll(s.entry.tools)
  }

  lemma StartedOne(w: View, s: Server, c: Client)
    requires Normalize(s.entry.name) == s.entry.name && c.launched == s && s.entry.name in w.health
    requires w.clients.Keys == w.tools.Keys
    ensures var x := Started(w, s, c);
      && x.clients.Keys == x.tools.Keys == w.clients.Keys + {s.entry.name} && x.health == w.health && RunsOwn(x, s)
  {
    hide Normalize, NormalizeAll;
  }

  lemma StartedKeepsOther(w: View, s: Server, c: Client, other: Server)
    requires Normalize(s.entry.name) == s.entry.name && other.entry.name != s.entry.name && RunsOwn(w, other)
    ensures RunsOwn(Started(w, s, c), other)
  {
    hide Normalize, NormalizeAll;
  }

  /** What is registered when the listed servers have been started. */
  ghost predicate Registers(w: View, servers: seq<Server>, order: seq<nat>)
    requires ListedWithin(servers, order)
  {
    && w.clients.Keys == w.tools.Keys == StartedNames(servers, order)
    && w.health == Prepared(servers).health
    && (forall i :: 0 <= i < |order| ==> RunsOwn(w, servers[order[i]]))
  }

  lemma StartRegisters(w: View, servers: seq<Server>, front: seq<nat>, k: nat, c: Client)
    requires NamesNormalized(servers) && DistinctNames(servers) && Distinct(front + [k]) && ListedWithin(servers, front + [k])
    requires ListedWithin(servers, front) && k < |servers| && c.launched == servers[k] && Registers(w, servers, front)
    ensures Registers(Started(w, servers[k], c), servers, front + [k])
  {
    hide Normalize, Started, RunsOwn, NamesOf, DistinctNames;
    var order, s := front + [k], servers[k];
    assert order[..|order| - 1] == front;
    StartedOne(w, s, c);
    forall i | 0 <= i < |order| ensures RunsOwn(Started(w, s, c), servers[order[i]]) {
      if i < |front| {
        assert order[i] == front[i] && order[i] != order[|front|];
        NamesDiffer(servers, order[i], k);
        StartedKeepsOther(w, s, c, servers[order[i]]);
      }
    }
  }

  lemma NothingStarted(servers: seq<Server>)
    ensures Registers(Prepared(servers), servers, [])
  {
    hide NamesOf;
  }

  lemma NamesDiffer(servers: seq<Server>, i: nat, j: nat)
    requires DistinctNames(servers) && i < |servers| && j < |servers| && i != j
    ensures servers[i].entry.name != servers[j].entry.name
  {
  }

  lemma ByNameLast(servers: seq<Server>)
    requires servers != []
    ensures
      var k := |servers| - 1;
      ByName(servers) == ByName(servers[..k])[Normalize(servers[k].entry.name) := servers[k]]
  {
    hide Normalize;
  }

  lemma {:induction false} ByNameKeys(servers: seq<Server>)
    requires NamesNormalized(servers)
    ensures ByName(servers).Keys == NamesOf(servers)
  {
    hide Normalize, ByName;
    if servers == [] {
      ByNameEmpty();
    } else {
      ByNameLast(servers);
      ByNameKeys(servers[..|servers| - 1]);
    }
  }

  lemma ByNameEmpty()
    ensures ByName([]) == map[]
  {
  }

  lemma {:induction false} ByNameOfDistinct(servers: seq<Server>, i: nat)
    requires NamesNormalized(servers) && DistinctNames(servers) && i < |servers|
    ensures servers[i].entry.name in ByName(servers) && ByName(servers)[servers[i].entry.name] == servers[i]
  {
    hide Normalize, ByName;
    var k := |servers| - 1;
    ByNameLast(servers);
    if i < k {
      assert servers[..k][i] == servers[i];
      ByNameOfDistinct(servers[..k], i);
    }
  }

  lemma {:induction false} StartedIsNamed(servers: seq<Server>, order: seq<nat>, n: string)
    requires ListedWithin(servers, order)
    ensures n in StartedNames(servers, order) ==> n in NamesOf(servers)
    ensures forall i :: 0 <= i < |order| && servers[order[i]].entry.name == n ==> n in StartedNames(servers, order)
  {
    hide NamesOf;
    if order != [] {
      var front := order[..|order| - 1];
      StartedIsNamed(servers, front, n);
      forall i | 0 <= i < |order| && servers[order[i]].entry.name == n ensures n in StartedNames(servers, order) {
        if i < |front| { assert front[i] == order[i]; }
      }
    }
  }

  lemma {:induction false} NamedAt(servers: seq<Server>, n: string) returns (k: nat)
    requires n in NamesOf(servers)
    ensures k < |servers| && servers[k].entry.name == n
  {
    k := |servers| - 1;
    if servers[k].entry.name != n { k := NamedAt(servers[..k], n); }
  }

  lemma AllStarted(servers: seq<Server>, order: seq<nat>)
    requires ListedWithin(servers, order) && Lists(order, Positions(|servers|))
    ensures StartedNames(servers, order) == NamesOf(servers)
  {
    hide NamesOf, StartedNames;
    forall n ensures n in StartedNames(servers, order) <==> n in NamesOf(servers) {
      StartedIsNamed(servers, order, n);
      if n in NamesOf(servers) {
        var k := NamedAt(servers, n);
        assert k in order;
      }
    }
  }

  /** When every server has started, in whatever order, the registries match the configuration. */
  lemma RegistersAll(w: View, servers: seq<Server>, order: seq<nat>)
    requires NamesNormalized(servers) && DistinctNames(servers) && Lists(order, Positions(|servers|))
    requires ListedWithin(servers, order) && Registers(w, servers, order)
    ensures Matches(w, servers)
  {
    hide *;
    ByNameKeys(servers);
    RegisteredKeys(w, servers, order);
    forall n | n in ByName(servers) ensures RunsAs(w, n, ByName(servers)[n]) { RegisteredRuns(w, servers, order, n); }
    AllRun(w, servers);
  }

  lemma AllRun(w: View, servers: seq<Server>)
    requires KeysAgree(w) && w.clients.Keys == ByName(servers).Keys
    requires forall n :: n in ByName(servers) ==> RunsAs(w, n, ByName(servers)[n])
    ensures Matches(w, servers)
  {
    hide KeysAgree, RunsAs, ByName;
  }

  lemma RegisteredKeys(w: View, servers: seq<Server>, order: seq<nat>)
    requires Lists(order, Positions(|servers|)) && ListedWithin(servers, order) && Registers(w, servers, order)
    ensures KeysAgree(w) && w.clients.Keys == NamesOf(servers)
  {
    hide RunsOwn, NamesOf, StartedNames, ListedWithin, Lists, Positions;
    AllStarted(servers, order);
    assert w.health.Keys == NamesOf(servers);
  }

  lemma RegisteredRuns(w: View, servers: seq<Server>, order: seq<nat>, n: string)
    requires NamesNormalized(servers) && DistinctNames(servers) && Lists(order, Positions(|servers|))
    requires ListedWithin(servers, order) && Registers(w, servers, order) && n in NamesOf(servers)
    ensures n in ByName(servers) && RunsAs(w, n, ByName(servers)[n])
  {
    hide Normalize, ByName, RunsOwn, RunsAs, StartedNames, NamesNormalized, DistinctNames;
    var k := NamedAt(servers, n);
    assert k in order;
    var i :| 0 <= i < |order| && order[i] == k;
    assert RunsOwn(w, servers[order[i]]);
    ByNameOfDistinct(servers, k);
    OwnRunsAs(w, servers[k]);
  }

  lemma OwnRunsAs(w: View, s: Server)
    requires RunsOwn(w, s) && s.entry.name in w.health
    ensures RunsAs(w, s.entry.name, s)
  {
    hide NormalizeAll;
  }

  /******* The daemon *******/

  /** Lists a set in an arbitrary order, as ranging over a map does. */
  method InSomeOrder<T(==,!new)>(members: set<T>) returns (order: seq<T>)
    ensures Lists(order, members)
  {
    order := [];
    var todo := members;
    while todo != {}
      invariant todo <= members && Lists(order, members - todo)
    {
      var n :| n in todo;
      assert n !in order;
      order := order + [n];
      todo := todo - {n};
    }
  }

  class Daemon {
    const clientManager: ClientManager
    const healthTracker: HealthTracker
    const supportedRuntimes: set<string>
    var runtimeServers: seq<Server>

    /** Nothing runs yet, and every configured name is tracked. */
    constructor (supportedRuntimes: set<string>, servers: seq<Server>)
      ensures this.supportedRuntimes == supportedRuntimes && runtimeServers == servers
      ensures V() == Prepared(servers)
      ensures fresh(clientManager) && fresh(healthTracker)
    {
      var clients := new ClientManager();
      var names := seq(|servers|, i requires 0 <= i < |servers| => servers[i].entry.name);
      var health := new HealthTracker(names);
      clientManager, healthTracker := clients, health;
      this.supportedRuntimes, runtimeServers := supportedRuntimes, servers;
      forall n | n in NamesOf(servers) ensures n in names {
        var k := NamedAt(servers, n);
        assert names[k] == n;
      }
    }

    ghost function V(): View
      reads clientManager, healthTracker
    {
      View(clientManager.clients, clientManager.serverTools, healthTracker.statuses)
    }

    /** Verdicts of health checks that are recorded meanwhile; `v` is the state without them. */
    method HealthChecks(ghost v: View)
      requires Pinged(v, V())
      modifies healthTracker
      ensures Pinged(v, V())
    {
      var n: int := *;
      for i := 0 to if n < 0 then 0 else n
        invariant Pinged(v, V())
      {
        var name: string, status: HealthStatus, latency: Option<real>, now: int := *, *, *, *;
        var ok := healthTracker.Update(name, status, latency, now);
      }
    }

    method AddToClients(server: Server, c: Client)
      modifies clientManager
      ensures V() == AddClient(old(V()), server.entry.name, c, server.entry.tools)
    {
      clientManager.Add(server.entry.name, c, server.entry.tools);
    }

    method Track(server: Server)
      modifies healthTracker
      ensures V() == AddHealth(old(V()), server.entry.name)
    {
      healthTracker.Add(server.entry.name);
    }

    /** Checks what a start needs, and launches the process. */
    method Launch(server: Server, world: World) returns (c: Option<Client>)
      ensures c == StartOf(world, server)
      ensures c.Some? <==>
        server.entry.tools != [] && RuntimeOf(server.entry.package) in world.runtimes && world.launch(server).Some?
    {
      if server.entry.tools == [] { return None; }
      if RuntimeOf(server.entry.package) !in world.runtimes { return None; }
      var id := world.launch(server);
      if id.None? { return None; }
      return Some(Client(id.value, server));
    }

    /**
     Here and below, `v` is the state as it would be without the health checks so far, which may
     record verdicts at any moment.
     */
    method StartServer(server: Server, world: World, ghost v: View) returns (c: Option<Client>)
      requires Pinged(v, V())
      modifies clientManager, healthTracker
      ensures c == StartOf(world, server)
      ensures c.Some? ==> Pinged(Started(v, server, c.value), V())
      ensures c.None? ==> Pinged(v, V())
    {
      hide Normalize, NormalizeAll, RuntimeOf;
      c := Launch(server, world);
      HealthChecks(v);
      if c.None? { return; }
      AddToClients(server, c.value);
      ghost var added := AddClient(v, server.entry.name, c.value, server.entry.tools);
      HealthChecks(added);
      AddHealthPinged(added, V(), server.entry.name);
      Track(server);
      HealthChecks(AddHealth(added, server.entry.name));
    }

    /** The server leaves the registries before its client is closed, which may time out. */
    method StopServer(name: string, world: World, ghost v: View) returns (stopped: bool)
      requires Pinged(v, V())
      modifies clientManager, healthTracker
      ensures Pinged(Stopped(v, name), V())
      ensures stopped <==> Normalize(name) in v.clients && world.closes(name)
    {
      hide Normalize;
      HealthChecks(v);
      var c := clientManager.Lookup(name);
      if c.None? { return false; }
      clientManager.Remove(name);
      HealthChecks(RemoveClient(v, name));
      healthTracker.Remove(name);
      HealthChecks(RemoveHealth(RemoveClient(v, name), name));
      stopped := world.closes(name);
    }

    /** What holds when the members have been attempted; `ready` if the registries were prepared for them. */
    ghost predicate SoFar(world: World, errs: seq<string>, started: seq<nat>, failed: seq<nat>, members: set<nat>, ready: bool)
      reads this, clientManager, healthTracker
    {
      && Accounts(runtimeServers, started, failed, members) && ListedWithin(runtimeServers, started)
      && errs == NamesAt(runtimeServers, failed) && Splits(world, runtimeServers, started, failed)
      && (ready ==> && NamesNormalized(runtimeServers) && DistinctNames(runtimeServers)
                    && Registers(V(), runtimeServers, started))
    }

    /** The first half of a start: the process is launched and its client added. */
    method BeginStart(i: nat, world: World, errs0: seq<string>, ghost started0: seq<nat>, ghost failed0: seq<nat>,
                      ghost members: set<nat>, ghost ready: bool)
      returns (begun: bool, errs: seq<string>, ghost started: seq<nat>, ghost failed: seq<nat>)
      requires SoFar(world, errs0, started0, failed0, members, ready) && i < |runtimeServers| && i !in members
      modifies clientManager
      ensures SoFar(world, errs, started, failed, members + {i}, ready)
      ensures if begun then started == started0 + [i] && failed == failed0 else started == started0 && failed == failed0 + [i]
    {
      hide Accounts, Registers, ListedWithin, Splits, NamesAt, NamesNormalized, DistinctNames, AddClient, StartOf;
      ghost var w := V();
      OneMore(runtimeServers, started0, failed0, members, i);
      OneMoreSplit(world, runtimeServers, started0, failed0, i);
      errs, started, failed := errs0, started0, failed0;
      var c := Launch(runtimeServers[i], world);
      begun := c.Some?;
      if begun {
        StartLaunches(world, runtimeServers[i]);
        if ready { ClientRegisters(w, runtimeServers, started, failed, members + {i}, i, c.value); }
        
        started := started + [i];
        AddToClients(runtimeServers[i], c.value);
      } else {
        errs, failed := errs + [runtimeServers[i].entry.name], failed + [i];
      }
    }

    /** The second half: its health is tracked. */
    method EndStart(i: nat, ghost world: World, ghost errs: seq<string>, ghost started: seq<nat>, ghost failed: seq<nat>,
                    ghost members: set<nat>, ghost ready: bool)
      requires SoFar(world, errs, started, failed, members, ready) && i < |runtimeServers|
      modifies healthTracker
      ensures SoFar(world, errs, started, failed, members, ready)
    {
      hide Accounts, Registers, ListedWithin, Splits, NamesAt, NamesNormalized, DistinctNames, AddHealth;
      if ready { TrackedAlready(V(), runtimeServers, started, i); }
      Track(runtimeServers[i]);
    }

    /**
     Starts every configured server concurrently: each is launched and registered with the clients,
     and tracked some time later, in any interleaving. Failures are collected.
     */
    method StartServers(world: World) returns (errs: seq<string>, ghost started: seq<nat>, ghost failed: seq<nat>)
      modifies clientManager, healthTracker
      ensures Accounts(runtimeServers, started, failed, Positions(|runtimeServers|))
      ensures errs == NamesAt(runtimeServers, failed) && Splits(world, runtimeServers, started, failed)
      ensures old(V()) == Prepared(runtimeServers) && NamesNormalized(runtimeServers) && DistinctNames(runtimeServers) ==>
                Registers(V(), runtimeServers, started) && (errs == [] ==> Matches(V(), runtimeServers))
    {
      hide Accounts, Registers, ListedWithin, Splits, NamesAt, NamesNormalized, DistinctNames, Prepared, Positions, Matches;
      var all := Positions(|runtimeServers|);
      errs, started, failed := [], [], [];
      var todo, half: set<nat> := all, {};
      ghost var ready := V() == Prepared(runtimeServers) && NamesNormalized(runtimeServers) && DistinctNames(runtimeServers);
      NothingYet(runtimeServers);
      NothingStarted(runtimeServers);
      NothingSplit(world, runtimeServers);
      while todo != {} || half != {}
        invariant todo <= all && half <= all
        invariant SoFar(world, errs, started, failed, all - todo, ready)
        decreases |todo|, |half|
      {
        var launch: bool := *;
        if half == {} || (launch && todo != {}) {
          var i :| i in todo;
          InPositions(|runtimeServers|, i);
          assert all - (todo - {i}) == all - todo + {i};
          var begun: bool;
          begun, errs, started, failed := BeginStart(i, world, errs, started, failed, all - todo, ready);
          todo := todo - {i};
          if begun { half := half + {i}; }
        } else {
          var i :| i in half;
          InPositions(|runtimeServers|, i);
          half := half - {i};
          EndStart(i, world, errs, started, failed, all - todo, ready);
        }
      }
      assert all - todo == all;
      if ready && errs == [] { AllRegistered(V(), runtimeServers, started, failed); }
    }

    method StopRemoved(order: seq<string>, world: World, ghost v: View) returns (errs: seq<ReloadError>, ghost stops: seq<bool>)
      requires Pinged(v, V())
      modifies clientManager, healthTracker
      ensures Pinged(StopAll(v, order), V())
      ensures |stops| == |order| && StopsAs(world, v, order, stops)
      ensures errs == StopErrors(order, stops)
    {
      hide Stopped, Normalize, Pinged;
      errs, stops := [], [];
      for i := 0 to |order|
        invariant Pinged(StopAll(v, order[..i]), V())
        invariant |stops| == i && StopsAs(world, v, order[..i], stops)
        invariant errs == StopErrors(order[..i], stops)
      {
        assert order[..i + 1][..i] == order[..i];
        ghost var past := stops;
        var stopped := StopServer(order[i], world, StopAll(v, order[..i]));
        if !stopped {
          errs := errs + [StopFailed(order[i])];
        }
        stops := stops + [stopped];
        assert stops[..i] == past;
      }
      assert order[..|order|] == order;
    }

    method UpdateChangedTools(order: seq<string>, incoming: map<string, Server>, ghost v: View) returns (errs: seq<ReloadError>)
      requires AllIn(order, incoming) && Pinged(v, V())
      modifies clientManager, healthTracker
      ensures Pinged(UpdateAll(v, order, incoming), V())
      ensures errs == UpdateErrors(order, incoming, v.clients.Keys)
    {
      hide Normalize, NormalizeAll;
      errs := [];
      for i := 0 to |order|
        invariant Pinged(UpdateAll(v, order[..i], incoming), V()) && V().clients == v.clients
        invariant errs == UpdateErrors(order[..i], incoming, v.clients.Keys)
      {
        assert order[..i + 1][..i] == order[..i];
        var srv := incoming[order[i]];
        ghost var so := UpdateAll(v, order[..i], incoming);
        HealthChecks(so);
        ghost var before := V();
        var ok := clientManager.UpdateTools(srv.entry.name, srv.entry.tools);
        assert V() == PutTools(before, srv.entry.name, srv.entry.tools);
        PutToolsPinged(so, before, srv.entry.name, srv.entry.tools);
        if !ok {
          errs := errs + [UpdateToolsFailed(srv.entry.name)];
        }
      }
      assert order[..|order|] == order;
    }

    /** Stops a server and, when that goes well, starts it from its new configuration. */
    method RestartServer(srv: Server, world: World, ghost v: View) returns (attempt: Attempt)
      requires Pinged(v, V())
      modifies clientManager, healthTracker
      ensures attempt == AttemptOf(world, Normalize(srv.entry.name) in v.clients, srv)
      ensures Pinged(Restarted(v, srv, attempt), V())
    {
      hide Started, Stopped, StartOf, Normalize, Pinged;
      var stopped := StopServer(srv.entry.name, world, v);
      if !stopped { return StopFails; }
      var c := StartServer(srv, world, Stopped(v, srv.entry.name));
      attempt := if c.None? then StartFails else Up(c.value);
    }

    method RestartChanged(order: seq<string>, incoming: map<string, Server>, world: World, ghost v: View)
      returns (errs: seq<ReloadError>, ghost attempts: seq<Attempt>)
      requires AllIn(order, incoming) && Pinged(v, V())
      modifies clientManager, healthTracker
      ensures |attempts| == |order| && RestartsAs(world, v, order, incoming, attempts)
      ensures Pinged(RestartAll(v, order, incoming, attempts), V())
      ensures errs == RestartErrors(order, incoming, attempts)
    {
      hide Restarted, AttemptOf, Normalize, Pinged;
      errs, attempts := [], [];
      for i := 0 to |order|
        invariant |attempts| == i && RestartsAs(world, v, order[..i], incoming, attempts)
        invariant Pinged(RestartAll(v, order[..i], incoming, attempts), V())
        invariant errs == RestartErrors(order[..i], incoming, attempts)
      {
        assert order[..i + 1][..i] == order[..i];
        var srv := incoming[order[i]];
        ghost var past := attempts;
        var attempt := RestartServer(srv, world, RestartAll(v, order[..i], incoming, attempts));
        match attempt {
          case StopFails => errs := errs + [RestartStopFailed(srv.entry.name)];
          case StartFails => errs := errs + [RestartStartFailed(srv.entry.name)];
          case Up(_) =>
        }
        attempts := attempts + [attempt];
        assert attempts[..i] == past;
      }
      assert order[..|order|] == order;
    }

    method AddNew(order: seq<string>, incoming: map<string, Server>, world: World, ghost v: View)
      returns (errs: seq<ReloadError>, ghost attempts: seq<Attempt>)
      requires AllIn(order, incoming) && Pinged(v, V())
      modifies clientManager, healthTracker
      ensures |attempts| == |order| && AddsAs(world, order, incoming, attempts)
      ensures Pinged(AddAll(v, order, incoming, attempts), V())
      ensures errs == AddErrors(order, incoming, attempts)
    {
      hide Started, StartOf, Pinged;
      errs, attempts := [], [];
      for i := 0 to |order|
        invariant |attempts| == i && AddsAs(world, order[..i], incoming, attempts)
        invariant Pinged(AddAll(v, order[..i], incoming, attempts), V())
        invariant errs == AddErrors(order[..i], incoming, attempts)
      {
        assert order[..i + 1][..i] == order[..i];
        var srv := incoming[order[i]];
        ghost var past := attempts;
        var c := StartServer(srv, world, AddAll(v, order[..i], incoming, attempts));
        if c.None? {
          errs := errs + [AddFailed(srv.entry.name)];
        }
        attempts := attempts + [if c.None? then StartFails else Up(c.value)];
        assert attempts[..i] == past;
      }
      assert order[..|order|] == order;
    }

    /**
     Validation comes first; an invalid configuration changes nothing. Any other reload does a step
     to a state `after`, from which the registries differ at most by verdicts that health checks
     recorded on the way. For normalized names and a state in which only configured servers run
     it leaves such a state again, as specified; from a matching state, no error means convergence.
     */
    method ReloadServers(newServers: seq<Server>, world: World) returns (errs: seq<ReloadError>, ghost act: Act, ghost after: View)
      modifies this`runtimeServers, clientManager, healthTracker
      ensures (exists s :: s in newServers && !Validates(s)) ==>
                errs != [] && V() == old(V()) && runtimeServers == old(runtimeServers) &&
                forall e :: e in errs <==> e.Invalid? && exists s :: s in newServers && s.entry.name == e.name && !Validates(s)
      ensures (forall s :: s in newServers ==> Validates(s)) ==>
                runtimeServers == newServers && Step(old(V()), old(runtimeServers), after, newServers, act) &&
                Pinged(after, V()) && errs == ErrorsOf(old(V()), newServers, act) && Obeys(world, old(V()), newServers, act)
      ensures (forall s :: s in newServers ==> Validates(s)) &&
              NamesNormalized(old(runtimeServers)) && NamesNormalized(newServers) && old(RunsOnly(V(), runtimeServers)) ==>
                PartlyReloaded(old(V()), old(runtimeServers), after, newServers, FailedNames(errs)) && RunsOnly(V(), newServers)
      ensures (forall s :: s in newServers ==> Validates(s)) &&
              NamesNormalized(old(runtimeServers)) && NamesNormalized(newServers) && old(RunsOnly(V(), runtimeServers)) ==>
                var existing, running, incoming := ByName(old(runtimeServers)), old(V().clients.Keys), ByName(newServers);
                (forall e :: e in errs <==> GoesWrong(world, existing, running, incoming, e)) &&
                (forall n :: n in V().clients <==> RunsAfter(world, existing, running, incoming, n))
      ensures errs == [] && NamesNormalized(old(runtimeServers)) && NamesNormalized(newServers) &&
              old(Matches(V(), runtimeServers)) ==>
                Reloaded(old(V()), old(runtimeServers), after, newServers) && Matches(V(), newServers)
    {
      hide *;
      act, after := NoAct(), V();
      errs := InvalidServers(newServers);
      if errs != [] { return; }

      var existing, incoming := ByName(runtimeServers), ByName(newServers);
      var removed := InSomeOrder(existing.Keys - incoming.Keys);
      var updated := InSomeOrder(Having(existing, incoming, UpdateTools));
      var restarted := InSomeOrder(Having(existing, incoming, Restart));
      var added := InSomeOrder(Having(existing, incoming, Add));
      ghost var p, was, v := Plan(removed, updated, restarted, added), runtimeServers, V();
      PlanListed(p, existing, incoming);
      PingedReflexive(v);

      var e1, stops := StopRemoved(removed, world, v);
      after := StopAll(v, removed);
      var e2 := UpdateChangedTools(updated, incoming, after);
      after := UpdateAll(after, updated, incoming);
      var e3, restarts := RestartChanged(restarted, incoming, world, after);
      after := RestartAll(after, restarted, incoming, restarts);
      var e4, adds := AddNew(added, incoming, world, after);
      after := AddAll(after, added, incoming, adds);
      runtimeServers := newServers;
      errs := e1 + e2 + e3 + e4;

      act := Act(p, stops, restarts, adds);
      ActFits(act, incoming);
      WorldIsFound(world, incoming, v, act);
      PlanExecuted(p, incoming, v, after, restarts, adds);
      ActIsStep(v, was, after, newServers, act);
      StepFits(v, was, after, newServers, act);
      ActObeys(world, v, newServers, act);
      ActErrors(v, newServers, act, e1, e2, e3, e4);
      StepOutcome(v, was, after, newServers, act);
      PingedKeeps(after, V(), newServers);
      IsReload(world, was, v, after, newServers, act);
      ResultIs(world, was, v, after, V(), newServers, act);
    }
  }

  lemma IsReload(world: World, was: seq<Server>, v: View, w: View, now: seq<Server>, a: Act)
    ensures NamesNormalized(was) && NamesNormalized(now) && RunsOnly(v, was) && Step(v, was, w, now, a) &&
            Fits(a, ByName(now)) && Obeys(world, v, now, a) ==>
              Reloads(world, was, v, w, now, a)
  {
    hide NamesNormalized, RunsOnly, Step, Fits, Obeys, ByName;
  }

  lemma PingedReflexive(v: View)
    ensures Pinged(v, v)
  {
  }

  lemma AddHealthPinged(v: View, w: View, name: string)
    requires Pinged(v, w)
    ensures Pinged(AddHealth(v, name), AddHealth(w, name))
  {
    assert AddHealth(v, name).health.Keys == v.health.Keys + {name};
    assert AddHealth(w, name).health.Keys == w.health.Keys + {name};
  }

  /** The started and the failed positions list the members between them. */
  ghost predicate Accounts(servers: seq<Server>, started: seq<nat>, failed: seq<nat>, members: set<nat>) {
    Lists(started + failed, members) && ListedWithin(servers, started) && ListedWithin(servers, failed)
  }

  /** The started positions are those of servers that can be started, the failed ones those of others. */
  ghost predicate Splits(world: World, servers: seq<Server>, started: seq<nat>, failed: seq<nat>) {
    (forall k :: 0 <= k < |started| ==> started[k] < |servers| && CanStart(world, servers[started[k]])) &&
    (forall k :: 0 <= k < |failed| ==> failed[k] < |servers| && !CanStart(world, servers[failed[k]]))
  }

  lemma StartLaunches(world: World, s: Server)
    ensures StartOf(world, s).Some? ==> StartOf(world, s).value.launched == s
  {
  }

  lemma NothingSplit(world: World, servers: seq<Server>)
    ensures Splits(world, servers, [], [])
  {
  }

  lemma OneMoreSplit(world: World, servers: seq<Server>, started: seq<nat>, failed: seq<nat>, i: nat)
    requires Splits(world, servers, started, failed) && i < |servers|
    ensures if CanStart(world, servers[i]) then Splits(world, servers, started + [i], failed)
            else Splits(world, servers, started, failed + [i])
  {
    hide CanStart;
  }

  function NamesAt(servers: seq<Server>, positions: seq<nat>): seq<string> {
    seq(|positions|, k requires 0 <= k < |positions| => if positions[k] < |servers| then servers[positions[k]].entry.name else "")
  }

  lemma NothingYet(servers: seq<Server>)
    ensures Accounts(servers, [], [], Positions(|servers|) - Positions(|servers|)) && NamesAt(servers, []) == []
    ensures ListedWithin(servers, [])
  {
    hide Positions;
    assert Positions(|servers|) - Positions(|servers|) == {};
  }

  lemma InPositions(n: nat, i: nat)
    ensures i in Positions(n) <==> i < n
  {
  }

  /** One more attempt, whichever way it goes. */
  lemma OneMore(servers: seq<Server>, started: seq<nat>, failed: seq<nat>, members: set<nat>, i: nat)
    requires Accounts(servers, started, failed, members) && i !in members && i < |servers|
    ensures Accounts(servers, started, failed + [i], members + {i})
    ensures Accounts(servers, started + [i], failed, members + {i}) && ListedWithin(servers, started + [i])
    ensures NamesAt(servers, failed + [i]) == NamesAt(servers, failed) + [servers[i].entry.name]
  {
    OneMoreListed(started, failed, members, i);
  }

  lemma OneMoreListed(started: seq<nat>, failed: seq<nat>, members: set<nat>, i: nat)
    requires Lists(started + failed, members) && i !in members
    ensures Lists(started + (failed + [i]), members + {i}) && Lists((started + [i]) + failed, members + {i})
  {
    var all := started + failed;
    assert i !in all;
    assert started + (failed + [i]) == all + [i];
    var earlier := (started + [i]) + failed;
    forall a, b | 0 <= a < b < |earlier| ensures earlier[a] != earlier[b] {
      if a != |started| { assert earlier[a] == all[if a < |started| then a else a - 1]; }
      if b != |started| { assert earlier[b] == all[if b < |started| then b else b - 1]; }
    }
    forall n | n in members + {i} ensures n in earlier {
      if n == i {
        assert earlier[|started|] == i;
      } else {
        var k :| 0 <= k < |all| && all[k] == n;
        assert earlier[if k < |started| then k else k + 1] == n;
      }
    }
    forall n | n in earlier ensures n in members + {i} {
      var k :| 0 <= k < |earlier| && earlier[k] == n;
      if k != |started| { assert all[if k < |started| then k else k - 1] in all; }
    }
  }

  /** A client that is added to prepared registries is all that a complete start would add. */
  lemma ClientRegisters(w: View, servers: seq<Server>, started: seq<nat>, failed: seq<nat>, members: set<nat>, i: nat, c: Client)
    requires NamesNormalized(servers) && DistinctNames(servers) && i < |servers|
    requires ListedWithin(servers, started) && Registers(w, servers, started) && c.launched == servers[i]
    requires Accounts(servers, started + [i], failed, members)
    ensures ListedWithin(servers, started + [i])
    ensures Registers(AddClient(w, servers[i].entry.name, c, servers[i].entry.tools), servers, started + [i])
  {
    hide Normalize, NormalizeAll, Registers, NamesNormalized, DistinctNames, AddClient, AddHealth;
    PrefixDistinct(started + [i], failed);
    IsTracked(w, servers, started, i);
    TrackedStill(w, servers, started, i, c);
    StartRegisters(w, servers, started, i, c);
  }

  lemma PrefixDistinct(a: seq<nat>, b: seq<nat>)
    requires Distinct(a + b)
    ensures Distinct(a)
  {
    forall i, j | 0 <= i < j < |a| ensures a[i] != a[j] { assert (a + b)[i] == a[i] && (a + b)[j] == a[j]; }
  }

  lemma IsTracked(w: View, servers: seq<Server>, started: seq<nat>, i: nat)
    requires ListedWithin(servers, started) && Registers(w, servers, started) && i < |servers|
    ensures servers[i].entry.name in w.health
  {
    hide RunsOwn, StartedNames;
  }

  lemma TrackedAlready(w: View, servers: seq<Server>, started: seq<nat>, i: nat)
    requires ListedWithin(servers, started) && Registers(w, servers, started) && i < |servers|
    ensures AddHealth(w, servers[i].entry.name) == w
  {
    hide Registers;
    IsTracked(w, servers, started, i);
  }

  /** Without a failure everything has started. */
  lemma AllRegistered(w: View, servers: seq<Server>, started: seq<nat>, failed: seq<nat>)
    requires NamesNormalized(servers) && DistinctNames(servers) && Accounts(servers, started, failed, Positions(|servers|))
    requires NamesAt(servers, failed) == [] && Registers(w, servers, started)
    ensures Matches(w, servers)
  {
    hide Registers, Positions, Matches, NamesNormalized, DistinctNames;
    assert |failed| == |NamesAt(servers, failed)| == 0;
    assert started + failed == started;
    RegistersAll(w, servers, started);
  }

  lemma TrackedStill(w: View, servers: seq<Server>, started: seq<nat>, i: nat, c: Client)
    requires i < |servers| && servers[i].entry.name in w.health
    ensures Started(w, servers[i], c) == AddClient(w, servers[i].entry.name, c, servers[i].entry.tools)
  {
    hide Normalize, NormalizeAll;
  }

  lemma StepOutcome(v: View, was: seq<Server>, w: View, now: seq<Server>, a: Act)
    requires Step(v, was, w, now, a)
    ensures NamesNormalized(was) && NamesNormalized(now) && RunsOnly(v, was) ==>
              PartlyReloaded(v, was, w, now, FailedNames(ErrorsOf(v, now, a))) && RunsOnly(w, now)
    ensures NamesNormalized(was) && NamesNormalized(now) && Matches(v, was) && ErrorsOf(v, now, a) == [] ==>
              Reloaded(v, was, w, now) && Matches(w, now)
  {
    hide Step, RunsOnly, PartlyReloaded, NamesNormalized, Matches, Reloaded, ErrorsOf, Fits, ByName, FailedNames;
    StepFits(v, was, w, now, a);
    StepMeets(v, was, w, now, a);
    if NamesNormalized(was) && NamesNormalized(now) && RunsOnly(v, was) {
      PartlyRunsOnly(v, was, w, now, FailedNames(ErrorsOf(v, now, a)));
    }
    if NamesNormalized(was) && NamesNormalized(now) && Matches(v, was) && ErrorsOf(v, now, a) == [] {
      StepReloads(v, was, w, now, a);
      ReloadedMatches(v, was, w, now);
    }
  }

  lemma ReloadedMatches(v: View, was: seq<Server>, w: View, now: seq<Server>)
    requires Reloaded(v, was, w, now)
    ensures Matches(w, now)
  {
  }

  /** An invalid configuration makes no daemon. */
  method NewDaemon(supportedRuntimes: set<string>, servers: seq<Server>) returns (daemon: Daemon?)
    ensures daemon == null <==> exists s :: s in servers && !Validates(s)
    ensures daemon != null ==>
              fresh(daemon) && daemon.V() == Prepared(servers) && daemon.runtimeServers == servers
  {
    hide Validates, Prepared;
    var errs := InvalidServers(servers);
    if errs != [] { return null; }
    daemon := new Daemon(supportedRuntimes, servers);
  }

  method InvalidServers(servers: seq<Server>) returns (errs: seq<ReloadError>)
    ensures errs == [] <==> forall s :: s in servers ==> Validates(s)
    ensures forall e :: e in errs <==> e.Invalid? && exists s :: s in servers && s.entry.name == e.name && !Validates(s)
  {
    hide Validates;
    errs := [];
    for i := 0 to |servers|
      invariant errs == [] <==> forall j :: 0 <= j < i ==> Validates(servers[j])
      invariant forall e :: e in errs <==>
        e.Invalid? && exists j :: 0 <= j < i && servers[j].entry.name == e.name && !Validates(servers[j])
    {
      var problems := Validate(servers[i]);
      if problems != [] {
        errs := errs + [Invalid(servers[i].entry.name)];
      }
    }
  }

  lemma PlanListed(p: Plan, existing: map<string, Server>, incoming: map<string, Server>)
    requires Lists(p.removed, existing.Keys - incoming.Keys)
    requires Lists(p.updated, Having(existing, incoming, UpdateTools))
    requires Lists(p.restarted, Having(existing, incoming, Restart))
    requires Lists(p.added, Having(existing, incoming, Add))
    ensures IsPlan(p, existing, incoming)
    ensures AllIn(p.updated, incoming) && AllIn(p.restarted, incoming) && AllIn(p.added, incoming)
  {
    hide ChangeOf, Distinct;
    assert forall i :: 0 <= i < |p.updated| ==> p.updated[i] in p.updated;
    assert forall i :: 0 <= i < |p.restarted| ==> p.restarted[i] in p.restarted;
    assert forall i :: 0 <= i < |p.added| ==> p.added[i] in p.added;
  }

  lemma ActFits(a: Act, incoming: map<string, Server>)
    requires |a.stops| == |a.plan.removed| && |a.restarts| == |a.plan.restarted| && |a.adds| == |a.plan.added|
    requires AllIn(a.plan.updated, incoming) && AllIn(a.plan.restarted, incoming) && AllIn(a.plan.added, incoming)
    ensures Fits(a, incoming)
  {
  }

  lemma WorldIsFound(world: World, incoming: map<string, Server>, v: View, a: Act)
    requires Fits(a, incoming) && StopsAs(world, v, a.plan.removed, a.stops)
    requires RestartsAs(world, UpdateAll(StopAll(v, a.plan.removed), a.plan.updated, incoming), a.plan.restarted, incoming, a.restarts)
    requires AddsAs(world, a.plan.added, incoming, a.adds)
    ensures RemovalsFound(v, a.plan.removed, a.stops)
    ensures LaunchesOwn(a.plan.restarted, incoming, a.restarts) && LaunchesOwn(a.plan.added, incoming, a.adds)
    ensures StopsFound(UpdateAll(StopAll(v, a.plan.removed), a.plan.updated, incoming), a.plan.restarted, incoming, a.restarts)
  {
    hide StopAll, UpdateAll, RestartAll, StopsAs, RestartsAs, AddsAs, StopsFound, LaunchesOwn, AllIn, RemovalsFound;
    StopsAsFound(world, v, a.plan.removed, a.stops);
    RestartsAsFound(world, UpdateAll(StopAll(v, a.plan.removed), a.plan.updated, incoming), a.plan.restarted, incoming, a.restarts);
    AddsAsOwn(world, a.plan.added, incoming, a.adds);
  }

  lemma ActObeys(world: World, v: View, now: seq<Server>, a: Act)
    requires Fits(a, ByName(now)) && StopsAs(world, v, a.plan.removed, a.stops)
    requires RestartsAs(world, UpdateAll(StopAll(v, a.plan.removed), a.plan.updated, ByName(now)), a.plan.restarted, ByName(now), a.restarts)
    requires AddsAs(world, a.plan.added, ByName(now), a.adds)
    ensures Obeys(world, v, now, a)
  {
    hide StopAll, UpdateAll, StopsAs, RestartsAs, AddsAs, AllIn, ByName;
  }

  lemma PlanExecuted(p: Plan, incoming: map<string, Server>, v: View, w: View, restarts: seq<Attempt>, adds: seq<Attempt>)
    requires AllIn(p.updated, incoming) && AllIn(p.restarted, incoming) && AllIn(p.added, incoming)
    requires |restarts| == |p.restarted| && |adds| == |p.added|
    requires LaunchesOwn(p.restarted, incoming, restarts) && LaunchesOwn(p.added, incoming, adds)
    requires StopsFound(UpdateAll(StopAll(v, p.removed), p.updated, incoming), p.restarted, incoming, restarts)
    requires w == AddAll(
              RestartAll(UpdateAll(StopAll(v, p.removed), p.updated, incoming), p.restarted, incoming, restarts),
              p.added, incoming, adds)
    ensures Executed(p, incoming, v, w, restarts, adds)
  {
    hide StopAll, UpdateAll, RestartAll, AddAll, StopsFound, LaunchesOwn, AllIn;
  }

  ghost function NoAct(): Act {
    Act(Plan([], [], [], []), [], [], [])
  }

  lemma ActIsStep(v: View, was: seq<Server>, w: View, now: seq<Server>, a: Act)
    requires IsPlan(a.plan, ByName(was), ByName(now)) && |a.stops| == |a.plan.removed|
    requires RemovalsFound(v, a.plan.removed, a.stops) && Executed(a.plan, ByName(now), v, w, a.restarts, a.adds)
    ensures Step(v, was, w, now, a)
  {
    hide IsPlan, ByName, RemovalsFound, StopAll, UpdateAll, RestartAll, AddAll, StopsFound, LaunchesOwn, AllIn;
  }

  lemma ActErrors(v: View, now: seq<Server>, a: Act,
                  e1: seq<ReloadError>, e2: seq<ReloadError>, e3: seq<ReloadError>, e4: seq<ReloadError>)
    requires Fits(a, ByName(now))
    requires e1 == StopErrors(a.plan.removed, a.stops)
    requires e2 == UpdateErrors(a.plan.updated, ByName(now), StopAll(v, a.plan.removed).clients.Keys)
    requires e3 == RestartErrors(a.plan.restarted, ByName(now), a.restarts)
    requires e4 == AddErrors(a.plan.added, ByName(now), a.adds)
    ensures e1 + e2 + e3 + e4 == ErrorsOf(v, now, a)
  {
    hide StopErrors, UpdateErrors, RestartErrors, AddErrors, ByName, StopAll, AllIn;
  }
}
