/**
  * Which errors a reload reports, and which servers run afterwards, given how the outside world lets each start and
  * each close end. In one reload every name is stopped at most once, and every server started at most once.
  */
module ReloadOutcome {
  import opened Options
  import opened Strings
  import opened ServerConfig
  import opened Registry
  import opened Reload

  /** The part of a package identifier before the first "::". */
  function RuntimeOf(package: string): string {
    if package == [] || "::" <= package then [] else [package[0]] + RuntimeOf(package[1..])
  }

  lemma {:induction false} RuntimeIsPrefix(runtime: string, rest: string)
    requires ':' !in runtime
    ensures RuntimeOf(runtime + "::" + rest) == runtime && RuntimeOf(runtime) == runtime
  {
    var package := runtime + "::" + rest;
    if runtime == [] {
      assert package == "::" + rest;
    } else {
      assert package[0] == runtime[0] && package[1..] == runtime[1..] + "::" + rest;
      assert runtime[0] in runtime;
      RuntimeIsPrefix(runtime[1..], rest);
    }
  }

  /** The supported runtimes, the identity of the process when a launch goes well, and whether a close is in time. */
  datatype World = World(runtimes: set<string>, launch: Server -> Option<nat>, closes: string -> bool)

  /** A start needs tools, a supported runtime, and a launch that goes well. */
  function StartOf(world: World, s: Server): Option<Client> {
    if s.entry.tools != [] && RuntimeOf(s.entry.package) in world.runtimes && world.launch(s).Some?
    then Some(Client(world.launch(s).value, s)) else None
  }

  predicate CanStart(world: World, s: Server) {
    StartOf(world, s).Some?
  }

  function AttemptOf(world: World, registered: bool, s: Server): Attempt {
    if !registered || !world.closes(s.entry.name) then StopFails
    else if StartOf(world, s).None? then StartFails
    else Up(StartOf(world, s).value)
  }

  /******* What the world makes of each phase *******/

  ghost predicate StopsAs(world: World, v: View, order: seq<string>, stops: seq<bool>)
    requires |stops| == |order|
  {
    if order == [] then true else
    var k := |order| - 1;
    StopsAs(world, v, order[..k], stops[..k]) &&
    stops[k] == (Normalize(order[k]) in StopAll(v, order[..k]).clients && world.closes(order[k]))
  }

  ghost predicate RestartsAs(world: World, v: View, order: seq<string>, incoming: map<string, Server>, attempts: seq<Attempt>)
    requires AllIn(order, incoming) && |attempts| == |order|
  {
    if order == [] then true else
    var k := |order| - 1;
    RestartsAs(world, v, order[..k], incoming, attempts[..k]) &&
    attempts[k] == AttemptOf(
      world, Normalize(incoming[order[k]].entry.name) in RestartAll(v, order[..k], incoming, attempts[..k]).clients,
      incoming[order[k]])
  }

  ghost predicate AddsAs(world: World, order: seq<string>, incoming: map<string, Server>, attempts: seq<Attempt>)
    requires AllIn(order, incoming) && |attempts| == |order|
  {
    forall i :: 0 <= i < |order| ==>
      attempts[i] == if CanStart(world, incoming[order[i]]) then Up(StartOf(world, incoming[order[i]]).value) else StartFails
  }

  /** Every stop and start of the act ends as the world has it. */
  ghost predicate Obeys(world: World, v: View, now: seq<Server>, a: Act)
    requires Fits(a, ByName(now))
  {
    StopsAs(world, v, a.plan.removed, a.stops) &&
    RestartsAs(world, UpdateAll(StopAll(v, a.plan.removed), a.plan.updated, ByName(now)), a.plan.restarted, ByName(now), a.restarts) &&
    AddsAs(world, a.plan.added, ByName(now), a.adds)
  }

  lemma {:induction false} StopsAsFound(world: World, v: View, order: seq<string>, stops: seq<bool>)
    requires |stops| == |order| && StopsAs(world, v, order, stops)
    ensures RemovalsFound(v, order, stops)
  {
    hide StopAll, Normalize;
    if order != [] { StopsAsFound(world, v, order[..|order| - 1], stops[..|order| - 1]); }
  }

  lemma {:induction false} RestartsAsFound(world: World, v: View, order: seq<string>, incoming: map<string, Server>, attempts: seq<Attempt>)
    requires AllIn(order, incoming) && |attempts| == |order| && RestartsAs(world, v, order, incoming, attempts)
    ensures StopsFound(v, order, incoming, attempts) && LaunchesOwn(order, incoming, attempts)
  {
    hide RestartAll, Normalize, RuntimeOf;
    if order != [] {
      var k := |order| - 1;
      RestartsAsFound(world, v, order[..k], incoming, attempts[..k]);
      assert forall i :: 0 <= i < k ==> order[..k][i] == order[i] && attempts[..k][i] == attempts[i];
    }
  }

  lemma AddsAsOwn(world: World, order: seq<string>, incoming: map<string, Server>, attempts: seq<Attempt>)
    requires AllIn(order, incoming) && |attempts| == |order| && AddsAs(world, order, incoming, attempts)
    ensures LaunchesOwn(order, incoming, attempts)
  {
    hide RuntimeOf;
  }

  /** A stop succeeds when the server was registered before the phase and its close is in time. */
  lemma {:induction false} StopIs(world: World, v: View, order: seq<string>, stops: seq<bool>, i: nat)
    requires KeysAgree(v) && AllNormalized(order) && Distinct(order)
    requires |stops| == |order| && StopsAs(world, v, order, stops) && i < |order|
    ensures stops[i] <==> order[i] in v.clients && world.closes(order[i])
  {
    hide KeysAgree, StopAll, Normalize, OnlyTouches;
    var k := |order| - 1;
    if i < k {
      assert AllNormalized(order[..k]) && Distinct(order[..k]);
      StopIs(world, v, order[..k], stops[..k], i);
    } else {
      assert AllNormalized(order[..k]) && order[k] !in order[..k];
      StopAllEffect(v, order[..k]);
      LeftAlone(v, StopAll(v, order[..k]), order[..k], order[k]);
    }
  }

  lemma RestartsAsLast(world: World, v: View, order: seq<string>, incoming: map<string, Server>, attempts: seq<Attempt>)
    requires order != [] && AllIn(order, incoming) && |attempts| == |order| && RestartsAs(world, v, order, incoming, attempts)
    ensures var k := |order| - 1;
      AllIn(order[..k], incoming) && RestartsAs(world, v, order[..k], incoming, attempts[..k]) &&
      attempts[k] == AttemptOf(
        world, Normalize(incoming[order[k]].entry.name) in RestartAll(v, order[..k], incoming, attempts[..k]).clients,
        incoming[order[k]])
  {
    hide RestartAll, Normalize, AttemptOf;
  }

  /** What is restarted last was registered by then exactly when it was before the phase. */
  lemma LastIsUntouched(v: View, order: seq<string>, incoming: map<string, Server>, attempts: seq<Attempt>)
    requires KeysAgree(v) && order != [] && Named(order, incoming) && AllIn(order, incoming) && |attempts| == |order|
    requires LaunchesOwn(order, incoming, attempts)
    ensures var k := |order| - 1;
      AllIn(order[..k], incoming) && Named(order[..k], incoming) && Normalize(incoming[order[k]].entry.name) == order[k] &&
      (order[k] in RestartAll(v, order[..k], incoming, attempts[..k]).clients <==> order[k] in v.clients)
  {
    hide KeysAgree, RestartAll, Normalize, OnlyTouches, Named, LaunchesOwn, EndsAs;
    var k := |order| - 1;
    PrefixLaunches(order, incoming, attempts);
    RestartAllEffect(v, order[..k], incoming, attempts[..k]);
    LeftAlone(v, RestartAll(v, order[..k], incoming, attempts[..k]), order[..k], order[k]);
  }

  lemma {:induction false} RestartIs(world: World, v: View, order: seq<string>, incoming: map<string, Server>, attempts: seq<Attempt>, i: nat)
    requires KeysAgree(v) && Named(order, incoming) && AllIn(order, incoming) && |attempts| == |order|
    requires RestartsAs(world, v, order, incoming, attempts) && i < |order|
    ensures order[i] in incoming && attempts[i] == AttemptOf(world, order[i] in v.clients, incoming[order[i]])
  {
    hide *;
    var k := |order| - 1;
    NameOf(order, incoming, i);
    RestartsAsFound(world, v, order, incoming, attempts);
    RestartsAsLast(world, v, order, incoming, attempts);
    LastIsUntouched(v, order, incoming, attempts);
    if i < k { RestartIs(world, v, order[..k], incoming, attempts[..k], i); }
  }

  /******* The errors of each phase *******/

  ghost predicate SomeStopFails(order: seq<string>, stops: seq<bool>, e: ReloadError)
    requires |stops| == |order|
  {
    exists i :: 0 <= i < |order| && !stops[i] && e == StopFailed(order[i])
  }

  lemma LastStopFails(order: seq<string>, stops: seq<bool>, e: ReloadError)
    requires order != [] && |stops| == |order|
    ensures var k := |order| - 1;
      SomeStopFails(order, stops, e) <==> SomeStopFails(order[..k], stops[..k], e) || (!stops[k] && e == StopFailed(order[k]))
  {
    var k := |order| - 1;
    assert forall i :: 0 <= i < k ==> order[..k][i] == order[i] && stops[..k][i] == stops[i];
  }

  lemma {:induction false} StopErrorsHave(order: seq<string>, stops: seq<bool>, e: ReloadError)
    requires |stops| == |order|
    ensures e in StopErrors(order, stops) <==> SomeStopFails(order, stops, e)
  {
    if order != [] {
      hide SomeStopFails;
      LastStopFails(order, stops, e);
      StopErrorsHave(order[..|order| - 1], stops[..|order| - 1], e);
    }
  }

  lemma {:induction false} UpdateErrorsHave(order: seq<string>, incoming: map<string, Server>, running: set<string>, e: ReloadError)
    requires AllIn(order, incoming) && Normalized(incoming)
    ensures e in UpdateErrors(order, incoming, running) <==> e.UpdateToolsFailed? && e.name in order && e.name !in running
  {
    hide Normalize;
    if order != [] {
      var k := |order| - 1;
      UpdateErrorsHave(order[..k], incoming, running, e);
      assert order == order[..k] + [order[k]];
    }
  }

  ghost predicate SomeRestartFails(order: seq<string>, attempts: seq<Attempt>, e: ReloadError)
    requires |attempts| == |order|
  {
    exists i :: 0 <= i < |order| && !attempts[i].Up? &&
      e == if attempts[i].StopFails? then RestartStopFailed(order[i]) else RestartStartFailed(order[i])
  }

  ghost predicate SomeAddFails(order: seq<string>, attempts: seq<Attempt>, e: ReloadError)
    requires |attempts| == |order|
  {
    exists i :: 0 <= i < |order| && !attempts[i].Up? && e == AddFailed(order[i])
  }

  lemma LastFails(order: seq<string>, attempts: seq<Attempt>, e: ReloadError)
    requires order != [] && |attempts| == |order|
    ensures var k := |order| - 1;
      && (SomeRestartFails(order, attempts, e) <==>
          SomeRestartFails(order[..k], attempts[..k], e) || (!attempts[k].Up? &&
            e == if attempts[k].StopFails? then RestartStopFailed(order[k]) else RestartStartFailed(order[k])))
      && (SomeAddFails(order, attempts, e) <==>
          SomeAddFails(order[..k], attempts[..k], e) || (!attempts[k].Up? && e == AddFailed(order[k])))
  {
    var k := |order| - 1;
    assert forall i :: 0 <= i < k ==> order[..k][i] == order[i] && attempts[..k][i] == attempts[i];
  }

  lemma {:induction false} RestartErrorsHave(order: seq<string>, incoming: map<string, Server>, attempts: seq<Attempt>, e: ReloadError)
    requires AllIn(order, incoming) && |attempts| == |order| && Normalized(incoming)
    ensures e in RestartErrors(order, incoming, attempts) <==> SomeRestartFails(order, attempts, e)
  {
    if order != [] {
      var k := |order| - 1;
      assert incoming[order[k]].entry.name == order[k];
      hide Normalized, SomeRestartFails;
      LastFails(order, attempts, e);
      RestartErrorsHave(order[..k], incoming, attempts[..k], e);
    }
  }

  lemma {:induction false} AddErrorsHave(order: seq<string>, incoming: map<string, Server>, attempts: seq<Attempt>, e: ReloadError)
    requires AllIn(order, incoming) && |attempts| == |order| && Normalized(incoming)
    ensures e in AddErrors(order, incoming, attempts) <==> SomeAddFails(order, attempts, e)
  {
    if order != [] {
      var k := |order| - 1;
      assert incoming[order[k]].entry.name == order[k];
      hide Normalized, SomeAddFails;
      LastFails(order, attempts, e);
      AddErrorsHave(order[..k], incoming, attempts[..k], e);
    }
  }

  /******* The whole reload *******/

  /** When an operation on a name goes wrong: in terms of the two configurations, the running servers, and the world. */
  ghost predicate GoesWrong(world: World, existing: map<string, Server>, running: set<string>, incoming: map<string, Server>, e: ReloadError) {
    var n := e.name;
    match e
    case Invalid(_) => false
    case StopFailed(_) => n in existing && n !in incoming && !(n in running && world.closes(n))
    case UpdateToolsFailed(_) =>
      n in existing && n in incoming && SameLaunch(existing[n], incoming[n]) && !SameTools(existing[n], incoming[n]) && n !in running
    case RestartStopFailed(_) =>
      n in existing && n in incoming && !SameLaunch(existing[n], incoming[n]) && !(n in running && world.closes(n))
    case RestartStartFailed(_) =>
      n in existing && n in incoming && !SameLaunch(existing[n], incoming[n]) && n in running && world.closes(n) &&
      !CanStart(world, incoming[n])
    case AddFailed(_) => n !in existing && n in incoming && !CanStart(world, incoming[n])
  }

  /** Which servers run after a reload. */
  ghost predicate RunsAfter(world: World, existing: map<string, Server>, running: set<string>, incoming: map<string, Server>, n: string) {
    n in incoming &&
    if n !in existing then CanStart(world, incoming[n])
    else if SameLaunch(existing[n], incoming[n]) then n in running
    else n in running && world.closes(n) && CanStart(world, incoming[n])
  }

  lemma ChangeIs(existing: map<string, Server>, srv: Server, n: string)
    ensures ChangeOf(existing, srv, n) ==
      if n !in existing then Add
      else if !SameLaunch(existing[n], srv) then Restart
      else if SameTools(existing[n], srv) then Unchanged
      else UpdateTools
  {
    hide SameLaunch, SameTools, Equals, EqualsExceptTools;
    if n in existing { ComparisonsMean(existing[n], srv); }
  }

  lemma InPlan(p: Plan, existing: map<string, Server>, incoming: map<string, Server>, n: string)
    requires IsPlan(p, existing, incoming)
    ensures n in p.removed <==> n in existing && n !in incoming
    ensures n in p.updated <==>
      n in incoming && n in existing && SameLaunch(existing[n], incoming[n]) && !SameTools(existing[n], incoming[n])
    ensures n in p.restarted <==> n in incoming && n in existing && !SameLaunch(existing[n], incoming[n])
    ensures n in p.added <==> n in incoming && n !in existing
  {
    hide SameLaunch, SameTools, ChangeOf;
    if n in incoming { ChangeIs(existing, incoming[n], n); }
  }

  lemma RemovedOutcome(world: World, was: seq<Server>, v: View, now: seq<Server>, a: Act, e: ReloadError)
    requires NamesNormalized(was) && KeysAgree(v) && Fits(a, ByName(now)) && IsPlan(a.plan, ByName(was), ByName(now))
    requires StopsAs(world, v, a.plan.removed, a.stops)
    ensures e in StopErrors(a.plan.removed, a.stops) <==>
      e.StopFailed? && e.name in a.plan.removed && !(e.name in v.clients && world.closes(e.name))
  {
    hide KeysAgree, ByName, Normalize, StopsAs, StopErrors, NamesNormalized, ChangeOf, Having;
    ByNameNormalized(was);
    ListedNamed(a.plan.removed, ByName(was).Keys - ByName(now).Keys, ByName(was));
    StopErrorsHave(a.plan.removed, a.stops, e);
    forall i | 0 <= i < |a.plan.removed| ensures a.stops[i] <==> a.plan.removed[i] in v.clients && world.closes(a.plan.removed[i]) {
      StopIs(world, v, a.plan.removed, a.stops, i);
    }
  }

  lemma RestartOutcomes(world: World, between: View, existing: map<string, Server>, incoming: map<string, Server>, a: Act, e: ReloadError)
    requires Normalized(incoming) && KeysAgree(between) && Fits(a, incoming) && IsPlan(a.plan, existing, incoming)
    requires RestartsAs(world, between, a.plan.restarted, incoming, a.restarts)
    ensures e in RestartErrors(a.plan.restarted, incoming, a.restarts) <==>
      e.name in a.plan.restarted && e.name in incoming &&
      var stops := e.name in between.clients && world.closes(e.name);
      (e.RestartStopFailed? && !stops) || (e.RestartStartFailed? && stops && !CanStart(world, incoming[e.name]))
  {
    hide KeysAgree, Normalize, RestartsAs, RestartErrors, ChangeOf, CanStart;
    var order := a.plan.restarted;
    ListedNamed(order, Having(existing, incoming, Restart), incoming);
    RestartErrorsHave(order, incoming, a.restarts, e);
    forall i | 0 <= i < |order|
      ensures order[i] in incoming && incoming[order[i]].entry.name == order[i]
      ensures a.restarts[i] == AttemptOf(world, order[i] in between.clients, incoming[order[i]])
      ensures a.restarts[i].StopFails? <==> !(order[i] in between.clients && world.closes(order[i]))
      ensures a.restarts[i].StartFails? <==> order[i] in between.clients && world.closes(order[i]) && !CanStart(world, incoming[order[i]])
    {
      RestartIs(world, between, order, incoming, a.restarts, i);
      AttemptIs(world, order[i] in between.clients, incoming[order[i]]);
    }
  }

  lemma AttemptIs(world: World, registered: bool, s: Server)
    ensures var x := AttemptOf(world, registered, s);
      (x.StopFails? <==> !(registered && world.closes(s.entry.name))) &&
      (x.StartFails? <==> registered && world.closes(s.entry.name) && !CanStart(world, s))
  {
    hide StartOf;
  }

  lemma AddOutcomes(world: World, existing: map<string, Server>, incoming: map<string, Server>, a: Act, e: ReloadError)
    requires Normalized(incoming) && Fits(a, incoming) && IsPlan(a.plan, existing, incoming)
    requires AddsAs(world, a.plan.added, incoming, a.adds)
    ensures e in AddErrors(a.plan.added, incoming, a.adds) <==>
      e.AddFailed? && e.name in a.plan.added && e.name in incoming && !CanStart(world, incoming[e.name])
  {
    hide Normalize, AddErrors, ChangeOf, CanStart;
    AddErrorsHave(a.plan.added, incoming, a.adds, e);
    forall i | 0 <= i < |a.plan.added| ensures a.plan.added[i] in incoming { assert a.plan.added[i] in a.plan.added; }
  }

  /** The act is a reload under this world, of a state in which only configured servers run. */
  ghost predicate Reloads(world: World, was: seq<Server>, v: View, w: View, now: seq<Server>, a: Act) {
    && NamesNormalized(was) && NamesNormalized(now) && RunsOnly(v, was) && Step(v, was, w, now, a)
    && Fits(a, ByName(now)) && Obeys(world, v, now, a)
  }

  /** A reload of a state in which only configured servers run reports exactly what goes wrong. */
  lemma ErrorsAre(world: World, was: seq<Server>, v: View, w: View, now: seq<Server>, a: Act, e: ReloadError)
    ensures Reloads(world, was, v, w, now, a) ==>
      (e in ErrorsOf(v, now, a) <==> GoesWrong(world, ByName(was), v.clients.Keys, ByName(now), e))
  {
    hide ByName, RestartAll, AddAll, UpdateAll, StopAll, StopsFound, LaunchesOwn, NamesNormalized, Normalized, Normalize, SameAt,
         KeysAgree, RunsAs, UpdateErrors, StopErrors, RestartErrors, AddErrors, RemovalsFound, SameLaunch, SameTools, CanStart,
         StopsAs, RestartsAs, AddsAs, RunsOnly, ChangeOf, Having, Lists;
    if Reloads(world, was, v, w, now, a) {
      RunsOnlyAgrees(v, was);
      ByNameNormalized(was);
      ByNameNormalized(now);
      var p, existing, incoming := a.plan, ByName(was), ByName(now);
      var between := FirstPhases(p, was, incoming, v);
      InPlan(p, existing, incoming, e.name);
      RemovedOutcome(world, was, v, now, a, e);
      UpdateErrorsHave(p.updated, incoming, StopAll(v, p.removed).clients.Keys, e);
      StopsLeave(p, was, v, now, e.name);
      RestartOutcomes(world, between, existing, incoming, a, e);
      AddOutcomes(world, existing, incoming, a, e);
    }
  }

  lemma StopsLeave(p: Plan, was: seq<Server>, v: View, now: seq<Server>, n: string)
    requires NamesNormalized(was) && KeysAgree(v) && IsPlan(p, ByName(was), ByName(now))
    ensures n in ByName(now) ==> (n in StopAll(v, p.removed).clients <==> n in v.clients)
  {
    hide ByName, Normalize, KeysAgree, StopAll, NamesNormalized, OnlyTouches, ChangeOf, Having;
    ByNameNormalized(was);
    ListedNamed(p.removed, ByName(was).Keys - ByName(now).Keys, ByName(was));
    StopAllEffect(v, p.removed);
    if n in ByName(now) { LeftAlone(v, StopAll(v, p.removed), p.removed, n); }
  }

  /** Afterwards exactly those configured servers run for which nothing went wrong, unless they were down and unchanged. */
  lemma RunsIff(world: World, was: seq<Server>, v: View, w: View, now: seq<Server>, a: Act, n: string)
    ensures Reloads(world, was, v, w, now, a) ==>
      (n in w.clients <==> RunsAfter(world, ByName(was), v.clients.Keys, ByName(now), n))
  {
    hide ByName, RunsOnly, ErrorsOf, NamesNormalized, Step, Obeys, KeysAgree, PlacedAs, FailedNames, SameLaunch, SameTools, CanStart, Fits;
    if Reloads(world, was, v, w, now, a) {
      StepMeets(v, was, w, now, a);
      FailedIff(world, was, v, w, now, a, n);
      NotUpNotThere(world, was, v, w, now, a, n);
    }
  }

  lemma FailedIff(world: World, was: seq<Server>, v: View, w: View, now: seq<Server>, a: Act, n: string)
    ensures Reloads(world, was, v, w, now, a) ==>
      (n in FailedNames(ErrorsOf(v, now, a)) <==>
        exists e: ReloadError :: e.name == n && GoesWrong(world, ByName(was), v.clients.Keys, ByName(now), e))
  {
    hide ByName, RunsOnly, ErrorsOf, NamesNormalized, Step, Obeys, Fits, GoesWrong;
    if Reloads(world, was, v, w, now, a) {
      forall e: ReloadError
        ensures e in ErrorsOf(v, now, a) <==> GoesWrong(world, ByName(was), v.clients.Keys, ByName(now), e)
      {
        ErrorsAre(world, was, v, w, now, a, e);
      }
    }
  }

  lemma NotUpNotThere(world: World, was: seq<Server>, v: View, w: View, now: seq<Server>, a: Act, n: string)
    ensures Reloads(world, was, v, w, now, a) ==>
      (n in ByName(now) && n in w.clients && (n !in ByName(was) || !SameLaunch(ByName(was)[n], ByName(now)[n])) ==>
        CanStart(world, ByName(now)[n]) && (n in ByName(was) ==> n in v.clients && world.closes(n)))
  {
    hide ByName, RestartAll, AddAll, UpdateAll, StopAll, StopsFound, LaunchesOwn, NamesNormalized, Normalized, Normalize, SameAt,
         KeysAgree, RunsAs, RemovalsFound, SameLaunch, SameTools, CanStart, StopsAs, RestartsAs, RunsOnly, ChangeOf, Lists,
         Launched, ToolsReplaced, AttemptOf;
    if Reloads(world, was, v, w, now, a) {
      RunsOnlyAgrees(v, was);
      ByNameNormalized(was);
      ByNameNormalized(now);
      var p, existing, incoming := a.plan, ByName(was), ByName(now);
      var between := FirstPhases(p, was, incoming, v);
      NothingToAdd(p, was, incoming, v, between);
      LastPhases(p, existing, incoming, between, w, a.restarts, a.adds);
      InPlan(p, existing, incoming, n);
      if n in p.restarted {
        var i :| 0 <= i < |p.restarted| && p.restarted[i] == n;
        ListedNamed(p.restarted, Having(existing, incoming, Restart), incoming);
        RestartIs(world, between, p.restarted, incoming, a.restarts, i);
        NameOf(p.restarted, incoming, i);
        AttemptIs(world, n in between.clients, incoming[n]);
        assert EndsAs(w, p.restarted[i], incoming[p.restarted[i]], a.restarts[i]);
      }
      if n in p.added {
        var i :| 0 <= i < |p.added| && p.added[i] == n;
        assert EndsAs(w, p.added[i], incoming[p.added[i]], a.adds[i]);
      }
    }
  }

  lemma NameOf(order: seq<string>, incoming: map<string, Server>, i: nat)
    requires Named(order, incoming) && i < |order|
    ensures order[i] in incoming && incoming[order[i]].entry.name == order[i]
  {
    hide Normalize;
  }

  /** The result of a reload, with health checks recorded by its end in `u`. */
  lemma ResultIs(world: World, was: seq<Server>, v: View, w: View, u: View, now: seq<Server>, a: Act)
    requires Pinged(w, u)
    ensures Reloads(world, was, v, w, now, a) ==>
      (forall e :: e in ErrorsOf(v, now, a) <==> GoesWrong(world, ByName(was), v.clients.Keys, ByName(now), e)) &&
      (forall n :: n in u.clients <==> RunsAfter(world, ByName(was), v.clients.Keys, ByName(now), n))
  {
    hide ByName, RunsOnly, ErrorsOf, NamesNormalized, Step, Obeys, Fits, GoesWrong, RunsAfter;
    if !Reloads(world, was, v, w, now, a) { return; }
    forall e ensures e in ErrorsOf(v, now, a) <==> GoesWrong(world, ByName(was), v.clients.Keys, ByName(now), e) {
      ErrorsAre(world, was, v, w, now, a, e);
    }
    forall n ensures n in w.clients <==> RunsAfter(world, ByName(was), v.clients.Keys, ByName(now), n) {
      RunsIff(world, was, v, w, now, a, n);
    }
  }
}
