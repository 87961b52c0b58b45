/**
 The two registries of the daemon, client connections with their tools and health records, as
 mutable objects; and their joint state as a value with one function per registration step.
 */
module Registry {
  import opened Options
  import opened Strings
  import opened ServerConfig

  /** A connection to a launched server process; `id` is its identity. */
  datatype Client = Client(id: nat, launched: Server)

  datatype HealthStatus = Unknown | OK | Timeout | Unreachable

  datatype ServerHealth = ServerHealth(
    name: string, status: HealthStatus, latency: Option<real>, lastChecked: Option<int>, lastSuccessful: Option<int>)

  /** What both registries hold. */
  datatype View = View(
    clients: map<string, Client>, tools: map<string, seq<string>>, health: map<string, ServerHealth>)

  function NewHealth(name: string): ServerHealth {
    ServerHealth(name, Unknown, None, None, None)
  }

  /******* One function per step on the registries *******/

  function AddClient(v: View, name: string, c: Client, tools: seq<string>): View {
    v.(clients := v.clients[Normalize(name) := c], tools := v.tools[Normalize(name) := NormalizeAll(tools)])
  }

  function RemoveClient(v: View, name: string): View {
    v.(clients := v.clients - {Normalize(name)}, tools := v.tools - {Normalize(name)})
  }

  function PutTools(v: View, name: string, tools: seq<string>): View {
    if Normalize(name) in v.clients then v.(tools := v.tools[Normalize(name) := NormalizeAll(tools)]) else v
  }

  function AddHealth(v: View, name: string): View {
    if name in v.health then v else v.(health := v.health[name := NewHealth(name)])
  }

  function RemoveHealth(v: View, name: string): View {
    v.(health := v.health - {name})
  }

  /** A health check result; it is recorded for tracked names only. */
  function RecordHealth(v: View, name: string, status: HealthStatus, latency: Option<real>, now: int): View {
    if name !in v.health then v else
    var last := if status == OK then Some(now) else v.health[name].lastSuccessful;
    v.(health := v.health[name := ServerHealth(name, status, latency, Some(now), last)])
  }

  /** One result of a health check. */
  datatype Verdict = Verdict(status: HealthStatus, latency: Option<real>, now: int)

  /** After any number of verdicts about one server, recorded in their order. */
  function AfterVerdicts(v: View, name: string, verdicts: seq<Verdict>): View {
    if verdicts == [] then v else
    var last := verdicts[|verdicts| - 1];
    RecordHealth(AfterVerdicts(v, name, verdicts[..|verdicts| - 1]), name, last.status, last.latency, last.now)
  }

  /** The position of the last successful one, or -1. */
  ghost predicate IsLastSuccess(verdicts: seq<Verdict>, i: int) {
    -1 <= i < |verdicts| && (i >= 0 ==> verdicts[i].status == OK) && forall j :: i < j < |verdicts| ==> verdicts[j].status != OK
  }

  /**
   The record of a tracked server shows its last verdict, and the time of the last successful one,
   which is that of before when there is none. No other record and nothing else changes.
   */
  lemma {:induction false} RecordShowsVerdicts(v: View, name: string, verdicts: seq<Verdict>, i: int)
    requires verdicts != [] && IsLastSuccess(verdicts, i)
    ensures
      var w, last := AfterVerdicts(v, name, verdicts), verdicts[|verdicts| - 1];
      if name !in v.health then w == v
      else
        && w.clients == v.clients && w.tools == v.tools && w.health.Keys == v.health.Keys
        && (forall n :: n in v.health && n != name ==> w.health[n] == v.health[n])
        && w.health[name] == ServerHealth(name, last.status, last.latency, Some(last.now),
                                          if i < 0 then v.health[name].lastSuccessful else Some(verdicts[i].now))
  {
    var n := |verdicts| - 1;
    var front := verdicts[..n];
    if front == [] {
      assert AfterVerdicts(v, name, front) == v;
    } else if i == n {
      var j := LastSuccess(front);
      RecordShowsVerdicts(v, name, front, j);
    } else {
      RecordShowsVerdicts(v, name, front, i);
    }
  }

  lemma {:induction false} LastSuccess(verdicts: seq<Verdict>) returns (i: int)
    ensures IsLastSuccess(verdicts, i)
  {
    if verdicts == [] { return -1; }
    var n := |verdicts| - 1;
    if verdicts[n].status == OK { return n; }
    i := LastSuccess(verdicts[..n]);
    assert forall j :: 0 <= j < n ==> verdicts[j] == verdicts[..n][j];
  }

  predicate KeysAgree(v: View) {
    v.clients.Keys == v.tools.Keys == v.health.Keys
  }

  /** Nothing about one name differs between two states. */
  ghost predicate SameAt(v: View, w: View, n: string) {
    && (n in v.clients <==> n in w.clients) && (n in v.clients ==> v.clients[n] == w.clients[n])
    && (n in v.tools <==> n in w.tools) && (n in v.tools ==> v.tools[n] == w.tools[n])
    && (n in v.health <==> n in w.health) && (n in v.health ==> v.health[n] == w.health[n])
  }

  /**
   Registering a server that is not there keeps the registries on the same names exactly when its
   name is already normalized, because only one of the registries normalizes names.
   */
  lemma RegistrationAgreesIffNormalized(v: View, name: string, c: Client, tools: seq<string>)
    requires KeysAgree(v) && Normalize(name) !in v.clients && name !in v.clients
    ensures KeysAgree(AddHealth(AddClient(v, name, c, tools), name)) <==> Normalize(name) == name
  {
    var w := AddHealth(AddClient(v, name, c, tools), name);
    if Normalize(name) != name {
      assert name in w.health && name !in w.clients;
    } else {
      assert w.clients.Keys == v.clients.Keys + {name};
    }
  }

  /******* The objects *******/

  class ClientManager {
    var clients: map<string, Client>
    var serverTools: map<string, seq<string>>

    constructor ()
      ensures clients == map[] && serverTools == map[]
    {
      clients, serverTools := map[], map[];
    }

    method Add(name: string, c: Client, tools: seq<string>)
      modifies this
      ensures clients == old(clients)[Normalize(name) := c]
      ensures serverTools == old(serverTools)[Normalize(name) := NormalizeAll(tools)]
    {
      var n := Normalize(name);
      clients := clients[n := c];
      serverTools := serverTools[n := NormalizeAll(tools)];
    }

    method Lookup(name: string) returns (c: Option<Client>)
      ensures c == if Normalize(name) in clients then Some(clients[Normalize(name)]) else None
    {
      var n := Normalize(name);
      c := if n in clients then Some(clients[n]) else None;
    }

    method UpdateTools(name: string, tools: seq<string>) returns (ok: bool)
      modifies this`serverTools
      ensures ok == (Normalize(name) in clients)
      ensures serverTools == if ok then old(serverTools)[Normalize(name) := NormalizeAll(tools)] else old(serverTools)
    {
      var n := Normalize(name);
      if n !in clients { return false; }
      serverTools := serverTools[n := NormalizeAll(tools)];
      ok := true;
    }

    method Remove(name: string)
      modifies this
      ensures clients == old(clients) - {Normalize(name)} && serverTools == old(serverTools) - {Normalize(name)}
    {
      var n := Normalize(name);
      clients := clients - {n};
      serverTools := serverTools - {n};
    }
  }

  class HealthTracker {
    var statuses: map<string, ServerHealth>

    constructor (serverNames: seq<string>)
      ensures statuses == map n | n in serverNames :: ServerHealth(n, Unknown, None, None, None)
    {
      statuses := map n | n in serverNames :: NewHealth(n);
    }

    method Add(name: string)
      modifies this
      ensures statuses == if name in old(statuses) then old(statuses)
                          else old(statuses)[name := ServerHealth(name, Unknown, None, None, None)]
    {
      if name !in statuses {
        statuses := statuses[name := NewHealth(name)];
      }
    }

    method Update(name: string, status: HealthStatus, latency: Option<real>, now: int) returns (ok: bool)
      modifies this
      ensures ok == (name in old(statuses)) && statuses.Keys == old(statuses).Keys
      ensures View(map[], map[], statuses) == RecordHealth(View(map[], map[], old(statuses)), name, status, latency, now)
    {
      if name !in statuses { return false; }
      var lastSuccessful := if status == OK then Some(now) else statuses[name].lastSuccessful;
      statuses := statuses[name := ServerHealth(name, status, latency, Some(now), lastSuccessful)];
      ok := true;
    }

    method Remove(name: string)
      modifies this
      ensures statuses == old(statuses) - {name}
    {
      statuses := statuses - {name};
    }
  }
}
