/** The plugin pipeline: categories in a fixed order, each run serially or in parallel, with rules for stopping. */
module Pipelines {
  import opened Options
  import opened PluginKinds
  import opened Sublists

  datatype Flow = Request | Response

  /** `capabilities` is None when asking the plugin for them fails. */
  datatype Instance = Instance(name: string, required: bool, configured: set<Flow>, capabilities: Option<set<Flow>>)

  datatype Reply = Reply(proceed: bool, status: int, body: string, modified: Option<string>)

  /** What a plugin call returns: a reply, possibly absent, and whether there was an error. */
  datatype Answer = Answer(reply: Option<Reply>, failed: bool)

  datatype Result = Failed | Replied(reply: Reply)

  datatype Properties = Properties(parallel: bool, ignoreOptionalRejection: bool, canModify: bool)

  const FRESH := Reply(true, 0, "", None)

  const ORDER := [Observability, Authentication, Authorization, RateLimiting, Validation, Content, Audit]

  function PropertiesOf(c: Category): Properties {
    match c
    case Content => Properties(false, false, true)
    case Observability => Properties(true, true, false)
    case _ => Properties(false, false, false)
  }

  /******* One answer *******/

  datatype Handled = Handled(stop: bool, reply: Option<Reply>, failed: bool)

  function HandlePluginResult(answer: Answer, inst: Instance, ignoreOptionalRejection: bool): Handled {
    if !answer.failed && (answer.reply.None? || answer.reply.value.proceed) then Handled(false, answer.reply, false)
    else if answer.failed then
      if inst.required then Handled(true, None, true) else Handled(false, answer.reply, false)
    else if inst.required then Handled(true, answer.reply, false)
    else if ignoreOptionalRejection then Handled(false, answer.reply, false)
    else Handled(true, answer.reply, false)
  }

  predicate Rejects(answer: Answer) {
    !answer.failed && answer.reply.Some? && !answer.reply.value.proceed
  }

  /** An error stops when the plugin is required; a rejection also when the category honours optional rejections. */
  predicate Stops(inst: Instance, answer: Answer, ignoreOptionalRejection: bool) {
    (answer.failed && inst.required) || (Rejects(answer) && (inst.required || !ignoreOptionalRejection))
  }

  function StopResult(answer: Answer): Result {
    if answer.failed || answer.reply.None? then Failed else Replied(answer.reply.value)
  }

  lemma HandledAsDocumented(answer: Answer, inst: Instance, ignore: bool)
    ensures var h := HandlePluginResult(answer, inst, ignore);
      (h.stop <==> Stops(inst, answer, ignore)) && (h.failed ==> h.stop) && (h.stop ==> h.failed == answer.failed) &&
      (h.stop && !h.failed ==> h.reply.Some? && !h.reply.value.proceed && StopResult(answer) == Replied(h.reply.value)) &&
      (h.failed ==> StopResult(answer) == Failed)
  {
  }

  /******* One category *******/

  predicate IsEligible(inst: Instance, flow: Flow) {
    flow in inst.configured && inst.capabilities.Some? && flow in inst.capabilities.value
  }

  predicate LookupFails(instances: seq<Instance>, flow: Flow) {
    exists i :: 0 <= i < |instances| && flow in instances[i].configured && instances[i].capabilities.None?
  }

  function Eligible(instances: seq<Instance>, flow: Flow): seq<Instance> {
    if instances == [] then [] else
    var last := instances[|instances| - 1];
    Eligible(instances[..|instances| - 1], flow) + if IsEligible(last, flow) then [last] else []
  }

  method FilterByFlow(instances: seq<Instance>, flow: Flow) returns (filtered: Option<seq<Instance>>)
    ensures filtered == if LookupFails(instances, flow) then None else Some(Eligible(instances, flow))
  {
    var kept := [];
    for i := 0 to |instances|
      invariant forall j :: 0 <= j < i ==> !(flow in instances[j].configured && instances[j].capabilities.None?)
      invariant kept == Eligible(instances[..i], flow)
    {
      assert instances[..i + 1][..i] == instances[..i];
      var instance := instances[i];
      if flow in instance.configured {
        if instance.capabilities.None? { return None; }
        if flow in instance.capabilities.value { kept := kept + [instance]; }
      }
    }
    assert instances[..|instances|] == instances;
    return Some(kept);
  }

  lemma {:induction false} EligibleMeans(instances: seq<Instance>, flow: Flow, inst: Instance)
    ensures inst in Eligible(instances, flow) <==> inst in instances && IsEligible(inst, flow)
  {
    hide IsEligible;
    if instances != [] {
      EligibleMeans(instances[..|instances| - 1], flow, inst);
      assert instances == instances[..|instances| - 1] + [instances[|instances| - 1]];
    }
  }

  /** How each plugin answers each message, whenever it is asked. */
  type Behaviour<!M> = (Instance, M) -> Answer

  predicate StopsOn<M>(inst: Instance, message: M, behave: Behaviour<M>, ignore: bool) {
    Stops(inst, behave(inst, message), ignore)
  }

  predicate AnyStops<M>(plugins: seq<Instance>, message: M, behave: Behaviour<M>, ignore: bool) {
    exists i :: 0 <= i < |plugins| && StopsOn(plugins[i], message, behave, ignore)
  }

  /** The plugins up to and including the first that stops. */
  function UpToStop<M>(plugins: seq<Instance>, message: M, behave: Behaviour<M>, ignore: bool): seq<Instance> {
    if plugins == [] then []
    else if StopsOn(plugins[0], message, behave, ignore) then [plugins[0]]
    else [plugins[0]] + UpToStop(plugins[1..], message, behave, ignore)
  }

  /** A prefix in which only the last plugin may stop, and does so when any does. */
  lemma {:induction false} UpToStopMeans<M>(plugins: seq<Instance>, message: M, behave: Behaviour<M>, ignore: bool)
    ensures var prefix := UpToStop(plugins, message, behave, ignore);
      prefix <= plugins &&
      (forall i :: 0 <= i < |prefix| - 1 ==> !StopsOn(prefix[i], message, behave, ignore)) &&
      (if AnyStops(plugins, message, behave, ignore)
       then prefix != [] && StopsOn(prefix[|prefix| - 1], message, behave, ignore) else prefix == plugins)
  {
    hide StopsOn;
    if plugins != [] && !StopsOn(plugins[0], message, behave, ignore) {
      hide AnyStops, UpToStop;
      UpToStopMeans(plugins[1..], message, behave, ignore);
      TailStops(plugins, message, behave, ignore);
      UpToStopFirst(plugins, message, behave, ignore);
      assert plugins == [plugins[0]] + plugins[1..];
    }
  }

  lemma UpToStopFirst<M>(plugins: seq<Instance>, message: M, behave: Behaviour<M>, ignore: bool)
    requires plugins != [] && !StopsOn(plugins[0], message, behave, ignore)
    ensures UpToStop(plugins, message, behave, ignore) == [plugins[0]] + UpToStop(plugins[1..], message, behave, ignore)
  {
    hide StopsOn;
  }

  lemma TailStops<M>(plugins: seq<Instance>, message: M, behave: Behaviour<M>, ignore: bool)
    requires plugins != [] && !StopsOn(plugins[0], message, behave, ignore)
    ensures AnyStops(plugins, message, behave, ignore) == AnyStops(plugins[1..], message, behave, ignore)
  {
    hide StopsOn;
    forall i | 0 < i < |plugins| ensures plugins[i] == plugins[1..][i - 1] {}
    forall i | 0 <= i < |plugins[1..]| ensures plugins[1..][i] == plugins[i + 1] {}
  }

  method ExecuteSerial<M>(plugins: seq<Instance>, message: M, behave: Behaviour<M>, ignore: bool)
    returns (result: Result, invoked: seq<Instance>)
    ensures invoked == UpToStop(plugins, message, behave, ignore)
    ensures result == if AnyStops(plugins, message, behave, ignore)
                      then StopResult(behave(invoked[|invoked| - 1], message)) else Replied(FRESH)
  {
    hide Stops, StopResult, HandlePluginResult, UpToStop;
    UpToStopMeans(plugins, message, behave, ignore);
    invoked := [];
    for i := 0 to |plugins|
      invariant invoked == plugins[..i]
      invariant forall j :: 0 <= j < i ==> !StopsOn(plugins[j], message, behave, ignore)
    {
      var answer := behave(plugins[i], message);
      invoked := invoked + [plugins[i]];
      var handled := HandlePluginResult(answer, plugins[i], ignore);
      HandledAsDocumented(answer, plugins[i], ignore);
      if handled.stop {
        FirstStop(plugins, message, behave, ignore, i);
        if handled.failed { return Failed, invoked; }
        return Replied(handled.reply.value), invoked;
      }
    }
    return Replied(FRESH), invoked;
  }

  lemma FirstStop<M>(plugins: seq<Instance>, message: M, behave: Behaviour<M>, ignore: bool, i: nat)
    requires i < |plugins| && StopsOn(plugins[i], message, behave, ignore)
    requires forall j :: 0 <= j < i ==> !StopsOn(plugins[j], message, behave, ignore)
    ensures AnyStops(plugins, message, behave, ignore)
    ensures UpToStop(plugins, message, behave, ignore) == plugins[..i + 1]
  {
    hide StopsOn, UpToStop;
    UpToStopMeans(plugins, message, behave, ignore);
    var prefix := UpToStop(plugins, message, behave, ignore);
    assert prefix == plugins[..|prefix|];
    assert |prefix| - 1 == i;
  }

  /** Any order of arrival. */
  method Arrivals(plugins: seq<Instance>) returns (order: seq<Instance>)
    ensures multiset(order) == multiset(plugins)
  {
    order := [];
    var waiting := plugins;
    while waiting != []
      invariant multiset(order) + multiset(waiting) == multiset(plugins)
      decreases |waiting|
    {
      var i :| 0 <= i < |waiting|;
      assert waiting == waiting[..i] + [waiting[i]] + waiting[i + 1..];
      order := order + [waiting[i]];
      waiting := waiting[..i] + waiting[i + 1..];
    }
  }

  /** Everybody is invoked; the results are read in the order in which they arrive, up to the first that stops. */
  method ExecuteParallel<M>(plugins: seq<Instance>, message: M, behave: Behaviour<M>, ignore: bool)
    returns (result: Result, invoked: seq<Instance>)
    ensures multiset(invoked) == multiset(plugins)
    ensures if AnyStops(plugins, message, behave, ignore) then StopsWith(plugins, message, behave, ignore, result)
            else result == Replied(FRESH)
  {
    hide Stops, StopResult, HandlePluginResult;
    invoked := Arrivals(plugins);
    for i := 0 to |invoked|
      invariant forall j :: 0 <= j < i ==> !StopsOn(invoked[j], message, behave, ignore)
    {
      var answer := behave(invoked[i], message);
      var handled := HandlePluginResult(answer, invoked[i], ignore);
      HandledAsDocumented(answer, invoked[i], ignore);
      if handled.stop {
        assert StopsOn(invoked[i], message, behave, ignore);
        result := if handled.failed then Failed else Replied(handled.reply.value);
        SameStops(plugins, invoked, message, behave, ignore, i, result);
        return;
      }
    }
    result := Replied(FRESH);
    NoStops(plugins, invoked, message, behave, ignore);
  }

  /** The result of some plugin that stops. */
  ghost predicate StopsWith<M>(plugins: seq<Instance>, message: M, behave: Behaviour<M>, ignore: bool, result: Result) {
    exists inst :: inst in plugins && StopsOn(inst, message, behave, ignore) && result == StopResult(behave(inst, message))
  }

  lemma SameStops<M>(plugins: seq<Instance>, invoked: seq<Instance>, message: M, behave: Behaviour<M>, ignore: bool,
                     i: nat, result: Result)
    requires multiset(invoked) == multiset(plugins) && i < |invoked|
    requires StopsOn(invoked[i], message, behave, ignore) && result == StopResult(behave(invoked[i], message))
    ensures AnyStops(plugins, message, behave, ignore) && StopsWith(plugins, message, behave, ignore, result)
  {
    hide StopsOn, StopResult;
    assert invoked[i] in multiset(invoked);
    assert invoked[i] in plugins;
  }

  lemma NoStops<M>(plugins: seq<Instance>, invoked: seq<Instance>, message: M, behave: Behaviour<M>, ignore: bool)
    requires multiset(invoked) == multiset(plugins)
    requires forall j :: 0 <= j < |invoked| ==> !StopsOn(invoked[j], message, behave, ignore)
    ensures !AnyStops(plugins, message, behave, ignore)
  {
    hide StopsOn;
    forall i | 0 <= i < |plugins| ensures !StopsOn(plugins[i], message, behave, ignore) {
      assert plugins[i] in multiset(plugins);
      assert plugins[i] in invoked;
    }
  }

  /******* A whole pass *******/

  /** One category that was executed: who was invoked, and with which message. */
  datatype Round<M> = Round(category: Category, invoked: seq<Instance>, message: M)

  type Registry = map<Category, seq<Instance>>

  function Registered(plugins: Registry, c: Category): seq<Instance> {
    if c in plugins then plugins[c] else []
  }

  predicate CategoryStops<M>(plugins: Registry, c: Category, flow: Flow, message: M, behave: Behaviour<M>) {
    AnyStops(Eligible(Registered(plugins, c), flow), message, behave, PropertiesOf(c).ignoreOptionalRejection)
  }

  /** The category lets the message through. */
  predicate Passes<M>(plugins: Registry, c: Category, flow: Flow, message: M, behave: Behaviour<M>) {
    !LookupFails(Registered(plugins, c), flow) && !CategoryStops(plugins, c, flow, message, behave)
  }

  /** Everybody in a parallel category; in a serial one, in order up to the first plugin that stops. */
  ghost predicate RoundOk<M>(plugins: Registry, flow: Flow, behave: Behaviour<M>, round: Round<M>) {
    var eligible := Eligible(Registered(plugins, round.category), flow);
    if PropertiesOf(round.category).parallel then multiset(round.invoked) == multiset(eligible)
    else round.invoked == UpToStop(eligible, round.message, behave, PropertiesOf(round.category).ignoreOptionalRejection)
  }

  /** What one category does: nothing for want of plugins, an error, or a round with a result. */
  datatype Turn<M> = Skipped | LookupFailed | Ran(result: Result, round: Round<M>)

  ghost predicate TurnOk<M>(plugins: Registry, c: Category, flow: Flow, message: M, behave: Behaviour<M>, turn: Turn<M>) {
    var eligible := Eligible(Registered(plugins, c), flow);
    match turn
    case LookupFailed => LookupFails(Registered(plugins, c), flow)
    case Skipped => !LookupFails(Registered(plugins, c), flow) && eligible == []
    case Ran(result, round) =>
      !LookupFails(Registered(plugins, c), flow) && eligible != [] &&
      round.category == c && round.message == message && RoundOk(plugins, flow, behave, round) &&
      (if CategoryStops(plugins, c, flow, message, behave)
       then StopsWith(eligible, message, behave, PropertiesOf(c).ignoreOptionalRejection, result)
       else result == Replied(FRESH))
  }

  method RunCategory<M>(plugins: Registry, c: Category, flow: Flow, message: M, behave: Behaviour<M>) returns (turn: Turn<M>)
    ensures TurnOk(plugins, c, flow, message, behave, turn)
  {
    hide Eligible, LookupFails, AnyStops, UpToStop, StopsOn, StopResult;
    if c !in plugins || plugins[c] == [] { NothingRegistered(flow); return Skipped; }
    var eligible := FilterByFlow(plugins[c], flow);
    if eligible.None? { return LookupFailed; }
    if eligible.value == [] { return Skipped; }
    var props := PropertiesOf(c);
    var result, invoked;
    if props.parallel {
      result, invoked := ExecuteParallel(eligible.value, message, behave, props.ignoreOptionalRejection);
    } else {
      result, invoked := ExecuteSerial(eligible.value, message, behave, props.ignoreOptionalRejection);
      SerialStopsWith(eligible.value, message, behave, props.ignoreOptionalRejection);
    }
    return Ran(result, Round(c, invoked, message));
  }

  lemma NothingRegistered(flow: Flow)
    ensures Eligible([], flow) == [] && !LookupFails([], flow)
  {
  }

  lemma SerialStopsWith<M>(plugins: seq<Instance>, message: M, behave: Behaviour<M>, ignore: bool)
    ensures AnyStops(plugins, message, behave, ignore) ==>
      var prefix := UpToStop(plugins, message, behave, ignore);
      StopsWith(plugins, message, behave, ignore, StopResult(behave(prefix[|prefix| - 1], message)))
  {
    hide StopsOn, StopResult, UpToStop;
    UpToStopMeans(plugins, message, behave, ignore);
    if AnyStops(plugins, message, behave, ignore) {
      var prefix := UpToStop(plugins, message, behave, ignore);
      assert plugins[|prefix| - 1] == prefix[|prefix| - 1];
    }
  }

  function RunsSomebody(plugins: Registry, c: Category, flow: Flow): bool {
    Eligible(Registered(plugins, c), flow) != []
  }

  /** The categories among the first `k` that have somebody to invoke. */
  function Executed(plugins: Registry, flow: Flow, k: nat): seq<Category>
    requires k <= |ORDER|
  {
    if k == 0 then [] else
    Executed(plugins, flow, k - 1) + if RunsSomebody(plugins, ORDER[k - 1], flow) then [ORDER[k - 1]] else []
  }

  function Categories<M>(rounds: seq<Round<M>>): seq<Category> {
    seq(|rounds|, i requires 0 <= i < |rounds| => rounds[i].category)
  }

  function PositionOf(c: Category): nat {
    match c
    case Observability => 0
    case Authentication => 1
    case Authorization => 2
    case RateLimiting => 3
    case Validation => 4
    case Content => 5
    case _ => 6
  }

  ghost predicate RoundsOk<M>(plugins: Registry, flow: Flow, at: seq<M>, behave: Behaviour<M>, rounds: seq<Round<M>>)
    requires |at| == |ORDER|
  {
    forall i :: 0 <= i < |rounds| ==>
      RoundOk(plugins, flow, behave, rounds[i]) && rounds[i].message == at[PositionOf(rounds[i].category)]
  }

  /** The first `k` categories let their messages through. */
  ghost predicate PassUntil<M>(plugins: Registry, flow: Flow, at: seq<M>, behave: Behaviour<M>, k: nat)
    requires k <= |ORDER| == |at|
  {
    forall j :: 0 <= j < k ==> Passes(plugins, ORDER[j], flow, at[j], behave)
  }

  /** How a pass that is stopped by category `k` ends. */
  ghost predicate BlockedBy<M>(plugins: Registry, flow: Flow, at: seq<M>, behave: Behaviour<M>, k: nat, result: Result)
    requires k < |ORDER| == |at|
  {
    var c := ORDER[k];
    if LookupFails(Registered(plugins, c), flow) then result == Failed
    else
      CategoryStops(plugins, c, flow, at[k], behave) &&
      StopsWith(Eligible(Registered(plugins, c), flow), at[k], behave, PropertiesOf(c).ignoreOptionalRejection, result)
  }

  /** Which categories were executed by a pass that is stopped by category `k`. */
  function ExecutedUpTo(plugins: Registry, flow: Flow, k: nat): seq<Category>
    requires k < |ORDER|
  {
    if LookupFails(Registered(plugins, ORDER[k]), flow) then Executed(plugins, flow, k) else Executed(plugins, flow, k + 1)
  }

  /**
    * A complete account of a pass: either every category passes, and `through` is the result; or there is a first
    * category that does not, which decides the result, and nothing after it is executed.
    */
  ghost predicate PassOk<M>(plugins: Registry, flow: Flow, at: seq<M>, behave: Behaviour<M>, through: Reply,
                            result: Result, rounds: seq<Round<M>>)
    requires |at| == |ORDER|
  {
    RoundsOk(plugins, flow, at, behave, rounds) &&
    if PassUntil(plugins, flow, at, behave, |ORDER|)
    then result == Replied(through) && Categories(rounds) == Executed(plugins, flow, |ORDER|)
    else exists k :: 0 <= k < |ORDER| && EndsAt(plugins, flow, at, behave, k, result, rounds)
  }

  ghost predicate EndsAt<M>(plugins: Registry, flow: Flow, at: seq<M>, behave: Behaviour<M>, k: nat,
                            result: Result, rounds: seq<Round<M>>)
    requires k < |ORDER| == |at|
  {
    PassUntil(plugins, flow, at, behave, k) && BlockedBy(plugins, flow, at, behave, k, result) &&
    Categories(rounds) == ExecutedUpTo(plugins, flow, k)
  }

  lemma TurnPasses<M>(plugins: Registry, flow: Flow, at: seq<M>, behave: Behaviour<M>, k: nat, turn: Turn<M>)
    requires k < |ORDER| == |at| && PassUntil(plugins, flow, at, behave, k)
    requires TurnOk(plugins, ORDER[k], flow, at[k], behave, turn)
    ensures turn == Skipped ==> PassUntil(plugins, flow, at, behave, k + 1) && !RunsSomebody(plugins, ORDER[k], flow)
    ensures turn.Ran? && !CategoryStops(plugins, ORDER[k], flow, at[k], behave) ==>
      PassUntil(plugins, flow, at, behave, k + 1) && turn.result == Replied(FRESH)
    ensures turn.Ran? ==> RunsSomebody(plugins, ORDER[k], flow)
  {
    hide Eligible, LookupFails, UpToStop, StopsOn, RoundOk, StopsWith;
  }

  lemma TurnBlocks<M>(plugins: Registry, flow: Flow, at: seq<M>, behave: Behaviour<M>, k: nat, turn: Turn<M>)
    requires k < |ORDER| == |at| && PassUntil(plugins, flow, at, behave, k)
    requires TurnOk(plugins, ORDER[k], flow, at[k], behave, turn)
    requires turn == LookupFailed || (turn.Ran? && CategoryStops(plugins, ORDER[k], flow, at[k], behave))
    ensures !PassUntil(plugins, flow, at, behave, |ORDER|)
    ensures BlockedBy(plugins, flow, at, behave, k, if turn == LookupFailed then Failed else turn.result)
    ensures LookupFails(Registered(plugins, ORDER[k]), flow) == (turn == LookupFailed)
  {
    hide Eligible, LookupFails, UpToStop, StopsOn, RoundOk, StopsWith, AnyStops;
    assert !Passes(plugins, ORDER[k], flow, at[k], behave);
  }

  /** The result of a stopping plugin never says to go on. */
  lemma StopNeverProceeds<M>(plugins: seq<Instance>, message: M, behave: Behaviour<M>, ignore: bool, result: Result)
    requires StopsWith(plugins, message, behave, ignore, result)
    ensures result.Failed? || !result.reply.proceed
  {
  }

  lemma CategoriesAppend<M>(rounds: seq<Round<M>>, round: Round<M>)
    ensures Categories(rounds + [round]) == Categories(rounds) + [round.category]
  {
  }

  lemma InOrder(k: nat)
    requires k < |ORDER|
    ensures PositionOf(ORDER[k]) == k
  {
  }

  function Same<M>(message: M): (at: seq<M>)
    ensures |at| == |ORDER|
  {
    seq(|ORDER|, i => message)
  }

  /** A response is replaced by a fresh one once the content category has run. */
  function AfterContent(plugins: Registry, resp: Reply): Reply {
    if RunsSomebody(plugins, Content, Response) then FRESH else resp
  }

  /** What each category is given to look at: only the audit plugins come after the content plugins. */
  function ResponseAt(plugins: Registry, resp: Reply): (at: seq<Reply>)
    ensures |at| == |ORDER|
  {
    seq(|ORDER|, i requires 0 <= i < |ORDER| => ResponseBefore(plugins, resp, i))
  }

  function ResponseBefore(plugins: Registry, resp: Reply, k: nat): Reply {
    if k > 5 then AfterContent(plugins, resp) else resp
  }

  lemma RoundFits<M>(plugins: Registry, flow: Flow, at: seq<M>, behave: Behaviour<M>, rounds: seq<Round<M>>,
                     k: nat, turn: Turn<M>)
    requires k < |ORDER| == |at| && RoundsOk(plugins, flow, at, behave, rounds)
    requires turn.Ran? && TurnOk(plugins, ORDER[k], flow, at[k], behave, turn)
    requires Categories(rounds) == Executed(plugins, flow, k)
    ensures RoundsOk(plugins, flow, at, behave, rounds + [turn.round])
    ensures Categories(rounds + [turn.round]) == Executed(plugins, flow, k + 1)
  {
    hide LookupFails, UpToStop, StopsOn, RoundOk, StopsWith, AnyStops, Categories, PositionOf, CategoryStops;
    CategoriesAppend(rounds, turn.round);
    InOrder(k);
  }

  lemma SkipFits(plugins: Registry, flow: Flow, k: nat)
    requires k < |ORDER| && !RunsSomebody(plugins, ORDER[k], flow)
    ensures Executed(plugins, flow, k + 1) == Executed(plugins, flow, k)
  {
  }

  class Pipeline {
    var plugins: Registry

    constructor ()
      ensures plugins == map[]
    {
      plugins := map[];
    }

    /** False is the error for an unknown category. */
    method Register(category: Category, instance: Instance) returns (ok: bool)
      modifies this
      ensures ok == !category.Unknown?
      ensures ok ==> Registered(plugins, category) == Registered(old(plugins), category) + [instance]
      ensures forall c :: c != category || !ok ==> Registered(plugins, c) == Registered(old(plugins), c)
    {
      if category.Unknown? { return false; }
      plugins := plugins[category := Registered(plugins, category) + [instance]];
      return true;
    }

    method HandleRequest(req: string, behave: Behaviour<string>) returns (result: Result, rounds: seq<Round<string>>)
      ensures PassOk(plugins, Request, Same(req), behave, FRESH, result, rounds)
    {
      hide TurnOk, PassUntil, RoundsOk, Executed, Categories, BlockedBy, RunsSomebody, CategoryStops;
      var currentReq := req;
      rounds := [];
      ghost var at := Same(req);
      NothingYet(plugins, Request, at, behave);
      for k := 0 to |ORDER|
        invariant currentReq == req
        invariant PassUntil(plugins, Request, at, behave, k)
        invariant RoundsOk(plugins, Request, at, behave, rounds)
        invariant Categories(rounds) == Executed(plugins, Request, k)
      {
        var turn := RunCategory(plugins, ORDER[k], Request, currentReq, behave);
        TurnPasses(plugins, Request, at, behave, k, turn);
        if turn == LookupFailed {
          TurnBlocks(plugins, Request, at, behave, k, turn);
          assert EndsAt(plugins, Request, at, behave, k, Failed, rounds);
          return Failed, rounds;
        }
        if turn == Skipped {
          SkipFits(plugins, Request, k);
        } else {
          result := turn.result;
          RoundFits(plugins, Request, at, behave, rounds, k, turn);
          rounds := rounds + [turn.round];
          if CategoryStops(plugins, ORDER[k], Request, req, behave) {
            TurnBlocks(plugins, Request, at, behave, k, turn);
            assert EndsAt(plugins, Request, at, behave, k, result, rounds);
            TurnNeverProceeds(plugins, ORDER[k], Request, req, behave, turn);
          }
          if result.Failed? { return; }
          if PropertiesOf(ORDER[k]).canModify && result.reply.modified.Some? {
            currentReq := result.reply.modified.value;
          }
          if !result.reply.proceed { return; }
        }
      }
      return Replied(FRESH), rounds;
    }

    method HandleResponse(resp: Reply, behave: Behaviour<Reply>) returns (result: Result, rounds: seq<Round<Reply>>)
      ensures PassOk(plugins, Response, ResponseAt(plugins, resp), behave, AfterContent(plugins, resp), result, rounds)
    {
      hide TurnOk, PassUntil, RoundsOk, Executed, Categories, BlockedBy, RunsSomebody, CategoryStops;
      var currentResp := resp;
      rounds := [];
      ghost var at := ResponseAt(plugins, resp);
      NothingYet(plugins, Response, at, behave);
      for k := 0 to |ORDER|
        invariant currentResp == ResponseBefore(plugins, resp, k)
        invariant PassUntil(plugins, Response, at, behave, k)
        invariant RoundsOk(plugins, Response, at, behave, rounds)
        invariant Categories(rounds) == Executed(plugins, Response, k)
      {
        var turn := RunCategory(plugins, ORDER[k], Response, currentResp, behave);
        TurnPasses(plugins, Response, at, behave, k, turn);
        if turn == LookupFailed {
          TurnBlocks(plugins, Response, at, behave, k, turn);
          assert EndsAt(plugins, Response, at, behave, k, Failed, rounds);
          return Failed, rounds;
        }
        if turn == Skipped {
          SkipFits(plugins, Response, k);
        } else {
          result := turn.result;
          RoundFits(plugins, Response, at, behave, rounds, k, turn);
          rounds := rounds + [turn.round];
          if CategoryStops(plugins, ORDER[k], Response, at[k], behave) {
            TurnBlocks(plugins, Response, at, behave, k, turn);
            assert EndsAt(plugins, Response, at, behave, k, result, rounds);
            TurnNeverProceeds(plugins, ORDER[k], Response, at[k], behave, turn);
          }
          if result.Failed? { return; }
          if PropertiesOf(ORDER[k]).canModify { currentResp := result.reply; }
          if !result.reply.proceed { return; }
        }
      }
      return Replied(currentResp), rounds;
    }
  }

  lemma NothingYet<M>(plugins: Registry, flow: Flow, at: seq<M>, behave: Behaviour<M>)
    requires |at| == |ORDER|
    ensures PassUntil(plugins, flow, at, behave, 0) && RoundsOk(plugins, flow, at, behave, [])
    ensures Categories<M>([]) == Executed(plugins, flow, 0)
  {
  }

  lemma TurnNeverProceeds<M>(plugins: Registry, c: Category, flow: Flow, message: M, behave: Behaviour<M>, turn: Turn<M>)
    requires turn.Ran? && TurnOk(plugins, c, flow, message, behave, turn) && CategoryStops(plugins, c, flow, message, behave)
    ensures turn.result.Failed? || !turn.result.reply.proceed
  {
    hide Eligible, LookupFails, UpToStop, StopsOn, RoundOk, StopsWith, AnyStops;
    var ignore := PropertiesOf(c).ignoreOptionalRejection;
    StopNeverProceeds(Eligible(Registered(plugins, c), flow), message, behave, ignore, turn.result);
  }

  /******* Main results: they hold for every account that a pass may give *******/

  /** The capabilities of every configured plugin are known, and no plugin that runs in this flow stops the pass. */
  ghost predicate NobodyStops<M>(plugins: Registry, flow: Flow, at: seq<M>, behave: Behaviour<M>)
    requires |at| == |ORDER|
  {
    forall j, i :: 0 <= j < |ORDER| && 0 <= i < |Registered(plugins, ORDER[j])| ==>
      LetsThrough(Registered(plugins, ORDER[j])[i], flow, at[j], behave, PropertiesOf(ORDER[j]).ignoreOptionalRejection)
  }

  predicate LetsThrough<M>(inst: Instance, flow: Flow, message: M, behave: Behaviour<M>, ignore: bool) {
    flow in inst.configured ==>
      inst.capabilities.Some? && (flow in inst.capabilities.value ==> !StopsOn(inst, message, behave, ignore))
  }

  lemma PassesMeans<M>(plugins: Registry, c: Category, flow: Flow, message: M, behave: Behaviour<M>)
    ensures Passes(plugins, c, flow, message, behave) <==>
      forall i :: 0 <= i < |Registered(plugins, c)| ==>
        LetsThrough(Registered(plugins, c)[i], flow, message, behave, PropertiesOf(c).ignoreOptionalRejection)
  {
    hide StopsOn, Registered, Eligible;
    var instances, ignore := Registered(plugins, c), PropertiesOf(c).ignoreOptionalRejection;
    forall i | 0 <= i < |instances| ensures instances[i] in Eligible(instances, flow) <==> IsEligible(instances[i], flow) {
      EligibleMeans(instances, flow, instances[i]);
    }
    var eligible := Eligible(instances, flow);
    forall k | 0 <= k < |eligible| ensures eligible[k] in instances && IsEligible(eligible[k], flow) {
      EligibleMeans(instances, flow, eligible[k]);
    }
  }

  /** The result says to continue exactly when nobody stops, whatever the order in which parallel results arrive. */
  lemma ContinuesIff<M>(plugins: Registry, flow: Flow, at: seq<M>, behave: Behaviour<M>, through: Reply,
                        result: Result, rounds: seq<Round<M>>)
    requires |at| == |ORDER| && through.proceed && PassOk(plugins, flow, at, behave, through, result, rounds)
    ensures result.Replied? && result.reply.proceed <==> NobodyStops(plugins, flow, at, behave)
    ensures result.Replied? && result.reply.proceed ==> result.reply == through
  {
    hide RoundsOk, Executed, ExecutedUpTo, Categories, Passes, StopsWith, LetsThrough, Registered, CategoryStops;
    forall j | 0 <= j < |ORDER| ensures Passes(plugins, ORDER[j], flow, at[j], behave) <==>
      forall i :: 0 <= i < |Registered(plugins, ORDER[j])| ==>
        LetsThrough(Registered(plugins, ORDER[j])[i], flow, at[j], behave, PropertiesOf(ORDER[j]).ignoreOptionalRejection)
    {
      PassesMeans(plugins, ORDER[j], flow, at[j], behave);
    }
    assert NobodyStops(plugins, flow, at, behave) <==> PassUntil(plugins, flow, at, behave, |ORDER|);
    if !PassUntil(plugins, flow, at, behave, |ORDER|) {
      var k :| 0 <= k < |ORDER| && EndsAt(plugins, flow, at, behave, k, result, rounds);
      BlockedNeverProceeds(plugins, flow, at, behave, k, result);
    }
  }

  lemma BlockedNeverProceeds<M>(plugins: Registry, flow: Flow, at: seq<M>, behave: Behaviour<M>, k: nat, result: Result)
    requires k < |ORDER| == |at| && BlockedBy(plugins, flow, at, behave, k, result)
    ensures result.Failed? || !result.reply.proceed
  {
    hide Eligible, LookupFails, StopsWith, CategoryStops;
    var c := ORDER[k];
    if !LookupFails(Registered(plugins, c), flow) {
      StopNeverProceeds(Eligible(Registered(plugins, c), flow), at[k], behave, PropertiesOf(c).ignoreOptionalRejection, result);
    }
  }

  /** A required plugin that takes part and fails or rejects is never overruled: the pass does not continue. */
  lemma RequiredNeverPasses<M>(plugins: Registry, flow: Flow, at: seq<M>, behave: Behaviour<M>, through: Reply,
                               result: Result, rounds: seq<Round<M>>, j: nat, i: nat)
    requires j < |ORDER| == |at| && i < |Registered(plugins, ORDER[j])|
    requires IsEligible(Registered(plugins, ORDER[j])[i], flow) && Registered(plugins, ORDER[j])[i].required
    ensures var answer := behave(Registered(plugins, ORDER[j])[i], at[j]);
      (answer.failed || Rejects(answer)) && through.proceed && PassOk(plugins, flow, at, behave, through, result, rounds) ==>
        result.Failed? || !result.reply.proceed
  {
    hide Registered, PassOk;
    var inst := Registered(plugins, ORDER[j])[i];
    if behave(inst, at[j]).failed || Rejects(behave(inst, at[j])) {
      assert !LetsThrough(inst, flow, at[j], behave, PropertiesOf(ORDER[j]).ignoreOptionalRejection);
      assert !NobodyStops(plugins, flow, at, behave);
      if through.proceed && PassOk(plugins, flow, at, behave, through, result, rounds) {
        ContinuesIff(plugins, flow, at, behave, through, result, rounds);
      }
    }
  }

  /** In a serial category the invoked plugins are the first ones, and only the last of them may stop. */
  lemma SerialIsPrefix<M>(plugins: Registry, flow: Flow, behave: Behaviour<M>, round: Round<M>, i: nat)
    requires RoundOk(plugins, flow, behave, round) && !PropertiesOf(round.category).parallel
    requires i < |round.invoked|
    ensures round.invoked <= Eligible(Registered(plugins, round.category), flow)
    ensures StopsOn(round.invoked[i], round.message, behave, PropertiesOf(round.category).ignoreOptionalRejection) ==>
      i == |round.invoked| - 1
  {
    hide StopsOn, Eligible, UpToStop;
    UpToStopMeans(Eligible(Registered(plugins, round.category), flow), round.message, behave,
                  PropertiesOf(round.category).ignoreOptionalRejection);
  }

  /** No plugin ever sees a request that another plugin has modified, although content plugins may modify it. */
  lemma ModificationsAreLost(plugins: Registry, req: string, behave: Behaviour<string>, result: Result,
                             rounds: seq<Round<string>>, i: nat)
    requires i < |rounds|
    ensures PassOk(plugins, Request, Same(req), behave, FRESH, result, rounds) ==>
      rounds[i].message == req && (result.Replied? && result.reply.proceed ==> result.reply.modified == None)
  {
    hide PassOk;
    if PassOk(plugins, Request, Same(req), behave, FRESH, result, rounds) {
      ContinuesIff(plugins, Request, Same(req), behave, FRESH, result, rounds);
      PassShows(plugins, Request, Same(req), behave, FRESH, result, rounds, i);
    }
  }

  /** Every round of a pass shows its plugins the message for its category. */
  lemma PassShows<M>(plugins: Registry, flow: Flow, at: seq<M>, behave: Behaviour<M>, through: Reply,
                     result: Result, rounds: seq<Round<M>>, i: nat)
    requires |at| == |ORDER| && i < |rounds|
    ensures PassOk(plugins, flow, at, behave, through, result, rounds) ==>
      rounds[i].message == at[PositionOf(rounds[i].category)]
  {
    hide RoundOk, Executed, Categories, PassUntil, EndsAt;
  }

  /** A response that nobody stops comes out as it went in exactly when no content plugin takes part. */
  lemma ResponseSurvivesIff(plugins: Registry, resp: Reply, behave: Behaviour<Reply>, result: Result, rounds: seq<Round<Reply>>)
    ensures
      PassOk(plugins, Response, ResponseAt(plugins, resp), behave, AfterContent(plugins, resp), result, rounds) &&
      NobodyStops(plugins, Response, ResponseAt(plugins, resp), behave) ==>
      result == Replied(AfterContent(plugins, resp)) &&
      (result == Replied(resp) <==> resp == FRESH || !RunsSomebody(plugins, Content, Response))
  {
    hide RoundsOk, Executed, ExecutedUpTo, Categories, Passes, LetsThrough, Registered, RunsSomebody;
    var at := ResponseAt(plugins, resp);
    if NobodyStops(plugins, Response, at, behave) {
      forall j | 0 <= j < |ORDER| ensures Passes(plugins, ORDER[j], Response, at[j], behave) {
        PassesMeans(plugins, ORDER[j], Response, at[j], behave);
      }
    }
  }

  /******* The same in terms of the registered plugins and their answers alone *******/

  /** The plugin is configured for the flow and says that it supports it. */
  ghost function CanRun(flow: Flow): Instance -> bool {
    (inst: Instance) => flow in inst.configured && inst.capabilities.Some? && flow in inst.capabilities.value
  }

  /** Who is invoked: exactly these plugins, in the order of their registration. */
  lemma {:induction false} EligibleIsFilter(instances: seq<Instance>, flow: Flow)
    ensures IsFilter(Eligible(instances, flow), instances, CanRun(flow))
  {
    hide IsFilter;
    if instances == [] {
      NothingFiltered(CanRun(flow));
    } else {
      var n := |instances| - 1;
      EligibleIsFilter(instances[..n], flow);
      FilterSnoc(Eligible(instances[..n], flow), instances[..n], instances[n], CanRun(flow));
      assert instances == instances[..n] + [instances[n]];
      assert Eligible(instances[..n], flow) + [] == Eligible(instances[..n], flow);
    }
  }

  /** A required plugin objects by failing or rejecting; an optional one by rejecting, and not in observability. */
  ghost predicate Objects(inst: Instance, c: Category, answer: Answer) {
    || (answer.failed && inst.required)
    || (!answer.failed && answer.reply.Some? && !answer.reply.value.proceed && (inst.required || c != Observability))
  }

  ghost predicate AllowsPass(inst: Instance, c: Category, flow: Flow, answer: Answer) {
    flow in inst.configured ==>
      inst.capabilities.Some? && (flow in inst.capabilities.value ==> !Objects(inst, c, answer))
  }

  lemma AllowsIff<M>(inst: Instance, c: Category, flow: Flow, message: M, behave: Behaviour<M>)
    ensures LetsThrough(inst, flow, message, behave, PropertiesOf(c).ignoreOptionalRejection) <==>
      AllowsPass(inst, c, flow, behave(inst, message))
  {
  }

  /** A pass continues exactly when no registered plugin of any category stands in its way. */
  lemma ContinuesIffNobodyObjects<M>(plugins: Registry, flow: Flow, at: seq<M>, behave: Behaviour<M>, through: Reply,
                                     result: Result, rounds: seq<Round<M>>)
    requires |at| == |ORDER| && through.proceed && PassOk(plugins, flow, at, behave, through, result, rounds)
    ensures result.Replied? && result.reply.proceed <==>
      forall k, inst :: 0 <= k < |ORDER| && ORDER[k] in plugins && inst in plugins[ORDER[k]] ==>
        AllowsPass(inst, ORDER[k], flow, behave(inst, at[k]))
  {
    hide PassOk, LetsThrough, AllowsPass;
    ContinuesIff(plugins, flow, at, behave, through, result, rounds);
    forall c, inst, message
      ensures LetsThrough(inst, flow, message, behave, PropertiesOf(c).ignoreOptionalRejection) <==>
        AllowsPass(inst, c, flow, behave(inst, message))
    {
      AllowsIff(inst, c, flow, message, behave);
    }
    if NobodyStops(plugins, flow, at, behave) {
      forall k, inst | 0 <= k < |ORDER| && ORDER[k] in plugins && inst in plugins[ORDER[k]]
        ensures AllowsPass(inst, ORDER[k], flow, behave(inst, at[k]))
      {
        var i :| 0 <= i < |plugins[ORDER[k]]| && plugins[ORDER[k]][i] == inst;
        assert inst == Registered(plugins, ORDER[k])[i];
      }
    } else {
      var k, i :| 0 <= k < |ORDER| && 0 <= i < |Registered(plugins, ORDER[k])| &&
        !LetsThrough(Registered(plugins, ORDER[k])[i], flow, at[k], behave, PropertiesOf(ORDER[k]).ignoreOptionalRejection);
      assert Registered(plugins, ORDER[k])[i] in plugins[ORDER[k]];
    }
  }

  /** The order of the categories. */
  lemma OrderIs()
    ensures ORDER[0] == Observability && ORDER[1] == Authentication && ORDER[2] == Authorization && ORDER[3] == RateLimiting
    ensures ORDER[4] == Validation && ORDER[5] == Content && ORDER[6] == Audit && |ORDER| == 7
  {
  }

  /** Observability plugins are all invoked; of the others, those up to the first that objects. */
  lemma InvokedAre<M>(plugins: Registry, flow: Flow, behave: Behaviour<M>, round: Round<M>)
    requires RoundOk(plugins, flow, behave, round)
    ensures var eligible, c := Eligible(Registered(plugins, round.category), flow), round.category;
      if c == Observability then multiset(round.invoked) == multiset(eligible)
      else
        round.invoked <= eligible &&
        (forall i :: 0 <= i < |round.invoked| - 1 ==> !Objects(round.invoked[i], c, behave(round.invoked[i], round.message))) &&
        (round.invoked < eligible ==>
          var last := round.invoked[|round.invoked| - 1]; Objects(last, c, behave(last, round.message)))
  {
    hide Eligible, Registered, UpToStop, Objects, StopsOn;
    var c, message := round.category, round.message;
    if c != Observability {
      UpToStopMeans(Eligible(Registered(plugins, c), flow), message, behave, false);
      forall inst ensures StopsOn(inst, message, behave, false) <==> Objects(inst, c, behave(inst, message)) {
        ObjectsIff(inst, c, message, behave);
      }
    }
  }

  lemma ObjectsIff<M>(inst: Instance, c: Category, message: M, behave: Behaviour<M>)
    ensures StopsOn(inst, message, behave, PropertiesOf(c).ignoreOptionalRejection) <==> Objects(inst, c, behave(inst, message))
  {
  }

  /** The pass is ended by this plugin: its capabilities are unknown, or it objects, and the result is its answer. */
  ghost predicate EndedBy(inst: Instance, c: Category, flow: Flow, answer: Answer, result: Result) {
    flow in inst.configured &&
    if result.Failed? then
      inst.capabilities.None? || (flow in inst.capabilities.value && answer.failed && inst.required)
    else
      inst.capabilities.Some? && flow in inst.capabilities.value &&
      Objects(inst, c, answer) && !answer.failed && answer.reply == Some(result.reply)
  }

  /** A pass that does not continue ends with what one of the plugins says, or with an error that one causes. */
  lemma StoppedPassIsEndedBy<M>(plugins: Registry, flow: Flow, at: seq<M>, behave: Behaviour<M>, through: Reply,
                                result: Result, rounds: seq<Round<M>>) returns (k: nat, inst: Instance)
    requires |at| == |ORDER| && through.proceed && PassOk(plugins, flow, at, behave, through, result, rounds)
    requires !(result.Replied? && result.reply.proceed)
    ensures k < |ORDER| && ORDER[k] in plugins && inst in plugins[ORDER[k]]
    ensures EndedBy(inst, ORDER[k], flow, behave(inst, at[k]), result)
  {
    hide RoundsOk, Executed, ExecutedUpTo, Categories, Passes, StopsWith, Registered, CategoryStops, LookupFails, EndedBy;
    k :| 0 <= k < |ORDER| && EndsAt(plugins, flow, at, behave, k, result, rounds);
    inst := BlockerOf(plugins, flow, at, behave, k, result);
  }

  lemma BlockerOf<M>(plugins: Registry, flow: Flow, at: seq<M>, behave: Behaviour<M>, k: nat, result: Result)
    returns (inst: Instance)
    requires k < |ORDER| == |at| && BlockedBy(plugins, flow, at, behave, k, result)
    ensures ORDER[k] in plugins && inst in plugins[ORDER[k]]
    ensures EndedBy(inst, ORDER[k], flow, behave(inst, at[k]), result)
  {
    hide Eligible, AnyStops, StopsOn;
    var c := ORDER[k];
    var instances := Registered(plugins, c);
    if LookupFails(instances, flow) {
      var i :| 0 <= i < |instances| && flow in instances[i].configured && instances[i].capabilities.None?;
      inst := instances[i];
    } else {
      inst :| inst in Eligible(instances, flow) && StopsOn(inst, at[k], behave, PropertiesOf(c).ignoreOptionalRejection) &&
        result == StopResult(behave(inst, at[k]));
      EligibleMeans(instances, flow, inst);
      ObjectsIff(inst, c, at[k], behave);
    }
  }

  /** What the plugins of a response pass are shown: only audit may see a fresh response, after content plugins. */
  lemma ShownResponse(plugins: Registry, resp: Reply, behave: Behaviour<Reply>, result: Result, rounds: seq<Round<Reply>>, i: nat)
    requires i < |rounds| && rounds[i].category in ORDER
    ensures PassOk(plugins, Response, ResponseAt(plugins, resp), behave, AfterContent(plugins, resp), result, rounds) ==>
      rounds[i].message ==
      if rounds[i].category == Audit && Content in plugins && exists inst :: inst in plugins[Content] && CanRun(Response)(inst)
      then Reply(true, 0, "", None) else resp
  {
    hide PassOk, Eligible;
    PassShows(plugins, Response, ResponseAt(plugins, resp), behave, AfterContent(plugins, resp), result, rounds, i);
    var contents := Registered(plugins, Content);
    forall inst ensures inst in Eligible(contents, Response) <==> inst in contents && CanRun(Response)(inst) {
      EligibleMeans(contents, Response, inst);
    }
    if Eligible(contents, Response) != [] { assert Eligible(contents, Response)[0] in Eligible(contents, Response); }
  }
}
