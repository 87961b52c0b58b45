/**
  * The reload handshake: a signal handler and the main loop share a flag and a channel of capacity one.
  * A run is any interleaving of their atomic steps.
  */
module Handshake {
  import opened Options

  datatype Signal = Hangup | Terminate

  /** Handler: waiting for a signal; holding a hangup, before the compare-and-swap; about to send; returned. */
  datatype Handler = Waiting | Holding | Sending | Returned

  /** Main loop: in its select; reloading servers; returned. */
  datatype Main = Selecting | Reloading | Exited

  datatype State = State(
    flag: bool, tokens: nat, inbox: Option<Signal>, handler: Handler, main: Main, cancelled: bool,
    taken: nat, accepted: nat, dropped: nat, channelFull: nat, completed: nat, failed: nat)

  const INIT := State(false, 0, None, Waiting, Selecting, false, 0, 0, 0, 0, 0, 0)

  const CAPACITY: nat := 1

  datatype Event = Deliver(signal: Signal) | Take | Swap | Send | Receive | Finish(ok: bool) | SeeShutdown | DaemonExits

  /** Whether the program can take the step; the handler is followed only while the main loop runs. */
  predicate Enabled(s: State, e: Event) {
    match e
    case Deliver(_) => true
    case Take => s.main != Exited && s.handler == Waiting && s.inbox.Some?
    case Swap => s.main != Exited && s.handler == Holding
    case Send => s.main != Exited && s.handler == Sending
    case Receive => s.main == Selecting && s.tokens > 0
    case Finish(_) => s.main == Reloading
    case SeeShutdown => s.main == Selecting && s.cancelled
    case DaemonExits => s.main == Selecting
  }

  function Step(s: State, e: Event): State
    requires Enabled(s, e)
  {
    match e
    case Deliver(signal) =>
      // A signal that does not fit into the notification channel is lost.
      if s.inbox.None? then s.(inbox := Some(signal)) else s
    case Take =>
      if s.inbox.value.Hangup? then s.(inbox := None, handler := Holding, taken := s.taken + 1)
      else s.(inbox := None, handler := Returned, cancelled := true)
    case Swap =>
      if s.flag then s.(handler := Waiting, dropped := s.dropped + 1)
      else s.(flag := true, handler := Sending, accepted := s.accepted + 1)
    case Send =>
      if s.tokens < CAPACITY then s.(tokens := s.tokens + 1, handler := Waiting)
      else s.(handler := Waiting, channelFull := s.channelFull + 1)
    case Receive => s.(tokens := s.tokens - 1, main := Reloading)
    case Finish(ok) =>
      if ok then s.(flag := false, main := Selecting, completed := s.completed + 1)
      else s.(main := Exited, failed := s.failed + 1)
    case SeeShutdown => s.(main := Exited)
    case DaemonExits => s.(main := Exited)
  }

  predicate IsRun(s: State, events: seq<Event>)
    decreases |events|
  {
    events == [] || (Enabled(s, events[0]) && IsRun(Step(s, events[0]), events[1..]))
  }

  function After(s: State, events: seq<Event>): State
    requires IsRun(s, events)
    decreases |events|
  {
    if events == [] then s else After(Step(s, events[0]), events[1..])
  }

  /******* The invariant *******/

  function Count(b: bool): nat {
    if b then 1 else 0
  }

  /** The phases of a reload that is under way: chosen but not sent, queued, running. */
  function Phases(s: State): nat {
    Count(s.handler == Sending) + s.tokens + Count(s.main == Reloading)
  }

  predicate Inv(s: State) {
    && s.tokens <= CAPACITY
    && s.channelFull == 0
    && s.accepted == s.completed + s.failed + Phases(s)
    && s.taken == s.accepted + s.dropped + Count(s.handler == Holding)
    && (s.main != Exited ==> s.failed == 0 && Phases(s) == Count(s.flag))
    && s.failed + Phases(s) == Count(s.flag)
  }

  lemma StepKeepsInv(s: State, e: Event)
    requires Inv(s) && Enabled(s, e)
    ensures Inv(Step(s, e))
  {
  }

  /**
    * In every interleaving the flag is up exactly while one reload is chosen, queued or running, no two phases ever
    * overlap, the branch for a full channel is never taken, and every accepted hangup is completed or under way.
    */
  lemma {:induction false} RunKeepsInv(s: State, events: seq<Event>)
    requires Inv(s) && IsRun(s, events)
    ensures Inv(After(s, events))
    decreases |events|
  {
    if events != [] {
      StepKeepsInv(s, events[0]);
      RunKeepsInv(Step(s, events[0]), events[1..]);
    }
  }

  predicate OnePhase(s: State) {
    && s.channelFull == 0
    && s.accepted == s.completed + Count(s.flag)
    && (s.flag <==> s.handler == Sending || s.tokens == 1 || s.main == Reloading)
    && !(s.handler == Sending && s.tokens == 1)
    && !(s.handler == Sending && s.main == Reloading)
    && !(s.tokens == 1 && s.main == Reloading)
    && s.tokens <= 1
  }

  lemma InitialState()
    ensures Inv(INIT) && OnePhase(INIT)
  {
  }

  lemma FlagMeansOnePhase(s: State, events: seq<Event>)
    requires Inv(s) && IsRun(s, events) && After(s, events).main != Exited
    ensures OnePhase(After(s, events))
  {
    hide IsRun, After;
    RunKeepsInv(s, events);
  }

  /** So it is in every run of the program from its start. */
  lemma FlagFromStart(s: State, events: seq<Event>)
    requires s == INIT && IsRun(s, events) && After(s, events).main != Exited
    ensures OnePhase(After(s, events))
  {
    hide IsRun, After, OnePhase;
    InitialState();
    FlagMeansOnePhase(s, events);
  }

  /******* The order of things: accept, send, receive, finish, and again *******/

  datatype Mark = Accepts | Sends | Starts | Ends

  function MarkOf(s: State, e: Event): seq<Mark>
    requires Enabled(s, e)
  {
    match e
    case Swap => if s.flag then [] else [Accepts]
    case Send => if s.tokens < CAPACITY then [Sends] else []
    case Receive => [Starts]
    case Finish(ok) => if ok then [Ends] else []
    case _ => []
  }

  function Marks(s: State, events: seq<Event>): seq<Mark>
    requires IsRun(s, events)
    decreases |events|
  {
    if events == [] then [] else MarkOf(s, events[0]) + Marks(Step(s, events[0]), events[1..])
  }

  function Cycle(phase: nat): Mark {
    match phase % 4
    case 0 => Accepts
    case 1 => Sends
    case 2 => Starts
    case _ => Ends
  }

  function Phase(s: State): nat {
    if s.handler == Sending then 1 else if s.tokens > 0 then 2 else if s.main == Reloading then 3 else 0
  }

  predicate Cyclic(marks: seq<Mark>, phase: nat) {
    forall i :: 0 <= i < |marks| ==> marks[i] == Cycle(phase + i)
  }

  lemma StepMarks(s: State, e: Event)
    requires Inv(s) && s.main != Exited && Enabled(s, e)
    ensures Cyclic(MarkOf(s, e), Phase(s))
    ensures Step(s, e).main != Exited ==> Phase(Step(s, e)) == (Phase(s) + |MarkOf(s, e)|) % 4
    ensures |MarkOf(s, e)| <= 1
  {
  }

  lemma CycleRepeats(p: nat, q: nat)
    requires p % 4 == q % 4
    ensures Cycle(p) == Cycle(q)
  {
  }

  lemma CyclicAppend(a: seq<Mark>, b: seq<Mark>, phase: nat, next: nat)
    requires Cyclic(a, phase) && Cyclic(b, next) && next % 4 == (phase + |a|) % 4
    ensures Cyclic(a + b, phase)
  {
    hide Cycle;
    forall i | |a| <= i < |a + b| ensures (a + b)[i] == Cycle(phase + i) {
      assert (a + b)[i] == b[i - |a|];
      assert (next + (i - |a|)) % 4 == (phase + i) % 4;
      CycleRepeats(next + (i - |a|), phase + i);
    }
  }

  lemma {:induction false} ExitedHasNoMarks(s: State, events: seq<Event>)
    requires s.main == Exited && IsRun(s, events)
    ensures Marks(s, events) == []
    decreases |events|
  {
    if events != [] { ExitedHasNoMarks(Step(s, events[0]), events[1..]); }
  }

  /** Accepting, sending, starting and ending strictly alternate: reloads never overlap, and none is skipped or doubled. */
  lemma {:induction false} ReloadsAlternate(s: State, events: seq<Event>)
    requires Inv(s) && s.main != Exited && IsRun(s, events)
    ensures Cyclic(Marks(s, events), Phase(s))
    decreases |events|
  {
    if events != [] {
      var e, t, rest := events[0], Step(s, events[0]), events[1..];
      StepKeepsInv(s, e);
      StepMarks(s, e);
      if t.main == Exited {
        ExitedHasNoMarks(t, rest);
        assert MarkOf(s, e) + [] == MarkOf(s, e);
      } else {
        ReloadsAlternate(t, rest);
        CyclicAppend(MarkOf(s, e), Marks(t, rest), Phase(s), Phase(t));
      }
    }
  }

  /******* Progress *******/

  /** The steps that lead from a phase back to an idle handshake when the reload succeeds. */
  function Remaining(phase: nat): seq<Event> {
    match phase
    case 1 => [Send, Receive, Finish(true)]
    case 2 => [Receive, Finish(true)]
    case 3 => [Finish(true)]
    case _ => []
  }

  /** The handshake never gets stuck: the remaining steps are enabled, and end with the flag down and all accepted served. */
  lemma AcceptedIsServed(s: State)
    requires Inv(s) && s.main != Exited
    ensures IsRun(s, Remaining(Phase(s)))
    ensures var t := After(s, Remaining(Phase(s)));
      !t.flag && t.completed == t.accepted == s.accepted && t.main == Selecting && t.dropped == s.dropped
  {
    hide IsRun, After;
    match Phase(s) {
      case 1 =>
        var t := Step(s, Send);
        var u := Step(t, Receive);
        RunOne(u, Finish(true));
        RunMore(t, Receive, [Finish(true)]);
        assert [Receive] + [Finish(true)] == [Receive, Finish(true)];
        RunMore(s, Send, [Receive, Finish(true)]);
        assert [Send] + [Receive, Finish(true)] == Remaining(1);
      case 2 =>
        RunOne(Step(s, Receive), Finish(true));
        RunMore(s, Receive, [Finish(true)]);
        assert [Receive] + [Finish(true)] == Remaining(2);
      case 3 => RunOne(s, Finish(true));
      case _ => RunNone(s);
    }
  }

  lemma RunNone(s: State)
    ensures IsRun(s, []) && After(s, []) == s
  {
  }

  lemma RunOne(s: State, e: Event)
    requires Enabled(s, e)
    ensures IsRun(s, [e]) && After(s, [e]) == Step(s, e)
  {
    RunMore(s, e, []);
  }

  lemma RunMore(s: State, e: Event, rest: seq<Event>)
    requires Enabled(s, e) && IsRun(Step(s, e), rest)
    ensures IsRun(s, [e] + rest) && After(s, [e] + rest) == After(Step(s, e), rest)
  {
    assert ([e] + rest)[1..] == rest;
  }

  /** A hangup is turned away exactly when a reload is under way; an idle main loop accepts it. */
  lemma DroppedOnlyWhileReloading(s: State)
    requires Inv(s) && Enabled(s, Swap)
    ensures Step(s, Swap).dropped == s.dropped + 1 <==> s.tokens == 1 || s.main == Reloading
    ensures Step(s, Swap).accepted == s.accepted + 1 <==> s.tokens == 0 && s.main == Selecting
  {
  }

  /******* Signals and shutdown *******/

  /** A signal that waits is not replaced by a later one; it goes only when the handler takes it. */
  lemma PendingSignalStays(s: State, e: Event)
    requires Enabled(s, e) && s.inbox.Some?
    ensures Step(s, e).inbox == if e == Take then None else s.inbox
    ensures e == Take ==> (Step(s, e).cancelled <==> s.cancelled || s.inbox == Some(Terminate))
    ensures e == Take ==> (Step(s, e).handler == Holding <==> s.inbox == Some(Hangup))
  {
  }

  /** The handler returns exactly when it has asked for a shutdown, which is never taken back. */
  lemma {:induction false} ShutdownStays(s: State, events: seq<Event>)
    requires (s.cancelled <==> s.handler == Returned) && IsRun(s, events)
    ensures After(s, events).cancelled <==> After(s, events).handler == Returned
    ensures s.cancelled ==> After(s, events).cancelled
    ensures s.main == Exited ==> After(s, events).main == Exited
    decreases |events|
  {
    if events != [] { ShutdownStays(Step(s, events[0]), events[1..]); }
  }

  /** A shutdown that was asked for can be seen as soon as no reload runs, and ends the program. */
  lemma ShutdownIsSeen(s: State)
    requires s.cancelled && s.main != Exited
    ensures s.main == Selecting ==> Enabled(s, SeeShutdown) && Step(s, SeeShutdown).main == Exited
    ensures s.main == Reloading ==>
      Enabled(s, Finish(true)) && Step(s, Finish(true)).main == Selecting && Step(s, Finish(true)).cancelled
  {
  }

  /** A reload that fails ends the program; one that succeeds makes room for the next. */
  lemma ReloadEnds(s: State, ok: bool)
    requires Enabled(s, Finish(ok))
    ensures if ok then Step(s, Finish(ok)) == s.(flag := false, main := Selecting, completed := s.completed + 1)
            else Step(s, Finish(ok)).main == Exited && Step(s, Finish(ok)).failed == s.failed + 1 && Step(s, Finish(ok)).flag == s.flag
  {
  }
}
