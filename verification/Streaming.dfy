/**
 How a streamed response is settled: the generator that relays chunks to the client calls exactly
 one of its four callbacks, whatever ends the stream.

 One run is described by a script: the chunks with the usage they carry, how the upstream stream
 ends after them, when the client closes the generator, if ever, and how the first callback behaves.
 */
module Settlement {
  import opened Options

  /******* Usage *******/

  /** Gateway usage carries explicit cache counts; plain usage may carry a cached-token detail. */
  datatype Usage =
    | Plain(prompt: int, completion: int, total: int, cached: Option<int>)
    | Gateway(prompt: int, completion: int, total: int, cached: Option<int>, cacheRead: int, cacheWrite: int)

  function CacheReadOf(u: Usage): int {
    if u.Gateway? then u.cacheRead else if u.cached.Some? then u.cached.value else 0
  }

  function CacheWriteOf(u: Usage): int {
    if u.Gateway? then u.cacheWrite else 0
  }

  /** The first operand unless it is zero. */
  function Or(a: int, b: int): int { if a != 0 then a else b }

  function MergeUsage(current: Usage, update: Usage): Usage {
    Gateway(
      Or(update.prompt, current.prompt), Or(update.completion, current.completion), Or(update.total, current.total),
      None, Or(CacheReadOf(update), CacheReadOf(current)), Or(CacheWriteOf(update), CacheWriteOf(current)))
  }

  const NO_USAGE := Plain(0, 0, 0, None)

  /** The usage accumulated over a list of chunks. */
  function Merged(chunks: seq<Option<Usage>>): Usage {
    if chunks == [] then NO_USAGE else
    var before, last := Merged(chunks[..|chunks| - 1]), chunks[|chunks| - 1];
    if last.Some? then MergeUsage(before, last.value) else before
  }

  predicate AnyUsage(chunks: seq<Option<Usage>>) {
    exists i :: 0 <= i < |chunks| && chunks[i].Some?
  }

  /** The last non-zero value of a field over the chunks that carry usage, 0 when there is none. */
  ghost function LastNonZero(chunks: seq<Option<Usage>>, field: Usage -> int): int {
    if chunks == [] then 0 else
    var last := chunks[|chunks| - 1];
    if last.Some? && field(last.value) != 0 then field(last.value) else LastNonZero(chunks[..|chunks| - 1], field)
  }

  /** Each merged field is the last non-zero value seen for it. */
  lemma {:induction false} MergedIsLastNonZero(chunks: seq<Option<Usage>>)
    ensures Merged(chunks).prompt == LastNonZero(chunks, (u: Usage) => u.prompt)
    ensures Merged(chunks).completion == LastNonZero(chunks, (u: Usage) => u.completion)
    ensures Merged(chunks).total == LastNonZero(chunks, (u: Usage) => u.total)
    ensures CacheReadOf(Merged(chunks)) ==
            LastNonZero(chunks, (v: Usage) => if v.Gateway? then v.cacheRead else if v.cached.Some? then v.cached.value else 0)
    ensures CacheWriteOf(Merged(chunks)) == LastNonZero(chunks, (v: Usage) => if v.Gateway? then v.cacheWrite else 0)
  {
    if chunks != [] {
      MergedIsLastNonZero(chunks[..|chunks| - 1]);
    }
  }

  /******* Scripts *******/

  /** Fails covers any ordinary exception of the stream, of extract_usage or of format_chunk. */
  datatype Ending = Ends | Fails(message: string) | Cancelled

  /** Raises is an ordinary exception; Cancels is one that ordinary handlers do not catch. */
  datatype CallbackResult = Returns | Raises | Cancels

  /** When the client closes the generator: never, before its first step, or while it is suspended at a yield. */
  datatype Closing = Never | BeforeStart | AtYield(k: nat)

  /** `callback` is how the first callback of the run ends. */
  datatype Script = Script(chunks: seq<Option<Usage>>, ending: Ending, closing: Closing, callback: CallbackResult)

  datatype Setup = Setup(yieldDoneOnError: bool, hasNoUsage: bool, hasIncomplete: bool)

  datatype Callback = OnComplete(usage: Usage) | OnNoUsage | OnError(message: string) | OnIncomplete

  datatype Item = ChunkItem(index: nat) | DoneMarker | ErrorPayload

  /******* Specification *******/

  function ErrorItems(o: Setup): seq<Item> {
    if o.yieldDoneOnError then [ErrorPayload, DoneMarker] else [ErrorPayload]
  }

  /** Everything the generator would yield if the client never closed it. */
  function AllItems(o: Setup, s: Script): seq<Item> {
    seq(|s.chunks|, i requires 0 <= i < |s.chunks| => ChunkItem(i)) +
    match s.ending
    case Ends => [DoneMarker]
    case Fails(_) => ErrorItems(o)
    case Cancelled => []
  }

  /** Closed while it is suspended at one of its yields. */
  predicate ClosedBy(o: Setup, s: Script) {
    s.closing.AtYield? && s.closing.k < |AllItems(o, s)|
  }

  function Emitted(o: Setup, s: Script): seq<Item> {
    if s.closing.BeforeStart? then []
    else if ClosedBy(o, s) then AllItems(o, s)[..s.closing.k + 1]
    else AllItems(o, s)
  }

  /** The one callback that accounts for the run. */
  function Settles(o: Setup, s: Script): Callback {
    if ClosedBy(o, s) then OnIncomplete else
    match s.ending
    case Ends => if AnyUsage(s.chunks) then OnComplete(Merged(s.chunks)) else OnNoUsage
    case Fails(message) => OnError(message)
    case Cancelled => OnIncomplete
  }

  predicate Provided(o: Setup, c: Callback) {
    match c
    case OnComplete(_) => true
    case OnNoUsage => o.hasNoUsage
    case OnError(_) => true
    case OnIncomplete => o.hasIncomplete
  }

  /** A cancelled stream whose on_incomplete is itself cancelled. */
  predicate CancelledTwice(o: Setup, s: Script) {
    s.ending.Cancelled? && !ClosedBy(o, s) && o.hasIncomplete && s.callback.Cancels?
  }

  /** A generator that is closed before its first step runs none of its body, the finally clause included. */
  function Calls(o: Setup, s: Script): seq<Callback> {
    if s.closing.BeforeStart? then []
    else if !Provided(o, Settles(o, s)) then []
    else if CancelledTwice(o, s) then [OnIncomplete, OnIncomplete]
    else [Settles(o, s)]
  }

  /******* The generator *******/

  /** How the body of the try statement is left. */
  datatype Left = Completed | ByCancel | ByException(message: string) | ByClose

  method StreamingGenerator(o: Setup, s: Script) returns (out: seq<Item>, calls: seq<Callback>)
    ensures out == Emitted(o, s)
    ensures calls == Calls(o, s)
  {
    out, calls := [], [];
    if s.closing.BeforeStart? { return; }
    var usage, hasUsage, settled := NO_USAGE, false, false;
    var left := Completed;

    var i := 0;
    while i < |s.chunks| && left == Completed
      invariant 0 <= i <= |s.chunks| && left in {Completed, ByClose}
      invariant out == AllItems(o, s)[..i] && |out| == i
      invariant usage == Merged(s.chunks[..i]) && hasUsage == AnyUsage(s.chunks[..i])
      invariant left == Completed ==> !s.closing.AtYield? || s.closing.k >= i
      invariant left == ByClose ==> s.closing.AtYield? && s.closing.k == i - 1
    {
      UsageSnoc(s.chunks, i);
      if s.chunks[i].Some? {
        usage := MergeUsage(usage, s.chunks[i].value);
        hasUsage := true;
      }
      out := out + [ChunkItem(i)];
      if s.closing == AtYield(i) { left := ByClose; }
      i := i + 1;
    }
    if left == Completed {
      assert s.chunks[..i] == s.chunks;
      match s.ending {
        case Fails(message) => left := ByException(message);
        case Cancelled => left := ByCancel;
        case Ends =>
          out := out + [DoneMarker];
          if s.closing == AtYield(i) {
            left := ByClose;
          } else {
            settled := true;
            if hasUsage {
              calls := [OnComplete(usage)];
              if s.callback.Cancels? { left := ByCancel; }
            } else if o.hasNoUsage {
              calls := [OnNoUsage];
              if s.callback.Cancels? { left := ByCancel; }
            }
          }
      }
    }

    // The handlers of the try statement.
    match left {
      case ByCancel =>
        var suppressed := true;
        if !settled && o.hasIncomplete {
          calls := calls + [OnIncomplete];
          suppressed := !s.callback.Cancels?;
        }
        if suppressed { settled := true; }
      case ByException(message) =>
        out := out + [ErrorPayload];
        var closed := s.closing == AtYield(i);
        if !closed && o.yieldDoneOnError {
          out := out + [DoneMarker];
          closed := s.closing == AtYield(i + 1);
        }
        if !closed {
          settled := true;
          calls := [OnError(message)];
        }
      case Completed =>
      case ByClose =>
    }

    // The finally clause.
    if !settled && o.hasIncomplete {
      calls := calls + [OnIncomplete];
    }
  }

  lemma UsageSnoc(chunks: seq<Option<Usage>>, i: nat)
    requires i < |chunks|
    ensures AnyUsage(chunks[..i + 1]) == (AnyUsage(chunks[..i]) || chunks[i].Some?)
    ensures Merged(chunks[..i + 1]) ==
            if chunks[i].Some? then MergeUsage(Merged(chunks[..i]), chunks[i].value) else Merged(chunks[..i])
  {
    assert chunks[..i + 1][..i] == chunks[..i];
    if AnyUsage(chunks[..i + 1]) && !chunks[i].Some? {
      var j :| 0 <= j < i + 1 && chunks[..i + 1][j].Some?;
      assert chunks[..i][j].Some?;
    }
    if AnyUsage(chunks[..i]) {
      var j :| 0 <= j < i && chunks[..i][j].Some?;
      assert chunks[..i + 1][j].Some?;
    }
    if chunks[i].Some? { assert chunks[..i + 1][i].Some?; }
  }

  /******* Main results *******/

  /**
   With all four callbacks given, a run settles by exactly one call exactly when the generator was
   started and on_incomplete is not itself cancelled while it handles a cancellation; then it is
   called a second time. Only a generator that was never started settles by no call.
   */
  lemma SettlesExactlyOnce(o: Setup, s: Script)
    requires o.hasNoUsage && o.hasIncomplete
    ensures |Calls(o, s)| == 1 <==>
            !s.closing.BeforeStart? && !(s.ending.Cancelled? && !ClosedBy(o, s) && s.callback.Cancels?)
    ensures Calls(o, s) == [] <==> s.closing.BeforeStart?
    ensures forall c :: c in Calls(o, s) ==> c == Settles(o, s)
  {
  }

  /** Nothing is called exactly when the generator was never started, or the callback for the outcome is missing. */
  lemma UnsettledOnlyWithoutCallback(o: Setup, s: Script)
    ensures Calls(o, s) == [] <==>
            || s.closing.BeforeStart?
            || (!o.hasIncomplete && (ClosedBy(o, s) || s.ending.Cancelled?))
            || (!o.hasNoUsage && !ClosedBy(o, s) && s.ending.Ends? && !AnyUsage(s.chunks))
  {
  }

  /** Whoever sees a completed stream is billed the last non-zero value of each usage field. */
  lemma CompletionReportsLastValues(o: Setup, s: Script)
    requires s.ending.Ends? && !s.closing.BeforeStart? && !ClosedBy(o, s) && AnyUsage(s.chunks)
    ensures Calls(o, s) == [OnComplete(Merged(s.chunks))]
    ensures
      var u := Merged(s.chunks);
      && u.Gateway?
      && u.prompt == LastNonZero(s.chunks, (v: Usage) => v.prompt)
      && u.completion == LastNonZero(s.chunks, (v: Usage) => v.completion)
      && u.total == LastNonZero(s.chunks, (v: Usage) => v.total)
      && u.cacheRead == LastNonZero(s.chunks, (v: Usage) => if v.Gateway? then v.cacheRead else if v.cached.Some? then v.cached.value else 0)
      && u.cacheWrite == LastNonZero(s.chunks, (v: Usage) => if v.Gateway? then v.cacheWrite else 0)
  {
    MergedIsLastNonZero(s.chunks);
    MergedIsGateway(s.chunks);
  }

  /******* The same in terms of the script alone *******/

  /** How often the generator yields when nobody closes it. */
  ghost function Yields(o: Setup, s: Script): nat {
    |s.chunks| + if s.ending.Ends? then 1 else if s.ending.Cancelled? then 0 else if o.yieldDoneOnError then 2 else 1
  }

  /** Started, and not closed at any of its yields. */
  ghost predicate RunsThrough(o: Setup, s: Script) {
    !s.closing.BeforeStart? && !(s.closing.AtYield? && s.closing.k < Yields(o, s))
  }

  /** Which callback is called, and how often: each of the four exactly in its own case. */
  lemma CalledIff(o: Setup, s: Script)
    ensures forall message :: OnError(message) in Calls(o, s) <==> RunsThrough(o, s) && s.ending == Fails(message)
    ensures forall usage :: OnComplete(usage) in Calls(o, s) <==>
              RunsThrough(o, s) && s.ending == Ends && usage == Merged(s.chunks) && exists i :: 0 <= i < |s.chunks| && s.chunks[i].Some?
    ensures OnNoUsage in Calls(o, s) <==>
              RunsThrough(o, s) && s.ending == Ends && o.hasNoUsage && forall i :: 0 <= i < |s.chunks| ==> s.chunks[i].None?
    ensures OnIncomplete in Calls(o, s) <==>
              o.hasIncomplete && !s.closing.BeforeStart? && (s.ending == Cancelled || !RunsThrough(o, s))
    ensures |Calls(o, s)| == 2 <==> RunsThrough(o, s) && s.ending == Cancelled && o.hasIncomplete && s.callback == Cancels
    ensures |Calls(o, s)| <= 2
  {
    hide Merged;
    assert ClosedBy(o, s) <==> !s.closing.BeforeStart? && !RunsThrough(o, s);
  }

  /** What the client receives: every chunk in order, then the end of the stream or of the error, up to where it closes. */
  lemma ReceivedIs(o: Setup, s: Script)
    ensures |Emitted(o, s)| == if s.closing.BeforeStart? then 0 else if RunsThrough(o, s) then Yields(o, s) else s.closing.k + 1
    ensures forall i :: 0 <= i < |Emitted(o, s)| ==>
              Emitted(o, s)[i] ==
              if i < |s.chunks| then ChunkItem(i)
              else if i == |s.chunks| && s.ending != Ends then ErrorPayload
              else DoneMarker
  {
  }

  ghost function FieldAt(chunks: seq<Option<Usage>>, i: nat, field: Usage -> int): int
    requires i < |chunks|
  {
    if chunks[i].Some? then field(chunks[i].value) else 0
  }

  /** The merged value is non-zero at some chunk and at no later one, or it is zero and so at all chunks. */
  lemma {:induction false} LastNonZeroIsLast(chunks: seq<Option<Usage>>, field: Usage -> int) returns (i: nat)
    ensures i <= |chunks| && forall j :: i < j < |chunks| ==> FieldAt(chunks, j, field) == 0
    ensures i < |chunks| ==> LastNonZero(chunks, field) == FieldAt(chunks, i, field) != 0
    ensures i == |chunks| ==> LastNonZero(chunks, field) == 0 && forall j :: 0 <= j < |chunks| ==> FieldAt(chunks, j, field) == 0
  {
    if chunks == [] { return 0; }
    var n := |chunks| - 1;
    if FieldAt(chunks, n, field) != 0 { return n; }
    i := LastNonZeroIsLast(chunks[..n], field);
    forall j | 0 <= j < n ensures FieldAt(chunks, j, field) == FieldAt(chunks[..n], j, field) {}
    if i == n { i := n + 1; }
  }

  lemma {:induction false} MergedIsGateway(chunks: seq<Option<Usage>>)
    ensures AnyUsage(chunks) ==> Merged(chunks).Gateway?
  {
    if chunks != [] {
      UsageSnoc(chunks, |chunks| - 1);
      assert chunks[..|chunks| - 1 + 1] == chunks;
      MergedIsGateway(chunks[..|chunks| - 1]);
    }
  }
}

/** Trying upstream attempts in order until one delivers its first chunk. */
module Failover {
  import opened Options

  /******* Streams *******/

  /** Everything that a stream would deliver: chunks, then its end or an exception. */
  datatype Source<C, E> = Source(chunks: seq<C>, failure: Option<E>)

  /** An opened stream, read up to its cursor. */
  datatype Reader<C, E> = Reader(source: Source<C, E>, cursor: nat)

  datatype Pull<C, E> = Chunk(chunk: C) | Finished | Broken(exc: E)

  /** Asks an opened stream for its next chunk; a delivered chunk is gone from the stream. */
  function Next<C, E>(r: Reader<C, E>): (Pull<C, E>, Reader<C, E>) {
    if r.cursor < |r.source.chunks| then (Chunk(r.source.chunks[r.cursor]), r.(cursor := r.cursor + 1))
    else if r.source.failure.Some? then (Broken(r.source.failure.value), r)
    else (Finished, r)
  }

  /** The iterator given to the caller: an empty one, or a first chunk that is held back and the stream it came from. */
  datatype Relay<C, E> = Empty | Stitched(first: C, remaining: Reader<C, E>)

  /** Yields the held chunk, and then whatever the stream still delivers. */
  method Drain<C, E>(relay: Relay<C, E>) returns (out: seq<C>, failure: Option<E>)
    ensures Source(out, failure) == Delivered(relay)
  {
    out, failure := [], None;
    if relay.Empty? { return; }
    out := [relay.first];
    var r := relay.remaining;
    while true
      invariant r.source == relay.remaining.source
      invariant ReadAll(relay.remaining, [relay.first]) == ReadAll(r, out)
      decreases |r.source.chunks| - r.cursor
    {
      var (pull, rest) := Next(r);
      match pull
      case Chunk(chunk) =>
        out := out + [chunk];
        r := rest;
      case Broken(exc) => return out, Some(exc);
      case Finished => return out, None;
    }
  }

  /** Pulling until the stream ends, behind what has been delivered before. */
  function ReadAll<C, E>(r: Reader<C, E>, before: seq<C>): Source<C, E>
    decreases |r.source.chunks| - r.cursor
  {
    match Next(r)
    case (Chunk(chunk), rest) => ReadAll(rest, before + [chunk])
    case (Broken(exc), _) => Source(before, Some(exc))
    case (Finished, _) => Source(before, None)
  }

  function Delivered<C, E>(relay: Relay<C, E>): Source<C, E> {
    match relay
    case Empty => Source([], None)
    case Stitched(first, remaining) => ReadAll(remaining, [first])
  }

  lemma {:induction false} ReadAllReadsOn<C, E>(r: Reader<C, E>, before: seq<C>)
    requires r.cursor <= |r.source.chunks| && before == r.source.chunks[..r.cursor]
    ensures ReadAll(r, before) == r.source
    decreases |r.source.chunks| - r.cursor
  {
    if r.cursor < |r.source.chunks| {
      ReadAllReadsOn(r.(cursor := r.cursor + 1), before + [r.source.chunks[r.cursor]]);
    } else {
      assert r.source.chunks[..r.cursor] == r.source.chunks;
    }
  }

  /******* One attempt *******/

  /** Building the stream fails, or it opens; `timeout` is the exception when its first chunk takes too long. */
  datatype Opening<C, E> = BuildFails(exc: E) | Opens(source: Source<C, E>, timeout: Option<E>)

  /** `reportRaises`: the exception of the caller's failure callback, when that itself fails. */
  datatype Attempt<A, C, E> = Attempt(id: A, opening: Opening<C, E>, reportRaises: Option<E>)

  /** The caller's classification of an exception may itself raise. */
  datatype Class<E> = Class(retryable: bool, name: string) | ClassifierRaises(exc: E)

  /** `isTimeout` tells the time-out exceptions, which a stream may also raise on its own. */
  datatype Policy<!E> = Policy(classify: E -> Class<E>, isTimeout: E -> bool)

  datatype Report<A, E> = Report(attempt: A, errorClass: string, exc: E)

  datatype Result<A, C, E> = Committed(attempt: A, relay: Relay<C, E>) | Raised(exc: E) | NoAttempts

  const TIMEOUT_CLASS := "timeout"

  /** What waiting for the first chunk gives. */
  datatype First<C, E> = Yields(chunk: C, remaining: Reader<C, E>) | EndsEmpty | TimesOut(exc: E) | Raises(exc: E)

  function Wait<C, E>(source: Source<C, E>, timeout: Option<E>, policy: Policy<E>): First<C, E> {
    if timeout.Some? then TimesOut(timeout.value)
    else match Next(Reader(source, 0))
      case (Chunk(chunk), rest) => Yields(chunk, rest)
      case (Finished, _) => EndsEmpty
      case (Broken(exc), _) => if policy.isTimeout(exc) then TimesOut(exc) else Raises(exc)
  }

  /**
   Draining the held first chunk and the stream it was taken from gives the whole original stream:
   nothing lost, doubled or reordered, and the same end.
   */
  lemma StitchedIsWhole<C, E>(source: Source<C, E>, timeout: Option<E>, policy: Policy<E>)
    ensures var first := Wait(source, timeout, policy);
      && (first.Yields? ==> Delivered(Stitched(first.chunk, first.remaining)) == source)
      && (first.EndsEmpty? ==> Delivered(Empty) == source)
  {
    if timeout.None? && source.chunks != [] { ReadAllReadsOn(Reader(source, 1), [source.chunks[0]]); }
  }

  /** How an attempt goes wrong, if it does. */
  datatype Trouble<E> = Fine | Slow(exc: E) | Fails(exc: E)

  function TroubleOf<A, C, E>(a: Attempt<A, C, E>, policy: Policy<E>): Trouble<E> {
    match a.opening
    case BuildFails(exc) => Fails(exc)
    case Opens(source, timeout) =>
      match Wait(source, timeout, policy)
      case TimesOut(exc) => Slow(exc)
      case Raises(exc) => Fails(exc)
      case _ => Fine
  }

  /** The attempt delivers a first chunk in time, or ends in time without one. */
  predicate Commits<A, C, E>(a: Attempt<A, C, E>, policy: Policy<E>) {
    TroubleOf(a, policy).Fine?
  }

  function ClassOf<E>(t: Trouble<E>, policy: Policy<E>): Class<E>
    requires !t.Fine?
  {
    if t.Slow? then Class(true, TIMEOUT_CLASS) else policy.classify(t.exc)
  }

  /** The failure is reported unless the classification raises first. */
  function Reports<A, C, E>(a: Attempt<A, C, E>, policy: Policy<E>): seq<Report<A, E>> {
    var t := TroubleOf(a, policy);
    if t.Fine? then []
    else match ClassOf(t, policy)
      case ClassifierRaises(_) => []
      case Class(_, name) => [Report(a.id, name, t.exc)]
  }

  /** Failed, classified and reported without trouble, and the next attempt may be tried. */
  predicate Skips<A, C, E>(a: Attempt<A, C, E>, policy: Policy<E>) {
    var t := TroubleOf(a, policy);
    !t.Fine? && ClassOf(t, policy).Class? && a.reportRaises.None? && ClassOf(t, policy).retryable
  }

  /** Opened, and not what the loop commits to. */
  predicate Abandons<A, C, E>(a: Attempt<A, C, E>, policy: Policy<E>) {
    a.opening.Opens? && !Commits(a, policy)
  }

  /** Opened, abandoned, and left open because the classification or the report raised. */
  predicate Leaks<A, C, E>(a: Attempt<A, C, E>, policy: Policy<E>) {
    var t := TroubleOf(a, policy);
    a.opening.Opens? && !t.Fine? && (ClassOf(t, policy).ClassifierRaises? || a.reportRaises.Some?)
  }

  /** Opened, abandoned, and closed by the loop. */
  predicate ClosedByLoop<A, C, E>(a: Attempt<A, C, E>, policy: Policy<E>) {
    var t := TroubleOf(a, policy);
    a.opening.Opens? && !t.Fine? && ClassOf(t, policy).Class? && a.reportRaises.None?
  }

  /** What the caller gets when the loop ends with this attempt. */
  ghost predicate EndsWith<A, C, E>(a: Attempt<A, C, E>, policy: Policy<E>, r: Result<A, C, E>) {
    var t := TroubleOf(a, policy);
    if t.Fine? then r.Committed? && r.attempt == a.id && Delivered(r.relay) == a.opening.source
    else match ClassOf(t, policy)
      case ClassifierRaises(exc) => r == Raised(exc)
      case Class(_, _) => r == Raised(if a.reportRaises.Some? then a.reportRaises.value else t.exc)
  }

  /** How one turn of the loop goes on: return, continue with the next attempt, or raise. */
  datatype Turn<A, C, E> = Return(result: Result<A, C, E>) | Continue(exc: E) | Raise(exc: E)

  method TryAttempt<A, C, E>(a: Attempt<A, C, E>, policy: Policy<E>)
    returns (turn: Turn<A, C, E>, reports: seq<Report<A, E>>, closed: bool)
    ensures turn.Return? <==> Commits(a, policy)
    ensures turn.Continue? <==> Skips(a, policy)
    ensures turn.Return? ==> EndsWith(a, policy, turn.result)
    ensures !turn.Return? ==> EndsWith(a, policy, Raised(turn.exc))
    ensures reports == Reports(a, policy)
    ensures closed == ClosedByLoop(a, policy)
  {
    reports, closed := [], false;
    match a.opening {
      case BuildFails(exc) =>
        match policy.classify(exc) {
          case ClassifierRaises(raised) => turn := Raise(raised);
          case Class(retryable, errorClass) =>
            reports := [Report(a.id, errorClass, exc)];
            if a.reportRaises.Some? { return Raise(a.reportRaises.value), reports, closed; }
            turn := if retryable then Continue(exc) else Raise(exc);
        }
      case Opens(source, timeout) =>
        match Wait(source, timeout, policy) {
          case Yields(chunk, remaining) =>
            StitchedIsWhole(source, timeout, policy);
            turn := Return(Committed(a.id, Stitched(chunk, remaining)));
          case EndsEmpty =>
            StitchedIsWhole(source, timeout, policy);
            turn := Return(Committed(a.id, Empty));
          case TimesOut(exc) =>
            reports := [Report(a.id, TIMEOUT_CLASS, exc)];
            if a.reportRaises.Some? { return Raise(a.reportRaises.value), reports, closed; }
            closed := true;
            turn := Continue(exc);
          case Raises(exc) =>
            match policy.classify(exc) {
              case ClassifierRaises(raised) => turn := Raise(raised);
              case Class(retryable, errorClass) =>
                reports := [Report(a.id, errorClass, exc)];
                if a.reportRaises.Some? { return Raise(a.reportRaises.value), reports, closed; }
                closed := true;
                turn := if retryable then Continue(exc) else Raise(exc);
            }
        }
    }
  }

  /******* The loop *******/

  /** Every attempt before position `i` is skipped, so this one is built. */
  ghost predicate Reached<A, C, E>(attempts: seq<Attempt<A, C, E>>, policy: Policy<E>, i: nat) {
    i < |attempts| && forall j :: 0 <= j < i ==> Skips(attempts[j], policy)
  }

  function AllReports<A, C, E>(attempts: seq<Attempt<A, C, E>>, policy: Policy<E>): seq<Report<A, E>> {
    if attempts == [] then []
    else AllReports(attempts[..|attempts| - 1], policy) + Reports(attempts[|attempts| - 1], policy)
  }

  /**
   `built` counts the attempts whose stream was requested, `reported` lists the failure callback's
   calls in order, and `closed` holds the positions of the streams that were closed.
   */
  method IterateStreamingAttempts<A, C, E>(attempts: seq<Attempt<A, C, E>>, policy: Policy<E>)
    returns (r: Result<A, C, E>, built: nat, reported: seq<Report<A, E>>, closed: set<nat>)
    // The loop ends at the first attempt that is not skipped, or at the last, and builds no later one.
    ensures built <= |attempts| && forall i: nat :: i < built <==> Reached(attempts, policy, i)
    ensures r.NoAttempts? <==> attempts == []
    // The result is that attempt's: a commitment delivers its whole stream, nothing lost, doubled or reordered.
    ensures attempts != [] ==> built > 0 && EndsWith(attempts[built - 1], policy, r)
    // Every failed attempt that was built and classified is reported once, in order.
    ensures reported == AllReports(attempts[..built], policy)
    ensures forall i: nat :: i in closed <==> i < built && ClosedByLoop(attempts[i], policy)
    // Every stream that was opened and abandoned is closed, unless a classification or a report raised about one.
    ensures (forall i: nat :: i < built && Abandons(attempts[i], policy) ==> i in closed)
            <==> !(exists i: nat :: Reached(attempts, policy, i) && Leaks(attempts[i], policy))
  {
    hide Reports, ClosedByLoop, Skips, EndsWith, Commits, Leaks, Abandons, ClosedAre, Reached;
    reported, closed, built := [], {}, 0;
    var lastException: Option<E> := None;
    NothingClosed(attempts, policy);
    for i := 0 to |attempts|
      invariant built == i
      invariant forall j :: 0 <= j < i ==> Skips(attempts[j], policy)
      invariant reported == AllReports(attempts[..i], policy)
      invariant ClosedAre(attempts, policy, i, closed)
      invariant lastException.Some? <==> i > 0
      invariant i > 0 ==> EndsWith(attempts[i - 1], policy, Raised(lastException.value))
    {
      assert attempts[..i + 1][..i] == attempts[..i];
      var turn, reports, closes := TryAttempt(attempts[i], policy);
      OneMoreClosed(attempts, policy, i, closed, closes);
      built := built + 1;
      reported := reported + reports;
      if closes { closed := closed + {i}; }
      match turn {
        case Return(result) =>
          CommitsIsNoSkip(attempts[i], policy);
          LoopEnds(attempts, policy, built, closed);
          return result, built, reported, closed;
        case Raise(exc) =>
          LoopEnds(attempts, policy, built, closed);
          return Raised(exc), built, reported, closed;
        case Continue(exc) => lastException := Some(exc);
      }
    }
    assert attempts[..|attempts|] == attempts;
    LoopEnds(attempts, policy, built, closed);
    r := if lastException.Some? then Raised(lastException.value) else NoAttempts;
  }

  /** Of the first `n` attempts, exactly those that the loop closes are closed. */
  ghost predicate ClosedAre<A, C, E>(attempts: seq<Attempt<A, C, E>>, policy: Policy<E>, n: nat, closed: set<nat>)
    requires n <= |attempts|
  {
    forall i: nat :: i in closed <==> i < n && ClosedByLoop(attempts[i], policy)
  }

  lemma NothingClosed<A, C, E>(attempts: seq<Attempt<A, C, E>>, policy: Policy<E>)
    ensures ClosedAre(attempts, policy, 0, {})
  {
  }

  lemma OneMoreClosed<A, C, E>(attempts: seq<Attempt<A, C, E>>, policy: Policy<E>, n: nat, closed: set<nat>, closes: bool)
    requires n < |attempts| && ClosedAre(attempts, policy, n, closed) && closes == ClosedByLoop(attempts[n], policy)
    ensures ClosedAre(attempts, policy, n + 1, if closes then closed + {n} else closed)
  {
    hide ClosedByLoop;
  }

  /** What holds when the loop ends after `built` attempts, all but the last of them skipped. */
  lemma LoopEnds<A, C, E>(attempts: seq<Attempt<A, C, E>>, policy: Policy<E>, built: nat, closed: set<nat>)
    requires built <= |attempts| && ClosedAre(attempts, policy, built, closed)
    requires forall j :: 0 <= j < built - 1 ==> Skips(attempts[j], policy)
    requires built == |attempts| || (built > 0 && !Skips(attempts[built - 1], policy))
    ensures forall i: nat :: i < built <==> Reached(attempts, policy, i)
    ensures forall i: nat :: i in closed <==> i < built && ClosedByLoop(attempts[i], policy)
    ensures (forall i: nat :: i < built && Abandons(attempts[i], policy) ==> i in closed)
            <==> !(exists i: nat :: Reached(attempts, policy, i) && Leaks(attempts[i], policy))
  {
    hide ClosedByLoop, Skips, Leaks, Abandons;
    forall i: nat ensures i < built <==> Reached(attempts, policy, i) {}
    hide Reached;
    AbandonedAreClosed(attempts, policy);
  }

  lemma CommitsIsNoSkip<A, C, E>(a: Attempt<A, C, E>, policy: Policy<E>)
    ensures Commits(a, policy) ==> !Skips(a, policy)
  {
  }

  /**
   Every opened but abandoned stream is closed exactly when no attempt that is reached opens, fails,
   and has its classification or its report raise.
   */
  lemma AbandonedAreClosed<A, C, E>(attempts: seq<Attempt<A, C, E>>, policy: Policy<E>)
    ensures (forall i: nat :: Reached(attempts, policy, i) && Abandons(attempts[i], policy) ==>
               ClosedByLoop(attempts[i], policy))
            <==> !(exists i: nat :: Reached(attempts, policy, i) && Leaks(attempts[i], policy))
  {
    hide Reached, TroubleOf;
    forall i: nat | Reached(attempts, policy, i)
      ensures i < |attempts|
      ensures Leaks(attempts[i], policy) <==> Abandons(attempts[i], policy) && !ClosedByLoop(attempts[i], policy)
    {
      ReachedWithin(attempts, policy, i);
    }
  }

  /******* The same in terms of the attempts alone *******/

  /** The exception that an attempt fails with before its first chunk, if it does. */
  ghost function FirstFailure<A, C, E>(a: Attempt<A, C, E>): Option<E> {
    if a.opening.BuildFails? then Some(a.opening.exc)
    else if a.opening.timeout.Some? then a.opening.timeout
    else if a.opening.source.chunks == [] then a.opening.source.failure
    else None
  }

  /** The attempt opens, and its first chunk times out: by the clock, or by an exception that says so. */
  ghost predicate TimesOutFirst<A, C, E>(a: Attempt<A, C, E>, policy: Policy<E>) {
    && a.opening.Opens? && FirstFailure(a).Some?
    && (a.opening.timeout.Some? || policy.isTimeout(FirstFailure(a).value))
  }

  /** The failure has a class: time-outs have their own, any other exception what the caller says, if that does not raise. */
  ghost function FailureClass<A, C, E>(a: Attempt<A, C, E>, policy: Policy<E>): Class<E>
    requires FirstFailure(a).Some?
  {
    if TimesOutFirst(a, policy) then Class(true, "timeout") else policy.classify(FirstFailure(a).value)
  }

  /** The next attempt is made after a time-out or a retryable failure, if reporting it does not raise. */
  lemma SkipsIff<A, C, E>(a: Attempt<A, C, E>, policy: Policy<E>)
    ensures Skips(a, policy) <==>
      && a.reportRaises.None? && FirstFailure(a).Some?
      && (TimesOutFirst(a, policy) ||
          (policy.classify(FirstFailure(a).value).Class? && policy.classify(FirstFailure(a).value).retryable))
  {
  }

  /** Reported after a time-out or a retryable failure before its first chunk. */
  ghost predicate MayRetry<A, C, E>(a: Attempt<A, C, E>, policy: Policy<E>) {
    && a.reportRaises.None? && FirstFailure(a).Some?
    && FailureClass(a, policy).Class? && FailureClass(a, policy).retryable
  }

  /** An attempt is built exactly when every earlier one timed out or failed retryably, and was reported. */
  lemma ReachedIff<A, C, E>(attempts: seq<Attempt<A, C, E>>, policy: Policy<E>, i: nat)
    ensures Reached(attempts, policy, i) <==> i < |attempts| && forall j :: 0 <= j < i ==> MayRetry(attempts[j], policy)
  {
    hide Skips, MayRetry;
    forall j | 0 <= j < |attempts| ensures Skips(attempts[j], policy) <==> MayRetry(attempts[j], policy) {
      SkipsIsRetry(attempts[j], policy);
    }
  }

  lemma SkipsIsRetry<A, C, E>(a: Attempt<A, C, E>, policy: Policy<E>)
    ensures Skips(a, policy) <==> MayRetry(a, policy)
  {
    SkipsIff(a, policy);
  }

  /** The loop commits to the first attempt that does not fail before its first chunk, if it gets there. */
  lemma CommitsToFirst<A, C, E>(attempts: seq<Attempt<A, C, E>>, policy: Policy<E>, i: nat, r: Result<A, C, E>)
    requires Reached(attempts, policy, i) && EndsWith(attempts[i], policy, r)
    ensures r.Committed? <==> FirstFailure(attempts[i]).None?
    ensures r.Committed? ==> r.attempt == attempts[i].id && Delivered(r.relay) == attempts[i].opening.source
    ensures forall j :: 0 <= j < i ==> FirstFailure(attempts[j]).Some?
  {
    hide Delivered, FirstFailure;
    EndsWithIs(attempts[i], policy, r);
    ReachedIff(attempts, policy, i);
  }

  /** An attempt is committed to exactly when it does not fail before its first chunk. */
  lemma CommitsIff<A, C, E>(a: Attempt<A, C, E>, policy: Policy<E>)
    ensures Commits(a, policy) <==> FirstFailure(a).None?
  {
  }

  /** A classified failure is reported once; time-outs as such. */
  lemma ReportsAre<A, C, E>(a: Attempt<A, C, E>, policy: Policy<E>)
    ensures FirstFailure(a).None? ==> Reports(a, policy) == []
    ensures TimesOutFirst(a, policy) ==> Reports(a, policy) == [Report(a.id, "timeout", FirstFailure(a).value)]
    ensures FirstFailure(a).Some? && !TimesOutFirst(a, policy) ==>
      match policy.classify(FirstFailure(a).value)
      case Class(_, name) => Reports(a, policy) == [Report(a.id, name, FirstFailure(a).value)]
      case ClassifierRaises(_) => Reports(a, policy) == []
  {
  }

  /** What the caller gets is the whole stream, or what was raised last: by the classification, the report or the attempt. */
  lemma EndsWithIs<A, C, E>(a: Attempt<A, C, E>, policy: Policy<E>, r: Result<A, C, E>)
    ensures EndsWith(a, policy, r) <==>
      if FirstFailure(a).None? then r.Committed? && r.attempt == a.id && Delivered(r.relay) == a.opening.source
      else if FailureClass(a, policy).ClassifierRaises? then r == Raised(FailureClass(a, policy).exc)
      else if a.reportRaises.Some? then r == Raised(a.reportRaises.value)
      else r == Raised(FirstFailure(a).value)
  {
    hide Delivered;
  }

  /** A stream is closed by the loop when it opened, failed, and was classified and reported without trouble. */
  lemma ClosedIff<A, C, E>(a: Attempt<A, C, E>, policy: Policy<E>)
    ensures ClosedByLoop(a, policy) <==>
      && a.opening.Opens? && FirstFailure(a).Some? && a.reportRaises.None?
      && (TimesOutFirst(a, policy) || policy.classify(FirstFailure(a).value).Class?)
  {
  }

  /** While reports succeed, the built attempts but the last have failed, and the reports tell how, in their order. */
  lemma {:induction false} ReportsInOrder<A, C, E>(attempts: seq<Attempt<A, C, E>>, policy: Policy<E>, n: nat)
    requires n <= |attempts| && forall j :: 0 <= j < n ==> Skips(attempts[j], policy)
    ensures |AllReports(attempts[..n], policy)| == n
    ensures forall j :: 0 <= j < n ==>
              && MayRetry(attempts[j], policy)
              && AllReports(attempts[..n], policy)[j] ==
                 Report(attempts[j].id, FailureClass(attempts[j], policy).name, FirstFailure(attempts[j]).value)
  {
    hide Reports, Skips;
    if n > 0 {
      ReportsInOrder(attempts, policy, n - 1);
      assert attempts[..n][..n - 1] == attempts[..n - 1];
      SkipsIsRetry(attempts[n - 1], policy);
      ReportsAre(attempts[n - 1], policy);
    }
  }

  lemma ReachedWithin<A, C, E>(attempts: seq<Attempt<A, C, E>>, policy: Policy<E>, i: nat)
    requires Reached(attempts, policy, i)
    ensures i < |attempts|
  {
  }

  /** A leak can happen only where the loop ends: it is never followed by another attempt. */
  lemma LeakEndsTheLoop<A, C, E>(attempts: seq<Attempt<A, C, E>>, policy: Policy<E>, i: nat, j: nat)
    requires Reached(attempts, policy, i) && Leaks(attempts[i], policy) && i < j
    ensures !Reached(attempts, policy, j)
  {
    assert !Skips(attempts[i], policy);
  }
}
