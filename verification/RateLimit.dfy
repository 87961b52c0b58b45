/**
 The per-user sliding-window rate limiter of the gateway.

 The implementation keeps one deque of timestamps per user, drops expired entries lazily and
 sweeps stale users every CLEANUP_INTERVAL calls. The specification keeps the whole history of
 accepted requests and only counts. Time is a real number of seconds.
 */
module RateLimit {

  const WINDOW_SEC: real := 60.0
  const CLEANUP_INTERVAL: nat := 1000

  type UserId = string

  datatype RateLimitInfo = RateLimitInfo(limit: int, remaining: int, reset: real)

  /** TooManyRequests is the HTTP 429 answer with its Retry-After header. */
  datatype Outcome = Allowed(info: RateLimitInfo) | TooManyRequests(retryAfter: int)

  /** One call: the user, the monotonic clock and the wall clock read during the call. */
  datatype Call = Call(user: UserId, now: real, wall: real)

  /******* Specification: the full history of accepted requests *******/

  datatype Hit = Hit(user: UserId, time: real)

  /** The number of accepted requests of `u` in the half-open interval (lo, hi]. */
  function InWindow(h: seq<Hit>, u: UserId, lo: real, hi: real): nat {
    if h == [] then 0 else
    var last := h[|h| - 1];
    InWindow(h[..|h| - 1], u, lo, hi) + if last.user == u && lo < last.time <= hi then 1 else 0
  }

  predicate SpecAllows(rpm: int, h: seq<Hit>, c: Call) {
    InWindow(h, c.user, c.now - WINDOW_SEC, c.now) < rpm
  }

  function SpecStep(rpm: int, h: seq<Hit>, c: Call): seq<Hit> {
    if SpecAllows(rpm, h, c) then h + [Hit(c.user, c.now)] else h
  }

  function SpecRun(rpm: int, calls: seq<Call>): seq<Hit> {
    if calls == [] then [] else SpecStep(rpm, SpecRun(rpm, calls[..|calls| - 1]), calls[|calls| - 1])
  }

  ghost predicate NondecreasingClock(calls: seq<Call>) {
    forall i, j :: 0 <= i < j < |calls| ==> calls[i].now <= calls[j].now
  }

  /******* The implementation state and one call as a function of it *******/

  datatype State = State(requests: map<UserId, seq<real>>, callCount: nat)

  function Ceil(x: real): int { -((-x).Floor) }

  function DropExpired(ts: seq<real>, cutoff: real): seq<real> {
    if ts != [] && ts[0] <= cutoff then DropExpired(ts[1..], cutoff) else ts
  }

  predicate IsStale(ts: seq<real>, cutoff: real) {
    ts == [] || ts[|ts| - 1] <= cutoff
  }

  function Cleanup(requests: map<UserId, seq<real>>, cutoff: real): map<UserId, seq<real>> {
    map u | u in requests && !IsStale(requests[u], cutoff) :: requests[u]
  }

  function Deque(requests: map<UserId, seq<real>>, u: UserId): seq<real> {
    if u in requests then requests[u] else []
  }

  /** Counts the call and, every CLEANUP_INTERVAL calls, forgets the stale users. */
  function Sweep(s: State, now: real): State {
    if s.callCount + 1 >= CLEANUP_INTERVAL then
      State(Cleanup(s.requests, now - WINDOW_SEC), 0)
    else
      State(s.requests, s.callCount + 1)
  }

  function Answer(rpm: int, s: State, c: Call): (State, Outcome)
    requires rpm >= 1
  {
    var cutoff := c.now - WINDOW_SEC;
    var ts := DropExpired(Deque(s.requests, c.user), cutoff);
    if |ts| >= rpm then
      (State(s.requests[c.user := ts], s.callCount), TooManyRequests(Ceil(ts[0] - cutoff)))
    else
      var ts' := ts + [c.now];
      (State(s.requests[c.user := ts'], s.callCount),
       Allowed(RateLimitInfo(rpm, rpm - |ts'|, c.wall + (ts'[0] + WINDOW_SEC - c.now))))
  }

  function CheckStep(rpm: int, s: State, c: Call): (State, Outcome)
    requires rpm >= 1
  {
    Answer(rpm, Sweep(s, c.now), c)
  }

  function Run(rpm: int, calls: seq<Call>): State
    requires rpm >= 1
  {
    if calls == [] then State(map[], 0) else
    CheckStep(rpm, Run(rpm, calls[..|calls| - 1]), calls[|calls| - 1]).0
  }

  /** What the i-th call of a run is answered. */
  function OutcomeAt(rpm: int, calls: seq<Call>, i: nat): Outcome
    requires rpm >= 1 && i < |calls|
  {
    CheckStep(rpm, Run(rpm, calls[..i]), calls[i]).1
  }

  /******* Refinement relation *******/

  /** The times of the accepted requests of one user, oldest first. */
  ghost function Times(h: seq<Hit>, u: UserId): seq<real> {
    if h == [] then [] else
    var last := h[|h| - 1];
    Times(h[..|h| - 1], u) + if last.user == u then [last.time] else []
  }

  ghost predicate Sorted(ts: seq<real>) {
    forall i, j :: 0 <= i < j < |ts| ==> ts[i] <= ts[j]
  }

  /** `ts` is what is left of `all` when some entries that expired by `clock` are dropped. */
  ghost predicate Remembers(ts: seq<real>, all: seq<real>, clock: real) {
    && |ts| <= |all|
    && ts == all[|all| - |ts|..]
    && (forall i :: 0 <= i < |all| - |ts| ==> all[i] <= clock - WINDOW_SEC)
  }

  ghost predicate Tracks(ts: seq<real>, all: seq<real>, clock: real) {
    && Sorted(all)
    && (forall i :: 0 <= i < |all| ==> all[i] <= clock)
    && Remembers(ts, all, clock)
  }

  ghost predicate UserRelated(s: State, h: seq<Hit>, u: UserId, clock: real) {
    Tracks(Deque(s.requests, u), Times(h, u), clock)
  }

  ghost predicate Related(s: State, h: seq<Hit>, clock: real) {
    && (forall u :: UserRelated(s, h, u, clock))
  }

  /******* Counting lemmas *******/

  ghost function CountIn(ts: seq<real>, lo: real, hi: real): nat {
    if ts == [] then 0 else
    CountIn(ts[..|ts| - 1], lo, hi) + if lo < ts[|ts| - 1] <= hi then 1 else 0
  }

  lemma {:induction false} InWindowCountsTimes(h: seq<Hit>, u: UserId, lo: real, hi: real)
    ensures InWindow(h, u, lo, hi) == CountIn(Times(h, u), lo, hi)
  {
    if h != [] {
      InWindowCountsTimes(h[..|h| - 1], u, lo, hi);
      var rest, all := Times(h[..|h| - 1], u), Times(h, u);
      if h[|h| - 1].user == u {
        assert all[..|all| - 1] == rest;
      } else {
        assert all == rest;
      }
    }
  }

  /** In a sorted list whose first k entries are at most `lo` and whose others lie in (lo, hi]. */
  lemma {:induction false} CountIsSuffix(ts: seq<real>, k: nat, lo: real, hi: real)
    requires k <= |ts|
    requires forall i :: 0 <= i < k ==> ts[i] <= lo
    requires forall i :: k <= i < |ts| ==> lo < ts[i] <= hi
    ensures CountIn(ts, lo, hi) == |ts| - k
  {
    if ts != [] {
      CountIsSuffix(ts[..|ts| - 1], if k == |ts| then k - 1 else k, lo, hi);
    }
  }

  lemma {:induction false} DropExpiredIsSuffix(ts: seq<real>, cutoff: real) returns (k: nat)
    ensures k <= |ts| && DropExpired(ts, cutoff) == ts[k..]
    ensures forall i :: 0 <= i < k ==> ts[i] <= cutoff
    ensures k < |ts| ==> cutoff < ts[k]
  {
    if ts != [] && ts[0] <= cutoff {
      var k' := DropExpiredIsSuffix(ts[1..], cutoff);
      k := k' + 1;
      assert ts[1..][k'..] == ts[k..];
      forall i | 0 < i < k ensures ts[i] <= cutoff {
        assert ts[i] == ts[1..][i - 1];
      }
    } else {
      k := 0;
    }
  }

  /** The sweep may forget users, but only entries that had expired anyway. */
  lemma CleanupInvisible(s: State, h: seq<Hit>, u: UserId, clock: real, now: real)
    requires clock <= now
    ensures UserRelated(s, h, u, clock) ==> UserRelated(State(Cleanup(s.requests, now - WINDOW_SEC), 0), h, u, now)
  {
    hide Times, Tracks;
    var all, ts := Times(h, u), Deque(s.requests, u);
    if UserRelated(s, h, u, clock) {
      TracksLater(ts, all, clock, now);
      if IsStale(ts, now - WINDOW_SEC) { StaleIsExpired(ts, all, now); }
    }
  }

  lemma TracksLater(ts: seq<real>, all: seq<real>, clock: real, now: real)
    requires Tracks(ts, all, clock) && clock <= now
    ensures Tracks(ts, all, now)
  {
  }

  lemma StaleIsExpired(ts: seq<real>, all: seq<real>, now: real)
    requires Tracks(ts, all, now) && IsStale(ts, now - WINDOW_SEC)
    ensures Tracks([], all, now)
  {
    if ts != [] {
      var last := |all| - 1;
      assert ts[|ts| - 1] == all[last];
      assert forall i :: 0 <= i <= last ==> all[i] <= all[last];
    }
  }

  /** Where the live part of all times starts once the expired front of the deque is dropped. */
  lemma ExpireCut(q: seq<real>, all: seq<real>, now: real) returns (cut: nat)
    requires Tracks(q, all, now)
    ensures cut <= |all| && DropExpired(q, now - WINDOW_SEC) == all[cut..]
    ensures forall i :: 0 <= i < cut ==> all[i] <= now - WINDOW_SEC
    ensures cut < |all| ==> now - WINDOW_SEC < all[cut]
  {
    var skipped := |all| - |q|;
    var k := DropExpiredIsSuffix(q, now - WINDOW_SEC);
    cut := skipped + k;
    assert q[k..] == all[cut..];
    forall i | skipped <= i < cut ensures all[i] <= now - WINDOW_SEC {
      assert all[i] == q[i - skipped];
    }
  }

  /** Dropping the expired front of the deque leaves exactly the current window of all times. */
  lemma ExpireTracks(q: seq<real>, all: seq<real>, now: real) returns (ts: seq<real>)
    requires Tracks(q, all, now)
    ensures ts == DropExpired(q, now - WINDOW_SEC) && Tracks(ts, all, now)
    ensures forall i :: 0 <= i < |ts| ==> now - WINDOW_SEC < ts[i] <= now
    ensures CountIn(all, now - WINDOW_SEC, now) == |ts|
  {
    var cut := ExpireCut(q, all, now);
    ts := all[cut..];
    forall i | cut <= i < |all| ensures now - WINDOW_SEC < all[i] {
      assert all[cut] <= all[i];
    }
    CountIsSuffix(all, cut, now - WINDOW_SEC, now);
  }

  lemma UserRelatedLater(s: State, h: seq<Hit>, u: UserId, clock: real, now: real, count: nat)
    requires clock <= now
    ensures UserRelated(s, h, u, clock) ==> UserRelated(State(s.requests, count), h, u, now)
  {
  }

  /******* Main results *******/

  /** The state a call works on after the possible sweep still represents the history. */
  lemma SweepRelated(s: State, h: seq<Hit>, clock: real, now: real)
    requires Related(s, h, clock) && clock <= now
    ensures Related(Sweep(s, now), h, now)
  {
    forall u ensures UserRelated(Sweep(s, now), h, u, now) {
      if s.callCount + 1 >= CLEANUP_INTERVAL {
        CleanupInvisible(s, h, u, clock, now);
      } else {
        UserRelatedLater(s, h, u, clock, now, s.callCount + 1);
      }
    }
  }

  /** Recording an accepted request extends one user's times and no other's. */
  lemma TimesAfterHit(h: seq<Hit>, user: UserId, now: real, u: UserId)
    ensures Times(h + [Hit(user, now)], u) == if u == user then Times(h, u) + [now] else Times(h, u)
  {
    var h' := h + [Hit(user, now)];
    assert h'[..|h'| - 1] == h;
  }

  lemma AppendTracks(ts: seq<real>, all: seq<real>, now: real)
    requires Tracks(ts, all, now)
    ensures Tracks(ts + [now], all + [now], now)
  {
  }

  /** After the call, each user's deque still represents that user's history. */
  lemma StepTracks(h: seq<Hit>, c: Call, u: UserId, ts: seq<real>, accepted: bool)
    requires Tracks(ts, Times(h, u), c.now)
    ensures
      Tracks(if accepted && u == c.user then ts + [c.now] else ts,
             Times(if accepted then h + [Hit(c.user, c.now)] else h, u), c.now)
  {
    if accepted {
      TimesAfterHit(h, c.user, c.now, u);
      AppendTracks(ts, Times(h, u), c.now);
    }
  }

  /** Once expired entries are dropped, counting the deque is counting the history. */
  lemma AnswerRefines(rpm: int, s: State, h: seq<Hit>, c: Call)
    requires rpm >= 1
    ensures
      var o := Answer(rpm, s, c).1;
      var used := InWindow(h, c.user, c.now - WINDOW_SEC, c.now);
      UserRelated(s, h, c.user, c.now) ==>
        && (o.Allowed? <==> SpecAllows(rpm, h, c))
        && (o.Allowed? ==> o.info.limit == rpm && o.info.remaining == rpm - used - 1)
  {
    if UserRelated(s, h, c.user, c.now) {
      var _ := ExpireTracks(Deque(s.requests, c.user), Times(h, c.user), c.now);
      InWindowCountsTimes(h, c.user, c.now - WINDOW_SEC, c.now);
    }
  }

  lemma CallerRelated(rpm: int, s: State, h: seq<Hit>, c: Call, accepted: bool)
    requires rpm >= 1 && UserRelated(s, h, c.user, c.now)
    requires accepted == Answer(rpm, s, c).1.Allowed?
    ensures UserRelated(Answer(rpm, s, c).0, if accepted then h + [Hit(c.user, c.now)] else h, c.user, c.now)
  {
    var ts := ExpireTracks(Deque(s.requests, c.user), Times(h, c.user), c.now);
    StepTracks(h, c, c.user, ts, accepted);
  }

  /** One call answers as the history does, and the state keeps representing the history. */
  lemma StepRefines(rpm: int, s: State, h: seq<Hit>, clock: real, c: Call)
    requires rpm >= 1 && Related(s, h, clock) && clock <= c.now
    ensures Related(CheckStep(rpm, s, c).0, SpecStep(rpm, h, c), c.now)
    ensures
      var o := CheckStep(rpm, s, c).1;
      var used := InWindow(h, c.user, c.now - WINDOW_SEC, c.now);
      && (o.Allowed? <==> SpecAllows(rpm, h, c))
      && (o.Allowed? ==> o.info.limit == rpm && o.info.remaining == rpm - used - 1)
  {
    SweepRelated(s, h, clock, c.now);
    var swept := Sweep(s, c.now);
    assert UserRelated(swept, h, c.user, c.now);
    AnswerRefines(rpm, swept, h, c);
    forall u ensures UserRelated(Answer(rpm, swept, c).0, SpecStep(rpm, h, c), u, c.now) {
      assert UserRelated(swept, h, u, c.now);
      if u == c.user {
        CallerRelated(rpm, swept, h, c, SpecAllows(rpm, h, c));
      } else {
        StepTracks(h, c, u, Deque(swept.requests, u), SpecAllows(rpm, h, c));
      }
    }
  }

  lemma {:induction false} RunRelated(rpm: int, calls: seq<Call>, clock: real)
    requires rpm >= 1 && NondecreasingClock(calls)
    requires forall i :: 0 <= i < |calls| ==> calls[i].now <= clock
    ensures Related(Run(rpm, calls), SpecRun(rpm, calls), clock)
  {
    if calls != [] {
      var front, last := calls[..|calls| - 1], calls[|calls| - 1];
      RunRelated(rpm, front, last.now);
      StepRefines(rpm, Run(rpm, front), SpecRun(rpm, front), last.now, last);
      RelatedLater(Run(rpm, calls), SpecRun(rpm, calls), last.now, clock);
    }
  }

  lemma RelatedLater(s: State, h: seq<Hit>, clock: real, now: real)
    requires Related(s, h, clock) && clock <= now
    ensures Related(s, h, now)
  {
    forall u ensures UserRelated(s, h, u, now) {
      UserRelatedLater(s, h, u, clock, now, s.callCount);
    }
  }

  /** Over every run the limiter answers each call exactly as the history does: the sweep is invisible. */
  lemma RunRefines(rpm: int, calls: seq<Call>, i: nat)
    requires rpm >= 1 && NondecreasingClock(calls) && i < |calls|
    ensures
      var h := SpecRun(rpm, calls[..i]);
      var o := OutcomeAt(rpm, calls, i);
      var used := InWindow(h, calls[i].user, calls[i].now - 60.0, calls[i].now);
      && (o.Allowed? <==> SpecAllows(rpm, h, calls[i]))
      && (o.Allowed? <==> used < rpm)
      && (o.Allowed? ==> o.info.limit == rpm && o.info.remaining == rpm - used - 1)
  {
    RunRelated(rpm, calls[..i], calls[i].now);
    StepRefines(rpm, Run(rpm, calls[..i]), SpecRun(rpm, calls[..i]), calls[i].now, calls[i]);
  }

  /** Counting is monotone when every hit of one interval also lies in the other. */
  lemma {:induction false} InWindowMonotone(h: seq<Hit>, u: UserId, lo: real, hi: real, lo': real, hi': real)
    requires forall i :: 0 <= i < |h| && lo < h[i].time <= hi ==> lo' < h[i].time <= hi'
    ensures InWindow(h, u, lo, hi) <= InWindow(h, u, lo', hi')
  {
    if h != [] {
      InWindowMonotone(h[..|h| - 1], u, lo, hi, lo', hi');
    }
  }

  /** Every half-open window of 60 seconds, wherever it starts, holds at most rpm accepted requests. */
  lemma {:induction false} WindowBound(rpm: int, calls: seq<Call>, u: UserId, x: real)
    requires rpm >= 1 && NondecreasingClock(calls)
    ensures InWindow(SpecRun(rpm, calls), u, x, x + 60.0) <= rpm
    ensures forall i :: 0 <= i < |SpecRun(rpm, calls)| ==> calls != [] && SpecRun(rpm, calls)[i].time <= calls[|calls| - 1].now
  {
    if calls != [] {
      var n := |calls| - 1;
      var c, h, h' := calls[n], SpecRun(rpm, calls[..n]), SpecRun(rpm, calls);
      WindowBound(rpm, calls[..n], u, x);
      if SpecAllows(rpm, h, c) {
        assert h'[..|h'| - 1] == h;
        if c.user == u && x < c.now <= x + WINDOW_SEC {
          InWindowMonotone(h, u, x, x + WINDOW_SEC, c.now - WINDOW_SEC, c.now);
        }
      }
    }
  }

  lemma {:induction false} OthersDoNotCount(h: seq<Hit>, others: seq<Hit>, u: UserId)
    requires forall i :: 0 <= i < |others| ==> others[i].user != u
    ensures Times(h + others, u) == Times(h, u)
  {
    if others == [] {
      assert h + others == h;
    } else {
      var all := h + others;
      assert all[..|all| - 1] == h + others[..|others| - 1];
      OthersDoNotCount(h, others[..|others| - 1], u);
    }
  }

  lemma CeilBounds(x: real, d: nat)
    ensures d as real >= x <==> d >= Ceil(x)
    ensures 0.0 < x <= WINDOW_SEC ==> 1 <= Ceil(x) <= 60
  {
  }

  /** With a full window, room opens exactly when the oldest entry leaves it. */
  lemma RoomOpens(rpm: int, all: seq<real>, n: nat, later: real)
    requires 1 <= n == rpm && n <= |all| && Sorted(all)
    requires forall i :: 0 <= i < |all| ==> all[i] <= later
    requires forall i :: 0 <= i < |all| - n ==> all[i] <= later - WINDOW_SEC
    ensures CountIn(all, later - WINDOW_SEC, later) < rpm <==> all[|all| - n] <= later - WINDOW_SEC
  {
    if later - WINDOW_SEC < all[|all| - n] {
      CountIsSuffix(all, |all| - n, later - WINDOW_SEC, later);
    } else {
      var k := DropExpiredIsSuffix(all, later - WINDOW_SEC);
      forall i | k <= i < |all| ensures later - WINDOW_SEC < all[i] {
        assert all[k] <= all[i];
      }
      CountIsSuffix(all, k, later - WINDOW_SEC, later);
    }
  }

  /** Later, when nobody but others was accepted, the caller's room depends on one entry only. */
  lemma RoomAfterOthers(rpm: int, h: seq<Hit>, c: Call, all: seq<real>, ts: seq<real>, others: seq<Hit>, later: real, wall: real)
    requires 1 <= rpm == |ts| && c.now <= later
    requires all == Times(h, c.user) && Tracks(ts, all, c.now)
    requires forall i :: 0 <= i < |others| ==> others[i].user != c.user
    ensures SpecAllows(rpm, h + others, Call(c.user, later, wall)) <==> ts[0] <= later - WINDOW_SEC
  {
    assert InWindow(h + others, c.user, later - WINDOW_SEC, later) == CountIn(all, later - WINDOW_SEC, later) by {
      OthersDoNotCount(h, others, c.user);
      InWindowCountsTimes(h + others, c.user, later - WINDOW_SEC, later);
    }
    RoomOpens(rpm, all, |ts|, later);
  }

  lemma RejectionHeader(rpm: int, s: State, c: Call, ts: seq<real>)
    requires rpm >= 1 && ts == DropExpired(Deque(s.requests, c.user), c.now - WINDOW_SEC)
    requires Answer(rpm, s, c).1.TooManyRequests?
    ensures |ts| >= rpm
    ensures Answer(rpm, s, c).1.retryAfter == Ceil(ts[0] - (c.now - WINDOW_SEC))
  {
  }

  /** A rejected caller has exactly rpm live entries, all of them within the last 60 seconds. */
  lemma RejectedWithFullWindow(rpm: int, q: seq<real>, all: seq<real>, now: real) returns (ts: seq<real>)
    requires rpm >= 1 && Tracks(q, all, now)
    requires CountIn(all, now - WINDOW_SEC, now) <= rpm <= |DropExpired(q, now - WINDOW_SEC)|
    ensures ts == DropExpired(q, now - WINDOW_SEC)
    ensures |ts| == rpm && Tracks(ts, all, now)
    ensures now - WINDOW_SEC < ts[0] <= now
  {
    ts := ExpireTracks(q, all, now);
  }

  lemma AnswerRetryExact(rpm: int, s: State, h: seq<Hit>, c: Call, others: seq<Hit>, d: nat, wall: real)
    requires rpm >= 1 && UserRelated(s, h, c.user, c.now)
    requires InWindow(h, c.user, c.now - WINDOW_SEC, c.now) <= rpm
    requires forall i :: 0 <= i < |others| ==> others[i].user != c.user
    requires Answer(rpm, s, c).1.TooManyRequests?
    ensures 1 <= Answer(rpm, s, c).1.retryAfter <= 60
    ensures SpecAllows(rpm, h + others, Call(c.user, c.now + d as real, wall)) <==> d >= Answer(rpm, s, c).1.retryAfter
  {
    hide Tracks, InWindow, CountIn, Times, DropExpired;
    var q, all := Deque(s.requests, c.user), Times(h, c.user);
    RejectionHeader(rpm, s, c, DropExpired(q, c.now - WINDOW_SEC));
    InWindowCountsTimes(h, c.user, c.now - WINDOW_SEC, c.now);
    var ts := RejectedWithFullWindow(rpm, q, all, c.now);
    RoomAfterOthers(rpm, h, c, all, ts, others, c.now + d as real, wall);
    CeilBounds(ts[0] - (c.now - WINDOW_SEC), d);
  }

  /**
   A rejected call carries a Retry-After of 1 to 60 seconds, and a call of the same user a whole
   number `d` of seconds later succeeds exactly when `d` is at least that value, whatever was
   accepted for other users in between.
   */
  lemma RetryAfterExact(rpm: int, s: State, h: seq<Hit>, clock: real, c: Call, others: seq<Hit>, d: nat, wall: real)
    requires rpm >= 1 && Related(s, h, clock) && clock <= c.now
    requires InWindow(h, c.user, c.now - WINDOW_SEC, c.now) <= rpm  // holds over every run: WindowBound
    requires forall i :: 0 <= i < |others| ==> others[i].user != c.user
    requires CheckStep(rpm, s, c).1.TooManyRequests?
    ensures 1 <= CheckStep(rpm, s, c).1.retryAfter <= 60
    ensures SpecAllows(rpm, h + others, Call(c.user, c.now + d as real, wall))
            <==> d >= CheckStep(rpm, s, c).1.retryAfter
  {
    assert UserRelated(Sweep(s, c.now), h, c.user, c.now) by { SweepRelated(s, h, clock, c.now); }
    AnswerRetryExact(rpm, Sweep(s, c.now), h, c, others, d, wall);
  }

  /** Of the calls in `more`, made after `calls`, none by `u` is accepted. */
  ghost predicate NoneAccepted(rpm: int, calls: seq<Call>, more: seq<Call>, u: UserId) {
    forall i :: 0 <= i < |more| && more[i].user == u ==> !SpecAllows(rpm, SpecRun(rpm, calls + more[..i]), more[i])
  }

  lemma {:induction false} OnlyOthersAdded(rpm: int, calls: seq<Call>, more: seq<Call>, u: UserId) returns (others: seq<Hit>)
    requires NoneAccepted(rpm, calls, more, u)
    ensures SpecRun(rpm, calls + more) == SpecRun(rpm, calls) + others
    ensures forall i :: 0 <= i < |others| ==> others[i].user != u
  {
    hide SpecAllows;
    if more == [] {
      others := [];
      assert calls + more == calls;
    } else {
      var n := |more| - 1;
      SpecRunLast(rpm, calls, more);
      NoneAcceptedFront(rpm, calls, more, u);
      others := OnlyOthersAdded(rpm, calls, more[..n], u);
      if SpecAllows(rpm, SpecRun(rpm, calls + more[..n]), more[n]) {
        others := others + [Hit(more[n].user, more[n].now)];
      }
    }
  }

  lemma SpecRunLast(rpm: int, calls: seq<Call>, more: seq<Call>)
    requires more != []
    ensures var n := |more| - 1;
      SpecRun(rpm, calls + more) == SpecStep(rpm, SpecRun(rpm, calls + more[..n]), more[n])
  {
    hide SpecStep;
    var all := calls + more;
    assert all[..|all| - 1] == calls + more[..|more| - 1];
  }

  lemma NoneAcceptedFront(rpm: int, calls: seq<Call>, more: seq<Call>, u: UserId)
    requires more != [] && NoneAccepted(rpm, calls, more, u)
    ensures NoneAccepted(rpm, calls, more[..|more| - 1], u)
  {
    hide SpecAllows, SpecRun;
    var front := more[..|more| - 1];
    forall i | 0 <= i < |front| && front[i].user == u
      ensures !SpecAllows(rpm, SpecRun(rpm, calls + front[..i]), front[i])
    {
      assert front[..i] == more[..i];
    }
  }

  /** Of the calls in `all` from position `n` on, up to the last, all by `u` are rejected. */
  ghost predicate OwnRejected(rpm: int, all: seq<Call>, n: nat, u: UserId)
    requires rpm >= 1
  {
    forall i :: n <= i < |all| - 1 && all[i].user == u ==> OutcomeAt(rpm, all, i).TooManyRequests?
  }

  lemma RejectedIsNotAccepted(rpm: int, calls: seq<Call>, more: seq<Call>, retry: Call, u: UserId)
    requires rpm >= 1 && NondecreasingClock(calls + more + [retry])
    requires OwnRejected(rpm, calls + more + [retry], |calls|, u)
    ensures NoneAccepted(rpm, calls, more, u)
  {
    hide SpecAllows, SpecRun, OutcomeAt, NondecreasingClock;
    var all := calls + more + [retry];
    forall i | 0 <= i < |more| && more[i].user == u ensures !SpecAllows(rpm, SpecRun(rpm, calls + more[..i]), more[i]) {
      assert all[|calls| + i] == more[i] && all[..|calls| + i] == calls + more[..i];
      RunRefines(rpm, all, |calls| + i);
    }
  }

  /**
   Over whole runs: when the last of `calls` is rejected, whatever others do afterwards and however
   often the rejected user tries again in vain, that user's call a whole number `d` of seconds
   later is allowed iff Retry-After has elapsed. Early retries do not postpone the wait.
   */
  lemma RetryAfterOverRuns(rpm: int, calls: seq<Call>, more: seq<Call>, d: nat, wall: real)
    requires rpm >= 1 && calls != []
    requires OutcomeAt(rpm, calls, |calls| - 1).TooManyRequests?
    requires NondecreasingClock(calls + more + [Call(calls[|calls| - 1].user, calls[|calls| - 1].now + d as real, wall)])
    ensures 1 <= OutcomeAt(rpm, calls, |calls| - 1).retryAfter <= 60
    ensures
      var u := calls[|calls| - 1].user;
      var all := calls + more + [Call(u, calls[|calls| - 1].now + d as real, wall)];
      OwnRejected(rpm, all, |calls|, u) ==>
        (OutcomeAt(rpm, all, |all| - 1).Allowed? <==> d >= OutcomeAt(rpm, calls, |calls| - 1).retryAfter)
  {
    hide OwnRejected, NoneAccepted, Run, SpecRun, CheckStep, OutcomeAt, Related, SpecAllows, InWindow;
    var n := |calls| - 1;
    var front, c := calls[..n], calls[n];
    var retry := Call(c.user, c.now + d as real, wall);
    var all := calls + more + [retry];
    assert forall i :: 0 <= i <= n ==> all[i] == calls[i];
    assert NondecreasingClock(calls);
    RejectedAtEnd(rpm, calls);
    RetryAfterExact(rpm, Run(rpm, front), SpecRun(rpm, front), c.now, c, [], d, wall);
    if OwnRejected(rpm, all, |calls|, c.user) {
      RejectedIsNotAccepted(rpm, calls, more, retry, c.user);
      var others := OnlyOthersAdded(rpm, calls, more, c.user);
      RetryAfterExact(rpm, Run(rpm, front), SpecRun(rpm, front), c.now, c, others, d, wall);
      assert all[..|calls + more|] == calls + more && all[|calls + more|] == retry;
      RunRefines(rpm, all, |calls + more|);
    }
  }

  /** What a rejected last call was answered from. */
  lemma RejectedAtEnd(rpm: int, calls: seq<Call>)
    requires rpm >= 1 && calls != [] && NondecreasingClock(calls) && OutcomeAt(rpm, calls, |calls| - 1).TooManyRequests?
    ensures
      var front, c := calls[..|calls| - 1], calls[|calls| - 1];
      && Related(Run(rpm, front), SpecRun(rpm, front), c.now)
      && OutcomeAt(rpm, calls, |calls| - 1) == CheckStep(rpm, Run(rpm, front), c).1
      && SpecRun(rpm, calls) == SpecRun(rpm, front)
      && InWindow(SpecRun(rpm, front), c.user, c.now - WINDOW_SEC, c.now) <= rpm
  {
    hide Related, CheckStep, SpecAllows, InWindow;
    var front, c := calls[..|calls| - 1], calls[|calls| - 1];
    RunRelated(rpm, front, c.now);
    StepRefines(rpm, Run(rpm, front), SpecRun(rpm, front), c.now, c);
    WindowBound(rpm, front, c.user, c.now - WINDOW_SEC);
  }

  /** When the live entries are followed by a new one, counting drops when the oldest of them expires. */
  lemma SlotFrees(ts: seq<real>, all: seq<real>, now: real, t: real)
    requires Tracks(ts, all, now) && now <= t
    ensures CountIn(all + [now], t - WINDOW_SEC, t) < |ts| + 1 <==> (ts + [now])[0] <= t - WINDOW_SEC
  {
    AppendTracks(ts, all, now);
    var all' := all + [now];
    assert (ts + [now])[0] == all'[|all'| - (|ts| + 1)];
    RoomOpens(|ts| + 1, all', |ts| + 1, t);
  }

  lemma AllowedInfo(rpm: int, s: State, c: Call, ts: seq<real>)
    requires rpm >= 1 && ts == DropExpired(Deque(s.requests, c.user), c.now - WINDOW_SEC)
    requires Answer(rpm, s, c).1.Allowed?
    ensures Answer(rpm, s, c).1.info.remaining == rpm - |ts| - 1
    ensures Answer(rpm, s, c).1.info.reset == c.wall + ((ts + [c.now])[0] + WINDOW_SEC - c.now)
  {
  }

  lemma AnswerResetExact(rpm: int, s: State, h: seq<Hit>, c: Call, t: real)
    requires rpm >= 1 && UserRelated(s, h, c.user, c.now) && c.now <= t
    requires Answer(rpm, s, c).1.Allowed?
    ensures
      var info := Answer(rpm, s, c).1.info;
      InWindow(h + [Hit(c.user, c.now)], c.user, t - WINDOW_SEC, t) < rpm - info.remaining
      <==> t >= c.now + (info.reset - c.wall)
  {
    hide Tracks, InWindow, CountIn, Times, DropExpired;
    var all := Times(h, c.user);
    assert InWindow(h + [Hit(c.user, c.now)], c.user, t - WINDOW_SEC, t)
        == CountIn(all + [c.now], t - WINDOW_SEC, t) by {
      TimesAfterHit(h, c.user, c.now, c.user);
      InWindowCountsTimes(h + [Hit(c.user, c.now)], c.user, t - WINDOW_SEC, t);
    }
    var ts := ExpireTracks(Deque(s.requests, c.user), all, c.now);
    AllowedInfo(rpm, s, c, ts);
    SlotFrees(ts, all, c.now, t);
  }

  /** The reset time of an answer is the first moment at which one of the user's slots frees up. */
  lemma ResetExact(rpm: int, s: State, h: seq<Hit>, clock: real, c: Call, t: real)
    requires rpm >= 1 && Related(s, h, clock) && clock <= c.now <= t
    requires CheckStep(rpm, s, c).1.Allowed?
    ensures
      var h', info := SpecStep(rpm, h, c), CheckStep(rpm, s, c).1.info;
      InWindow(h', c.user, t - WINDOW_SEC, t) < rpm - info.remaining <==> t >= c.now + (info.reset - c.wall)
  {
    assert UserRelated(Sweep(s, c.now), h, c.user, c.now) by { SweepRelated(s, h, clock, c.now); }
    AnswerRefines(rpm, Sweep(s, c.now), h, c);
    AnswerResetExact(rpm, Sweep(s, c.now), h, c, t);
  }

  /******* The same in terms of the calls and their answers alone *******/

  /** The first `n` calls of `u` that were accepted at a time in (lo, hi]. */
  ghost function Accepted(rpm: int, calls: seq<Call>, n: nat, u: UserId, lo: real, hi: real): set<nat>
    requires rpm >= 1 && n <= |calls|
  {
    set j: nat | j < n && calls[j].user == u && OutcomeAt(rpm, calls, j).Allowed? && lo < calls[j].now <= hi
  }

  ghost predicate CountsAt(rpm: int, calls: seq<Call>, k: nat, u: UserId, lo: real, hi: real)
    requires rpm >= 1 && k < |calls|
  {
    calls[k].user == u && OutcomeAt(rpm, calls, k).Allowed? && lo < calls[k].now <= hi
  }

  lemma AcceptedNext(rpm: int, calls: seq<Call>, k: nat, u: UserId, lo: real, hi: real)
    requires rpm >= 1 && k < |calls|
    ensures |Accepted(rpm, calls, k + 1, u, lo, hi)| ==
            |Accepted(rpm, calls, k, u, lo, hi)| + if CountsAt(rpm, calls, k, u, lo, hi) then 1 else 0
  {
    hide OutcomeAt;
    assert Accepted(rpm, calls, k + 1, u, lo, hi) ==
           Accepted(rpm, calls, k, u, lo, hi) + if CountsAt(rpm, calls, k, u, lo, hi) then {k} else {};
  }

  lemma InWindowNext(rpm: int, calls: seq<Call>, k: nat, u: UserId, lo: real, hi: real)
    requires rpm >= 1 && NondecreasingClock(calls) && k < |calls|
    ensures InWindow(SpecRun(rpm, calls[..k + 1]), u, lo, hi) ==
            InWindow(SpecRun(rpm, calls[..k]), u, lo, hi) + if CountsAt(rpm, calls, k, u, lo, hi) then 1 else 0
  {
    hide OutcomeAt, SpecAllows, NondecreasingClock, SpecRun, InWindow;
    RunRefines(rpm, calls, k);
    SpecRunNext(rpm, calls, k);
    InWindowSnoc(SpecRun(rpm, calls[..k]), Hit(calls[k].user, calls[k].now), u, lo, hi);
  }

  lemma InWindowSnoc(h: seq<Hit>, hit: Hit, u: UserId, lo: real, hi: real)
    ensures InWindow(h + [hit], u, lo, hi) == InWindow(h, u, lo, hi) + if hit.user == u && lo < hit.time <= hi then 1 else 0
  {
    assert (h + [hit])[..|h|] == h;
  }

  lemma {:induction false} AcceptedIsInWindow(rpm: int, calls: seq<Call>, n: nat, u: UserId, lo: real, hi: real)
    requires rpm >= 1 && NondecreasingClock(calls) && n <= |calls|
    ensures |Accepted(rpm, calls, n, u, lo, hi)| == InWindow(SpecRun(rpm, calls[..n]), u, lo, hi)
  {
    hide *;
    if n == 0 {
      NothingAccepted(rpm, calls, u, lo, hi);
    } else {
      var k: nat := n - 1;
      AcceptedIsInWindow(rpm, calls, k, u, lo, hi);
      AcceptedNext(rpm, calls, k, u, lo, hi);
      InWindowNext(rpm, calls, k, u, lo, hi);
    }
  }

  lemma NothingAccepted(rpm: int, calls: seq<Call>, u: UserId, lo: real, hi: real)
    requires rpm >= 1
    ensures Accepted(rpm, calls, 0, u, lo, hi) == {} && InWindow(SpecRun(rpm, calls[..0]), u, lo, hi) == 0
  {
    hide OutcomeAt;
  }

  /** A call is allowed iff fewer than rpm calls of the user were accepted in the last 60 seconds. */
  lemma AllowedIffRoom(rpm: int, calls: seq<Call>, i: nat)
    requires rpm >= 1 && NondecreasingClock(calls) && i < |calls|
    ensures
      var o, used := OutcomeAt(rpm, calls, i), Accepted(rpm, calls, i, calls[i].user, calls[i].now - 60.0, calls[i].now);
      && (o.Allowed? <==> |used| < rpm)
      && (o.Allowed? ==> o.info.limit == rpm && o.info.remaining == rpm - |used| - 1)
  {
    hide OutcomeAt, NondecreasingClock, Accepted, InWindow, SpecRun;
    AcceptedIsInWindow(rpm, calls, i, calls[i].user, calls[i].now - 60.0, calls[i].now);
    RunRefines(rpm, calls, i);
  }

  /** No 60 seconds see more than rpm accepted calls of a user. */
  lemma AcceptedBound(rpm: int, calls: seq<Call>, u: UserId, x: real)
    requires rpm >= 1 && NondecreasingClock(calls)
    ensures |Accepted(rpm, calls, |calls|, u, x, x + 60.0)| <= rpm
  {
    hide OutcomeAt, NondecreasingClock, Accepted, InWindow, SpecRun;
    assert calls[..|calls|] == calls;
    AcceptedIsInWindow(rpm, calls, |calls|, u, x, x + 60.0);
    WindowBound(rpm, calls, u, x);
  }

  /** One of the calls that count `now` has left the window at `t`. */
  ghost predicate OneLeaves(rpm: int, calls: seq<Call>, n: nat, u: UserId, now: real, t: real)
    requires rpm >= 1 && n <= |calls|
  {
    exists j: nat :: j in Accepted(rpm, calls, n, u, now - 60.0, now) && j < |calls| && calls[j].now + 60.0 <= t
  }

  ghost predicate AllBy(calls: seq<Call>, n: nat, now: real)
    requires n <= |calls|
  {
    forall j :: 0 <= j < n ==> calls[j].now <= now
  }

  lemma EarlierByThen(calls: seq<Call>, i: nat)
    requires NondecreasingClock(calls) && i < |calls|
    ensures AllBy(calls, i, calls[i].now) && AllBy(calls, i + 1, calls[i].now)
  {
  }

  /** Fewer calls count at a later time iff one of those that count now has left the window. */
  lemma SomeLeave(rpm: int, calls: seq<Call>, n: nat, u: UserId, now: real, t: real)
    requires rpm >= 1 && n <= |calls| && now <= t && AllBy(calls, n, now)
    ensures
      var a, b := Accepted(rpm, calls, n, u, now - 60.0, now), Accepted(rpm, calls, n, u, t - 60.0, t);
      |b| < |a| <==> OneLeaves(rpm, calls, n, u, now, t)
  {
    hide OutcomeAt;
    var a, b := Accepted(rpm, calls, n, u, now - 60.0, now), Accepted(rpm, calls, n, u, t - 60.0, t);
    assert b <= a;
    if j: nat :| j in a && j < |calls| && calls[j].now + 60.0 <= t {
      SmallerWithout(b, a, j);
    } else {
      assert a == b;
    }
  }

  lemma SmallerWithout(b: set<nat>, a: set<nat>, j: nat)
    requires b <= a && j in a && j !in b
    ensures |b| < |a|
  {
    assert a == b + (a - b) && j in a - b;
  }

  lemma RejectedWait(rpm: int, calls: seq<Call>, i: nat, d: nat)
    requires rpm >= 1 && NondecreasingClock(calls) && i < |calls| && OutcomeAt(rpm, calls, i).TooManyRequests?
    ensures
      var h, u, now, t := SpecRun(rpm, calls[..i]), calls[i].user, calls[i].now, calls[i].now + d as real;
      && InWindow(h, u, now - 60.0, now) == rpm
      && (d >= OutcomeAt(rpm, calls, i).retryAfter <==> InWindow(h, u, t - 60.0, t) < rpm)
  {
    hide OutcomeAt, NondecreasingClock, InWindow, SpecRun, CheckStep, Related, Run;
    var c := calls[i];
    FrontOf(rpm, calls, i);
    RejectedAtEnd(rpm, calls[..i + 1]);
    RunRefines(rpm, calls, i);
    RetryAfterExact(rpm, Run(rpm, calls[..i]), SpecRun(rpm, calls[..i]), c.now, c, [], d, c.wall);
    assert SpecRun(rpm, calls[..i]) + [] == SpecRun(rpm, calls[..i]);
  }

  /** Retry-After is the least whole number of seconds after which one of the counting calls has left the window. */
  lemma RetryAfterIsLeast(rpm: int, calls: seq<Call>, i: nat, d: nat)
    requires rpm >= 1 && NondecreasingClock(calls) && i < |calls| && OutcomeAt(rpm, calls, i).TooManyRequests?
    ensures
      var now := calls[i].now;
      d >= OutcomeAt(rpm, calls, i).retryAfter <==> OneLeaves(rpm, calls, i, calls[i].user, now, now + d as real)
  {
    hide *;
    EarlierByThen(calls, i);
    var u, now, t := calls[i].user, calls[i].now, calls[i].now + d as real;
    SomeLeave(rpm, calls, i, u, now, t);
    RejectedWait(rpm, calls, i, d);
    AcceptedIsInWindow(rpm, calls, i, u, now - 60.0, now);
    AcceptedIsInWindow(rpm, calls, i, u, t - 60.0, t);
  }

  lemma FrontOf(rpm: int, calls: seq<Call>, i: nat)
    requires rpm >= 1 && NondecreasingClock(calls) && i < |calls|
    ensures NondecreasingClock(calls[..i + 1]) && calls[..i + 1][..i] == calls[..i]
    ensures OutcomeAt(rpm, calls[..i + 1], i) == OutcomeAt(rpm, calls, i) == CheckStep(rpm, Run(rpm, calls[..i]), calls[i]).1
  {
    hide CheckStep, Run;
    assert calls[..i + 1][..i] == calls[..i];
  }

  lemma AllowedReset(rpm: int, calls: seq<Call>, i: nat, t: real)
    requires rpm >= 1 && NondecreasingClock(calls) && i < |calls| && OutcomeAt(rpm, calls, i).Allowed? && t >= calls[i].now
    ensures
      var h, u, now := SpecRun(rpm, calls[..i + 1]), calls[i].user, calls[i].now;
      t >= now + (OutcomeAt(rpm, calls, i).info.reset - calls[i].wall)
      <==> InWindow(h, u, t - 60.0, t) < InWindow(h, u, now - 60.0, now)
  {
    RelatedBefore(rpm, calls, i);
    FrontOf(rpm, calls, i);
    hide OutcomeAt, NondecreasingClock, InWindow, SpecRun, SpecAllows, CheckStep, Related, Run;
    var h, c := SpecRun(rpm, calls[..i]), calls[i];
    ResetExact(rpm, Run(rpm, calls[..i]), h, c.now, c, t);
    RunRefines(rpm, calls, i);
    SpecRunNext(rpm, calls, i);
    InWindowSnoc(h, Hit(c.user, c.now), c.user, c.now - 60.0, c.now);
  }

  lemma RelatedBefore(rpm: int, calls: seq<Call>, i: nat)
    requires rpm >= 1 && NondecreasingClock(calls) && i < |calls|
    ensures Related(Run(rpm, calls[..i]), SpecRun(rpm, calls[..i]), calls[i].now)
  {
    hide Related, Run, SpecRun;
    RunRelated(rpm, calls[..i], calls[i].now);
  }

  /** The reset time is when the oldest call that counts, the present one included, leaves the window. */
  lemma ResetIsOldestLeaving(rpm: int, calls: seq<Call>, i: nat, t: real)
    requires rpm >= 1 && NondecreasingClock(calls) && i < |calls| && OutcomeAt(rpm, calls, i).Allowed? && t >= calls[i].now
    ensures
      var now := calls[i].now;
      t >= now + (OutcomeAt(rpm, calls, i).info.reset - calls[i].wall)
      <==> OneLeaves(rpm, calls, i + 1, calls[i].user, now, t)
  {
    hide *;
    EarlierByThen(calls, i);
    var u, now := calls[i].user, calls[i].now;
    SomeLeave(rpm, calls, i + 1, u, now, t);
    AllowedReset(rpm, calls, i, t);
    AcceptedIsInWindow(rpm, calls, i + 1, u, now - 60.0, now);
    AcceptedIsInWindow(rpm, calls, i + 1, u, t - 60.0, t);
  }

  lemma SpecRunNext(rpm: int, calls: seq<Call>, i: nat)
    requires i < |calls|
    ensures SpecRun(rpm, calls[..i + 1]) == SpecStep(rpm, SpecRun(rpm, calls[..i]), calls[i])
  {
    hide SpecStep;
    assert calls[..i + 1][..i] == calls[..i];
  }

  /** Every thousandth call forgets everybody else who has no accepted request in the last 60 seconds. */
  lemma {:induction false} StaleUsersAreForgotten(rpm: int, calls: seq<Call>)
    requires rpm >= 1
    ensures Run(rpm, calls).callCount == |calls| % 1000
    ensures calls != [] && |calls| % 1000 == 0 ==>
      var c, q := calls[|calls| - 1], Run(rpm, calls).requests;
      forall u :: u in q && u != c.user ==> q[u] != [] && c.now - 60.0 < q[u][|q[u]| - 1]
  {
    hide CheckStep;
    if calls != [] {
      StaleUsersAreForgotten(rpm, calls[..|calls| - 1]);
      StepForgets(rpm, Run(rpm, calls[..|calls| - 1]), calls[|calls| - 1]);
    }
  }

  lemma StepForgets(rpm: int, s: State, c: Call)
    requires rpm >= 1
    ensures CheckStep(rpm, s, c).0.callCount == if s.callCount >= 999 then 0 else s.callCount + 1
    ensures s.callCount >= 999 ==>
      var q := CheckStep(rpm, s, c).0.requests;
      forall u :: u in q && u != c.user ==> q[u] != [] && c.now - 60.0 < q[u][|q[u]| - 1]
  {
    hide DropExpired;
  }

  /******* The limiter object *******/

  class RateLimiter {
    const rpm: int
    var requests: map<UserId, seq<real>>
    var callCount: nat
    ghost var history: seq<Hit>  // accepted requests, in order
    ghost var clock: real        // the last clock reading

    ghost predicate Valid()
      reads this
    {
      && rpm >= 1
      && Related(State(requests, callCount), history, clock)
    }

    constructor (rpm: int, ghost now: real)
      requires rpm >= 1
      ensures Valid() && this.rpm == rpm && history == [] && clock == now && requests == map[] && callCount == 0
    {
      this.rpm := rpm;
      requests, callCount := map[], 0;
      history, clock := [], now;
    }

    method Check(user: UserId, now: real, wall: real) returns (o: Outcome)
      requires Valid()
      requires clock <= now  // time.monotonic() never goes back
      modifies this
      ensures Valid() && clock == now
      ensures history == SpecStep(rpm, old(history), Call(user, now, wall))
      ensures o.Allowed? <==> InWindow(old(history), user, now - 60.0, now) < rpm
      ensures (State(requests, callCount), o) ==
              CheckStep(rpm, old(State(requests, callCount)), Call(user, now, wall))
    {
      ghost var c, before := Call(user, now, wall), State(requests, callCount);
      StepRefines(rpm, before, history, clock, c);
      hide Related, InWindow, DropExpired;
      history, clock := SpecStep(rpm, history, c), now;

      var cutoff := now - WINDOW_SEC;
      callCount := callCount + 1;
      if callCount >= CLEANUP_INTERVAL {
        SweepStale(cutoff);
        callCount := 0;
      }
      assert State(requests, callCount) == Sweep(before, now);

      var timestamps := PopExpired(user, cutoff);
      if |timestamps| >= rpm {
        requests := requests[user := timestamps];
        o := TooManyRequests(Ceil(timestamps[0] - cutoff));
      } else {
        timestamps := timestamps + [now];
        requests := requests[user := timestamps];
        o := Allowed(RateLimitInfo(rpm, rpm - |timestamps|, wall + (timestamps[0] + WINDOW_SEC - now)));
      }
      assert (State(requests, callCount), o) == Answer(rpm, Sweep(before, now), c);
    }

    /** The pop loop of a call: drops entries from the front of the user's deque while they are expired. */
    method PopExpired(user: UserId, cutoff: real) returns (timestamps: seq<real>)
      ensures timestamps == DropExpired(Deque(requests, user), cutoff)
    {
      timestamps := Deque(requests, user);
      while timestamps != [] && timestamps[0] <= cutoff
        invariant DropExpired(timestamps, cutoff) == DropExpired(Deque(requests, user), cutoff)
        decreases |timestamps|
      {
        timestamps := timestamps[1..];
      }
    }

    /** Collects the stale users first and deletes them afterwards. */
    method SweepStale(cutoff: real)
      modifies this`requests
      ensures requests == Cleanup(old(requests), cutoff)
    {
      var stale := set u | u in requests && IsStale(requests[u], cutoff);
      var todo := stale;
      while todo != {}
        invariant todo <= stale
        invariant requests == old(requests) - (stale - todo)
      {
        var u :| u in todo;
        requests := requests - {u};
        todo := todo - {u};
        assert stale - todo == stale - (todo + {u}) + {u};
      }
    }
  }
}
