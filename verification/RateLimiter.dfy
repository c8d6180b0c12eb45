/**
  The sliding-window limiter of app/embedding_gateway.py.

  Times are real numbers read from a monotone clock.  The lock makes one attempt atomic, so any
  interleaving of callers is a sequence of attempts with non-decreasing times.
 */
module RateLimiter {

  const WINDOW: real := 60.0

  datatype Quota = Quota(tokensPerMinute: int, requestsPerMinute: int)

  datatype Admission = Admission(time: real, tokens: int)

  // `EmptyDequeRead` is the IndexError of reading the head of an empty deque.
  datatype Outcome = Admitted | Wait(seconds: real) | EmptyDequeRead

  function Max(a: real, b: real): real {
    if a < b then b else a
  }

  function Charge(estimated: int, q: Quota): int {
    var capped := if estimated < q.tokensPerMinute then estimated else q.tokensPerMinute;
    if capped < 1 then 1 else capped
  }

  function Tokens(events: seq<Admission>): int {
    if events == [] then 0 else events[0].tokens + Tokens(events[1..])
  }

  // The events left once those at or before the cutoff are popped from the head.
  function Expire(events: seq<Admission>, cutoff: real): seq<Admission> {
    if events != [] && events[0].time <= cutoff then Expire(events[1..], cutoff) else events
  }

  predicate Fits(live: seq<Admission>, charge: int, q: Quota) {
    |live| < q.requestsPerMinute && Tokens(live) + charge <= q.tokensPerMinute
  }

  // One attempt under the lock.
  function Serve(events: seq<Admission>, now: real, estimated: int, q: Quota): (seq<Admission>, Outcome) {
    var live := Expire(events, now - WINDOW);
    var charge := Charge(estimated, q);
    if Fits(live, charge, q) then (live + [Admission(now, charge)], Admitted)
    else if live == [] then (live, EmptyDequeRead)
    else (live, Wait(Max(0.01, WINDOW - (now - live[0].time))))
  }

  // An estimate is charged as it is where it lies between 1 and the quota, and otherwise as the nearer of the two.
  predicate IsCharge(tokens: int, estimated: int, tokensPerMinute: int) {
    && (1 <= estimated <= tokensPerMinute ==> tokens == estimated)
    && (1 <= tokensPerMinute < estimated ==> tokens == tokensPerMinute)
    && (estimated < 1 || tokensPerMinute < 1 ==> tokens == 1)
  }

  // Until the oldest event is a minute old, but at least a hundredth of a second.
  predicate IsWait(seconds: real, now: real, oldest: real) {
    if oldest + 60.0 - now < 0.01 then seconds == 0.01 else now + seconds == oldest + 60.0
  }

  class Clock {
    var now: real

    constructor () { now := 0.0; }

    // Time may have passed since the last reading, never less than none.
    method Monotonic() returns (t: real)
      modifies this
      ensures t == now >= old(now)
    {
      t := now;
    }

    method Sleep(seconds: real)
      requires seconds >= 0.0
      modifies this
      ensures now >= old(now) + seconds
    {
      now := now + seconds;
    }
  }

  class VoyageRateLimiter {
    const quota: Quota
    var events: seq<Admission>

    constructor (tokensPerMinute: int, requestsPerMinute: int)
      ensures quota == Quota(tokensPerMinute, requestsPerMinute) && events == []
    {
      quota := Quota(tokensPerMinute, requestsPerMinute);
      events := [];
    }

    method UsedTokens() returns (used: int)
      ensures used == Tokens(events)
    {
      used := 0;
      for k := 0 to |events|
        invariant used + Tokens(events[k..]) == Tokens(events)
      {
        used := used + events[k].tokens;
      }
    }

    // The body of the retry loop, run while holding the lock.
    method TryAcquire(now: real, estimated: int) returns (outcome: Outcome)
      modifies this
      ensures (events, outcome) == Serve(old(events), now, estimated, quota)
      ensures outcome == Admitted ==>
        |events| > 0 && events[|events| - 1].time == now && IsCharge(events[|events| - 1].tokens, estimated, quota.tokensPerMinute)
      ensures outcome.Wait? ==> |events| > 0 && IsWait(outcome.seconds, now, events[0].time)
    {
      var charge := Charge(estimated, quota);
      var cutoff := now - WINDOW;
      while events != [] && events[0].time <= cutoff
        invariant Expire(events, cutoff) == Expire(old(events), cutoff)
      {
        events := events[1..];
      }
      var used := UsedTokens();
      if |events| < quota.requestsPerMinute && used + charge <= quota.tokensPerMinute {
        events := events + [Admission(now, charge)];
        return Admitted;
      }
      if events == [] {
        return EmptyDequeRead;
      }
      return Wait(Max(0.01, WINDOW - (now - events[0].time)));
    }

    // A caller with the limiter to itself is admitted after at most one wait for each recorded event.
    method Acquire(clock: Clock, estimated: int) returns (waits: nat)
      requires quota.tokensPerMinute >= 1 && quota.requestsPerMinute >= 1
      modifies this, clock
      ensures waits <= |old(events)|
      ensures |events| > 0 && events[|events| - 1].time == clock.now
      ensures IsCharge(events[|events| - 1].tokens, estimated, quota.tokensPerMinute)
    {
      waits := 0;
      ghost var left: nat := |events|;
      ExpireMore(events, clock.now - WINDOW, clock.now - WINDOW);
      while true
        invariant waits + left <= |old(events)|
        invariant |Expire(events, clock.now - WINDOW)| <= left
        decreases left
      {
        ghost var before := events;
        var earlier := clock.now;
        var now := clock.Monotonic();
        ExpireMore(before, earlier - WINDOW, now - WINDOW);
        var outcome := TryAcquire(now, estimated);
        RefusedOnlyWithEvents(before, now, estimated, quota);
        if outcome == Admitted {
          return;
        }
        HeadExpires(before, now, estimated, quota, now + outcome.seconds);
        clock.Sleep(outcome.seconds);
        HeadExpires(before, now, estimated, quota, clock.now);
        waits := waits + 1;
        left := |Expire(events, clock.now - WINDOW)|;
      }
    }
  }

  // ---------------------------------------------------------------- progress

  lemma {:induction false} ExpireMore(events: seq<Admission>, early: real, late: real)
    requires early <= late
    ensures |Expire(events, late)| <= |Expire(events, early)| <= |events|
    ensures Expire(Expire(events, early), late) == Expire(events, late)
  {
    if events != [] && events[0].time <= late {
      ExpireMore(events[1..], early, late);
    }
  }

  // A refused attempt finds an empty deque exactly when a quota is not positive.
  lemma RefusedOnlyWithEvents(events: seq<Admission>, now: real, estimated: int, q: Quota)
    ensures Serve(events, now, estimated, q).1 == EmptyDequeRead <==>
              Expire(events, now - WINDOW) == [] && (q.tokensPerMinute < 1 || q.requestsPerMinute < 1)
  {
  }

  // The computed wait always expires the head.
  lemma HeadExpires(events: seq<Admission>, now: real, estimated: int, q: Quota, later: real)
    requires Serve(events, now, estimated, q).1.Wait?
    requires later >= now + Serve(events, now, estimated, q).1.seconds
    ensures Serve(events, now, estimated, q).1.seconds > 0.0
    ensures var live := Serve(events, now, estimated, q).0;
      live != [] && |Expire(live, later - WINDOW)| < |live|
  {
    var live := Serve(events, now, estimated, q).0;
    assert live[0].time <= later - WINDOW;
    ExpireMore(live[1..], later - WINDOW, later - WINDOW);
  }

  // Nor is it longer than that: unless it is the least wait, an attempt before its end is refused again.
  lemma WaitIsNeeded(events: seq<Admission>, now: real, estimated: int, q: Quota, sooner: real)
    requires Serve(events, now, estimated, q).1.Wait? && Serve(events, now, estimated, q).1.seconds > 0.01
    requires now <= sooner < now + Serve(events, now, estimated, q).1.seconds
    ensures Serve(Serve(events, now, estimated, q).0, sooner, estimated, q).1.Wait?
    ensures Serve(Serve(events, now, estimated, q).0, sooner, estimated, q).0 == Serve(events, now, estimated, q).0
  {
    var live := Serve(events, now, estimated, q).0;
    assert Expire(live, sooner - WINDOW) == live;
  }

  // ---------------------------------------------------------------- every interleaving

  datatype Attempt = Attempt(now: real, estimated: int)

  // `history` is every admission ever made, `events` what the deque holds.
  datatype Record = Record(history: seq<Admission>, events: seq<Admission>)

  function Step(s: Record, a: Attempt, q: Quota): Record {
    var (events, outcome) := Serve(s.events, a.now, a.estimated, q);
    Record(if outcome == Admitted then s.history + [Admission(a.now, Charge(a.estimated, q))] else s.history, events)
  }

  function Play(attempts: seq<Attempt>, q: Quota): Record {
    if attempts == [] then Record([], [])
    else Step(Play(attempts[..|attempts| - 1], q), attempts[|attempts| - 1], q)
  }

  predicate MonotoneClock(attempts: seq<Attempt>) {
    forall j, k :: 0 <= j < k < |attempts| ==> attempts[j].now <= attempts[k].now
  }

  predicate Positive(h: seq<Admission>) {
    forall k :: 0 <= k < |h| ==> h[k].tokens >= 1
  }

  // When each admission was made, the admissions of the window ending there met both quotas.
  predicate Capped(h: seq<Admission>, q: Quota) {
    h == [] ||
    (&& Capped(h[..|h| - 1], q)
     && |Expire(h, h[|h| - 1].time - WINDOW)| <= q.requestsPerMinute
     && Tokens(Expire(h, h[|h| - 1].time - WINDOW)) <= q.tokensPerMinute)
  }

  // The deque and the whole history leave the same events live at every time from now on.
  ghost predicate Sound(s: Record, now: real, q: Quota) {
    Positive(s.history) && Capped(s.history, q) && SameLive(s, now)
  }

  ghost predicate SameLive(s: Record, now: real) {
    forall cutoff :: now - WINDOW <= cutoff ==> Expire(s.history, cutoff) == Expire(s.events, cutoff)
  }

  lemma {:induction false} ExpireSnoc(h: seq<Admission>, a: Admission, cutoff: real)
    ensures Expire(h + [a], cutoff) ==
              if Expire(h, cutoff) == [] && a.time <= cutoff then [] else Expire(h, cutoff) + [a]
  {
    if h != [] && h[0].time <= cutoff {
      assert (h + [a])[1..] == h[1..] + [a];
      ExpireSnoc(h[1..], a, cutoff);
    }
  }

  lemma {:induction false} TokensSnoc(h: seq<Admission>, a: Admission)
    ensures Tokens(h + [a]) == Tokens(h) + a.tokens
  {
    if h != [] {
      assert (h + [a])[1..] == h[1..] + [a];
      TokensSnoc(h[1..], a);
    }
  }

  lemma CappedSnoc(h: seq<Admission>, e: Admission, q: Quota)
    requires Capped(h, q) && Fits(Expire(h, e.time - WINDOW), e.tokens, q)
    ensures Capped(h + [e], q)
  {
    ExpireSnoc(h, e, e.time - WINDOW);
    TokensSnoc(Expire(h, e.time - WINDOW), e);
    assert (h + [e])[..|h|] == h;
  }

  lemma StepKeepsLive(s: Record, a: Attempt, q: Quota, cutoff: real)
    requires a.now - WINDOW <= cutoff && Expire(s.history, cutoff) == Expire(s.events, cutoff)
    ensures Expire(Step(s, a, q).history, cutoff) == Expire(Step(s, a, q).events, cutoff)
  {
    var e := Admission(a.now, Charge(a.estimated, q));
    ExpireMore(s.events, a.now - WINDOW, cutoff);
    ExpireSnoc(s.history, e, cutoff);
    ExpireSnoc(Expire(s.events, a.now - WINDOW), e, cutoff);
  }

  lemma StepKeepsCapped(s: Record, a: Attempt, q: Quota)
    requires Positive(s.history) && Capped(s.history, q)
    requires Expire(s.history, a.now - WINDOW) == Expire(s.events, a.now - WINDOW)
    ensures Positive(Step(s, a, q).history) && Capped(Step(s, a, q).history, q)
  {
    var e := Admission(a.now, Charge(a.estimated, q));
    if Fits(Expire(s.events, a.now - WINDOW), e.tokens, q) {
      CappedSnoc(s.history, e, q);
    }
  }

  lemma StepKeepsSound(s: Record, now: real, a: Attempt, q: Quota)
    requires Sound(s, now, q) && now <= a.now
    ensures Sound(Step(s, a, q), a.now, q)
  {
    StepKeepsCapped(s, a, q);
    forall cutoff | a.now - WINDOW <= cutoff
      ensures Expire(Step(s, a, q).history, cutoff) == Expire(Step(s, a, q).events, cutoff)
    {
      StepKeepsLive(s, a, q, cutoff);
    }
  }

  lemma {:induction false} PlayIsSound(attempts: seq<Attempt>, q: Quota)
    requires MonotoneClock(attempts) && attempts != []
    ensures Sound(Play(attempts, q), attempts[|attempts| - 1].now, q)
  {
    var n := |attempts| - 1;
    if n == 0 {
      StepKeepsSound(Record([], []), attempts[0].now, attempts[0], q);
      assert attempts[..0] == [];
    } else {
      PlayIsSound(attempts[..n], q);
      StepKeepsSound(Play(attempts[..n], q), attempts[n - 1].now, attempts[n], q);
    }
  }

  // The admissions made in [start, until).
  function Window(h: seq<Admission>, start: real, until: real): seq<Admission> {
    if h == [] then []
    else (if start <= h[0].time < until then [h[0]] else []) + Window(h[1..], start, until)
  }

  lemma {:induction false} WindowSnoc(h: seq<Admission>, a: Admission, start: real, until: real)
    ensures Window(h + [a], start, until) == Window(h, start, until) + if start <= a.time < until then [a] else []
  {
    if h != [] {
      assert (h + [a])[1..] == h[1..] + [a];
      WindowSnoc(h[1..], a, start, until);
    }
  }

  lemma {:induction false} WindowIsPart(h: seq<Admission>, start: real, until: real)
    requires Positive(h)
    ensures |Window(h, start, until)| <= |h| && 0 <= Tokens(Window(h, start, until)) <= Tokens(h)
  {
    if h != [] {
      var rest := Window(h[1..], start, until);
      WindowIsPart(h[1..], start, until);
      assert ([h[0]] + rest)[1..] == rest && [] + rest == rest;
    }
  }

  // Expiring what lies before a window, and only that, does not change the window.
  lemma {:induction false} WindowOfLive(h: seq<Admission>, cutoff: real, start: real, until: real)
    requires cutoff < start && Positive(h)
    ensures Window(h, start, until) == Window(Expire(h, cutoff), start, until) && Positive(Expire(h, cutoff))
  {
    if h != [] && h[0].time <= cutoff {
      WindowOfLive(h[1..], cutoff, start, until);
      assert [] + Window(h[1..], start, until) == Window(h[1..], start, until);
    }
  }

  lemma CappedFront(h: seq<Admission>, q: Quota)
    requires Positive(h) && Capped(h, q) && h != []
    ensures Positive(h[..|h| - 1]) && Capped(h[..|h| - 1], q)
  {
  }

  predicate WithinQuotas(w: seq<Admission>, q: Quota) {
    w == [] || (|w| <= q.requestsPerMinute && Tokens(w) <= q.tokensPerMinute)
  }

  // A window that holds the last admission holds only what was live when it was made.
  lemma WindowOfLast(h: seq<Admission>, start: real, q: Quota)
    requires Positive(h) && Capped(h, q) && h != [] && start <= h[|h| - 1].time < start + WINDOW
    ensures WithinQuotas(Window(h, start, start + WINDOW), q)
  {
    var cutoff := h[|h| - 1].time - WINDOW;
    WindowOfLive(h, cutoff, start, start + WINDOW);
    WindowIsPart(Expire(h, cutoff), start, start + WINDOW);
  }

  lemma {:induction false} CappedWindow(h: seq<Admission>, start: real, q: Quota)
    requires Positive(h) && Capped(h, q)
    ensures WithinQuotas(Window(h, start, start + WINDOW), q)
  {
    if h != [] {
      var front, last := h[..|h| - 1], h[|h| - 1];
      if start <= last.time < start + WINDOW {
        WindowOfLast(h, start, q);
      } else {
        CappedFront(h, q);
        assert h == front + [last];
        WindowSnoc(front, last, start, start + WINDOW);
        assert Window(front, start, start + WINDOW) + [] == Window(front, start, start + WINDOW);
        CappedWindow(front, start, q);
      }
    }
  }

  // For every interleaving of callers, every half-open 60-second window over the whole admission history
  // holds at most the request quota and charges at most the token quota.
  lemma QuotasHoldInEveryWindow(attempts: seq<Attempt>, q: Quota, start: real)
    requires MonotoneClock(attempts)
    ensures var w := Window(Play(attempts, q).history, start, start + WINDOW);
      w == [] || (|w| <= q.requestsPerMinute && Tokens(w) <= q.tokensPerMinute)
  {
    if attempts != [] {
      PlayIsSound(attempts, q);
      CappedWindow(Play(attempts, q).history, start, q);
    }
  }

  // In every reachable state the next attempt reads the head of an empty deque if and only if a quota is
  // not positive, which the settings exclude.
  lemma HeadReadIsSafe(attempts: seq<Attempt>, next: Attempt, q: Quota)
    ensures Serve(Play(attempts, q).events, next.now, next.estimated, q).1 == EmptyDequeRead <==>
              q.tokensPerMinute < 1 || q.requestsPerMinute < 1
  {
    if q.tokensPerMinute < 1 || q.requestsPerMinute < 1 {
      NothingAdmitted(attempts, q);
    }
    RefusedOnlyWithEvents(Play(attempts, q).events, next.now, next.estimated, q);
  }

  lemma {:induction false} NothingAdmitted(attempts: seq<Attempt>, q: Quota)
    requires q.tokensPerMinute < 1 || q.requestsPerMinute < 1
    ensures Play(attempts, q).events == []
  {
    if attempts != [] {
      NothingAdmitted(attempts[..|attempts| - 1], q);
    }
  }

  // ---------------------------------------------------------------- the quotas in terms of the attempts

  predicate Admits(s: Record, a: Attempt, q: Quota) {
    Serve(s.events, a.now, a.estimated, q).1 == Admitted
  }

  // The attempts that were admitted at the times of interest, in order.
  function AdmittedAt(attempts: seq<Attempt>, q: Quota, when: real -> bool): seq<Attempt> {
    if attempts == [] then []
    else
      var front, last := attempts[..|attempts| - 1], attempts[|attempts| - 1];
      if when(last.now) && Admits(Play(front, q), last, q) then AdmittedAt(front, q, when) + [last] else AdmittedAt(front, q, when)
  }

  // A window of 60 seconds that begins at `start`.
  function Within(start: real): real -> bool {
    t => start <= t < start + 60.0
  }

  // Less than 60 seconds before `now`.
  function Recent(now: real): real -> bool {
    t => now - 60.0 < t
  }

  // The sum of the estimates, each taken as at least 1 and at most the quota.
  function Estimates(attempts: seq<Attempt>, tokensPerMinute: int): int {
    if attempts == [] then 0
    else
      var last := attempts[|attempts| - 1].estimated;
      Estimates(attempts[..|attempts| - 1], tokensPerMinute)
      + if last < 1 || tokensPerMinute < 1 then 1 else if last > tokensPerMinute then tokensPerMinute else last
  }

  lemma EstimatesSnoc(attempts: seq<Attempt>, a: Attempt, q: Quota)
    ensures Estimates(attempts + [a], q.tokensPerMinute) == Estimates(attempts, q.tokensPerMinute) + Charge(a.estimated, q)
  {
    assert (attempts + [a])[..|attempts|] == attempts;
  }

  function During(h: seq<Admission>, when: real -> bool): seq<Admission> {
    if h == [] then []
    else
      var front, last := h[..|h| - 1], h[|h| - 1];
      if when(last.time) then During(front, when) + [last] else During(front, when)
  }

  lemma DuringSnoc(h: seq<Admission>, a: Admission, when: real -> bool)
    ensures During(h + [a], when) == if when(a.time) then During(h, when) + [a] else During(h, when)
  {
    assert (h + [a])[..|h|] == h;
  }

  lemma StepHistory(s: Record, a: Attempt, q: Quota)
    ensures Step(s, a, q).history == if Admits(s, a, q) then s.history + [Admission(a.now, Charge(a.estimated, q))] else s.history
  {
  }

  // The attempts stand for the admissions: as many, with the same tokens.
  ghost predicate StandsFor(w: seq<Attempt>, h: seq<Admission>, q: Quota) {
    |w| == |h| && Estimates(w, q.tokensPerMinute) == Tokens(h)
  }

  lemma StandsForMore(w: seq<Attempt>, h: seq<Admission>, a: Attempt, q: Quota)
    requires StandsFor(w, h, q)
    ensures StandsFor(w + [a], h + [Admission(a.now, Charge(a.estimated, q))], q)
  {
    EstimatesSnoc(w, a, q);
    TokensSnoc(h, Admission(a.now, Charge(a.estimated, q)));
  }

  // The history holds the admitted attempts with their charges.
  lemma {:induction false} HistoryIsAdmitted(attempts: seq<Attempt>, q: Quota, when: real -> bool)
    ensures StandsFor(AdmittedAt(attempts, q, when), During(Play(attempts, q).history, when), q)
  {
    if attempts != [] {
      var front, a := attempts[..|attempts| - 1], attempts[|attempts| - 1];
      HistoryIsAdmitted(front, q, when);
      StepHistory(Play(front, q), a, q);
      DuringSnoc(Play(front, q).history, Admission(a.now, Charge(a.estimated, q)), when);
      StandsForMore(AdmittedAt(front, q, when), During(Play(front, q).history, when), a, q);
    }
  }

  lemma {:induction false} WindowIsDuring(h: seq<Admission>, start: real)
    ensures Window(h, start, start + WINDOW) == During(h, Within(start))
  {
    if h != [] {
      var front, last := h[..|h| - 1], h[|h| - 1];
      WindowIsDuring(front, start);
      assert h == front + [last];
      WindowSnoc(front, last, start, start + WINDOW);
    }
  }

  // For every interleaving of callers and every 60-second window: at most requestsPerMinute attempts were admitted in it,
  // and their estimates, each taken as at least 1 and at most the quota, sum to at most tokensPerMinute.
  lemma EstimatesHoldInEveryWindow(attempts: seq<Attempt>, q: Quota, start: real)
    requires MonotoneClock(attempts)
    ensures var w := AdmittedAt(attempts, q, Within(start));
      w == [] || (|w| <= q.requestsPerMinute && Estimates(w, q.tokensPerMinute) <= q.tokensPerMinute)
  {
    HistoryIsAdmitted(attempts, q, Within(start));
    WindowIsDuring(Play(attempts, q).history, start);
    QuotasHoldInEveryWindow(attempts, q, start);
  }

  predicate InOrder(h: seq<Admission>) {
    forall j, k :: 0 <= j < k < |h| ==> h[j].time <= h[k].time
  }

  predicate NotAfter(h: seq<Admission>, now: real) {
    forall k :: 0 <= k < |h| ==> h[k].time <= now
  }

  lemma {:induction false} HistoryInOrder(attempts: seq<Attempt>, q: Quota)
    requires MonotoneClock(attempts)
    ensures InOrder(Play(attempts, q).history)
    ensures attempts != [] ==> NotAfter(Play(attempts, q).history, attempts[|attempts| - 1].now)
    ensures attempts == [] ==> Play(attempts, q).history == []
  {
    if attempts != [] {
      var front := attempts[..|attempts| - 1];
      HistoryInOrder(front, q);
      StepHistory(Play(front, q), attempts[|attempts| - 1], q);
    }
  }

  lemma ExpireLast(front: seq<Admission>, last: Admission, cutoff: real)
    requires last.time <= cutoff ==> NotAfter(front, cutoff)
    ensures Expire(front + [last], cutoff) == if cutoff < last.time then Expire(front, cutoff) + [last] else Expire(front, cutoff)
  {
    ExpireSnoc(front, last, cutoff);
    if last.time <= cutoff {
      AllExpired(front, cutoff);
    }
  }

  lemma FrontInOrder(front: seq<Admission>, last: Admission)
    requires InOrder(front + [last])
    ensures InOrder(front) && NotAfter(front, last.time)
  {
    var h := front + [last];
    forall j, k | 0 <= j < k < |front| ensures front[j].time <= front[k].time {
      assert h[j].time <= h[k].time;
    }
    forall k | 0 <= k < |front| ensures front[k].time <= last.time {
      assert h[k].time <= h[|front|].time;
    }
  }

  // In a history in order, what has not expired is what came in the last 60 seconds.
  lemma {:induction false} LiveIsRecent(h: seq<Admission>, now: real)
    requires InOrder(h)
    ensures Expire(h, now - WINDOW) == During(h, Recent(now))
  {
    if h != [] {
      var front, last := h[..|h| - 1], h[|h| - 1];
      assert h == front + [last];
      FrontInOrder(front, last);
      LiveIsRecent(front, now);
      ExpireLast(front, last, now - WINDOW);
      DuringSnoc(front, last, Recent(now));
    }
  }

  lemma {:induction false} AllExpired(h: seq<Admission>, cutoff: real)
    requires NotAfter(h, cutoff)
    ensures Expire(h, cutoff) == []
  {
    if h != [] {
      AllExpired(h[1..], cutoff);
    }
  }

  lemma EarlierAttempts(attempts: seq<Attempt>, next: Attempt)
    requires MonotoneClock(attempts + [next])
    ensures MonotoneClock(attempts) && forall k :: 0 <= k < |attempts| ==> attempts[k].now <= next.now
  {
    var all := attempts + [next];
    forall j, k | 0 <= j < k < |attempts| ensures attempts[j].now <= attempts[k].now {
      assert all[j].now <= all[k].now;
    }
    forall k | 0 <= k < |attempts| ensures attempts[k].now <= next.now {
      assert all[k].now <= all[|attempts|].now;
    }
  }

  // What the deque holds after expiry are the admissions of the last 60 seconds.
  lemma DequeIsRecent(attempts: seq<Attempt>, next: Attempt, q: Quota)
    requires MonotoneClock(attempts + [next])
    ensures Expire(Play(attempts, q).events, next.now - WINDOW) == During(Play(attempts, q).history, Recent(next.now))
  {
    EarlierAttempts(attempts, next);
    HistoryInOrder(attempts, q);
    LiveIsRecent(Play(attempts, q).history, next.now);
    if attempts != [] {
      PlayIsSound(attempts, q);
      SameLiveAt(Play(attempts, q), attempts[|attempts| - 1].now, next.now);
    }
  }

  lemma SameLiveAt(s: Record, now: real, later: real)
    requires SameLive(s, now) && now <= later
    ensures Expire(s.history, later - WINDOW) == Expire(s.events, later - WINDOW)
  {
  }

  // An attempt is admitted exactly if fewer than requestsPerMinute attempts were admitted in the last 60 seconds and
  // their estimates leave room for its own, each taken as at least 1 and at most the quota.
  lemma AdmittedExactly(attempts: seq<Attempt>, next: Attempt, q: Quota)
    requires MonotoneClock(attempts + [next])
    ensures var recent := AdmittedAt(attempts, q, Recent(next.now));
      Admits(Play(attempts, q), next, q) <==>
      |recent| < q.requestsPerMinute && Estimates(recent + [next], q.tokensPerMinute) <= q.tokensPerMinute
  {
    var recent := AdmittedAt(attempts, q, Recent(next.now));
    var live := During(Play(attempts, q).history, Recent(next.now));
    DequeIsRecent(attempts, next, q);
    HistoryIsAdmitted(attempts, q, Recent(next.now));
    EstimatesSnoc(recent, next, q);
    AdmittedIfFits(Play(attempts, q), live, next, q);
  }

  lemma AdmittedIfFits(s: Record, live: seq<Admission>, next: Attempt, q: Quota)
    requires Expire(s.events, next.now - WINDOW) == live
    ensures Admits(s, next, q) <==> |live| < q.requestsPerMinute && Tokens(live) + Charge(next.estimated, q) <= q.tokensPerMinute
  {
  }
}
