/**
 The crash-loop limiter: a sliding window of respawn attempts with exponential backoff.
 Instants are integers (seconds on a monotone clock). What the environment decides is a
 script: for each attempt, how long the respawn takes beyond the backoff and whether it works.
 */
module CrashLoop {
  const MAX_RESTARTS: nat := 5
  const RESTART_WINDOW: int := 600
  const INITIAL_BACKOFF: nat := 2
  const MAX_BACKOFF: nat := 60

  datatype Attempt = Attempt(takes: nat, succeeds: bool)

  datatype Outcome = Respawned | CrashLooped | StillTrying

  /** The end of one call: the outcome, every attempt of the monitor so far, the window, the clock. */
  datatype Result = Result(outcome: Outcome, history: seq<int>, window: seq<int>, now: int)

  function NextBackoff(b: nat): nat { if 2 * b < MAX_BACKOFF then 2 * b else MAX_BACKOFF }

  /** Drop the attempts at the front that are older than the window. */
  function Expire(window: seq<int>, now: int): seq<int> {
    if window != [] && now - window[0] > RESTART_WINDOW then Expire(window[1..], now) else window
  }

  /** One call of the restart loop, until it succeeds, gives up, or the script ends. */
  function Restart(history: seq<int>, window: seq<int>, now: int, backoff: nat, script: seq<Attempt>): Result
    decreases |script|
  {
    var kept := Expire(window, now);
    if |kept| >= MAX_RESTARTS then Result(CrashLooped, history, kept, now)
    else if script == [] then Result(StillTrying, history, kept, now)
    else
      var later := now + backoff + script[0].takes;
      if script[0].succeeds then Result(Respawned, history + [now], kept + [now], later)
      else Restart(history + [now], kept + [now], later, NextBackoff(backoff), script[1..])
  }

  /** Any two attempts at least five apart are more than the window apart. */
  predicate Spaced(history: seq<int>) {
    forall i, j :: 0 <= i < j < |history| && j - i >= MAX_RESTARTS ==> FarApart(history, i, j)
  }

  predicate FarApart(history: seq<int>, i: int, j: int)
    requires 0 <= i < j < |history|
  {
    history[j] - history[i] > RESTART_WINDOW
  }

  /** The window is the tail of the history; everything before it is out of the window. */
  predicate Tracks(history: seq<int>, window: seq<int>, now: int) {
    && IsTail(history, window) && UpTo(history, now)
    && (forall i :: 0 <= i < |history| - |window| ==> now - history[i] > RESTART_WINDOW)
    && Spaced(history)
  }

  predicate IsTail(history: seq<int>, window: seq<int>) {
    |window| <= |history| && window == history[|history| - |window|..]
  }

  predicate InOrder(history: seq<int>, i: int, j: int)
    requires 0 <= i < j < |history|
  {
    history[i] <= history[j]
  }

  /** Recorded in order, none in the future. */
  predicate UpTo(history: seq<int>, now: int) {
    && (forall i, j :: 0 <= i < j < |history| ==> InOrder(history, i, j))
    && (forall i :: 0 <= i < |history| ==> history[i] <= now)
  }

  lemma {:induction false} ExpireTracks(history: seq<int>, window: seq<int>, now: int)
    requires Tracks(history, window, now)
    ensures Tracks(history, Expire(window, now), now)
    decreases |window|
  {
    if window != [] && now - window[0] > RESTART_WINDOW {
      assert window[1..] == history[|history| - |window| + 1..];
      assert history[|history| - |window|] == window[0];
      ExpireTracks(history, window[1..], now);
    }
  }

  /** Recording an attempt while fewer than five are in the window keeps the spacing. */
  lemma RecordTracks(history: seq<int>, window: seq<int>, now: int)
    requires Tracks(history, window, now) && |window| < MAX_RESTARTS
    ensures Tracks(history + [now], window + [now], now)
  {
    var all := history + [now];
    assert window + [now] == all[|all| - |window| - 1..];
    forall i, j | 0 <= i < j < |all| && j - i >= MAX_RESTARTS ensures FarApart(all, i, j) {
      if j < |history| { assert FarApart(history, i, j); }
    }
    forall i, j | 0 <= i < j < |all| ensures InOrder(all, i, j) {
      if j < |history| { assert InOrder(history, i, j); }
    }
  }

  lemma LaterTracks(history: seq<int>, window: seq<int>, now: int, later: int)
    requires Tracks(history, window, now) && now <= later
    ensures Tracks(history, window, later)
  {
  }

  /** One pass of the loop: the check, and the attempt recorded if there is room for one. */
  lemma AttemptTracks(history: seq<int>, window: seq<int>, now: int, later: int)
    requires Tracks(history, window, now) && now <= later
    ensures Tracks(history, Expire(window, now), now)
    ensures |Expire(window, now)| < MAX_RESTARTS ==> Tracks(history + [now], Expire(window, now) + [now], later)
  {
    ExpireTracks(history, window, now);
    if |Expire(window, now)| < MAX_RESTARTS {
      RecordTracks(history, Expire(window, now), now);
      LaterTracks(history + [now], Expire(window, now) + [now], now, later);
    }
  }

  /** A call keeps the history spaced, whatever the script does. */
  lemma {:induction false} RestartTracks(
      history: seq<int>, window: seq<int>, now: int, backoff: nat, script: seq<Attempt>)
    requires Tracks(history, window, now)
    ensures var r := Restart(history, window, now, backoff, script);
            Tracks(r.history, r.window, r.now) && now <= r.now
    decreases |script|
  {
    AttemptTracks(history, window, now, now);
    var kept := Expire(window, now);
    if |kept| < MAX_RESTARTS && script != [] {
      var later := now + backoff + script[0].takes;
      LaterTracks(history + [now], kept + [now], now, later);
      if !script[0].succeeds {
        RestartTracks(history + [now], kept + [now], later, NextBackoff(backoff), script[1..]);
      }
    }
  }

  /** The total the first `n` respawns take beyond their backoffs. */
  function TakesOf(script: seq<Attempt>, n: nat): nat
    requires n <= |script|
  {
    if n == 0 then 0 else TakesOf(script, n - 1) + script[n - 1].takes
  }

  lemma ExpireKeepsAll(window: seq<int>, now: int)
    ensures |Expire(window, now)| <= |window|
    ensures |Expire(window, now)| == |window| <==> Expire(window, now) == window
    ensures Expire(window, now) == window <==> window == [] || now - window[0] <= RESTART_WINDOW
  {
    if window != [] && now - window[0] > RESTART_WINDOW { ExpireShorter(window[1..], now); }
  }

  lemma {:induction false} ExpireShorter(window: seq<int>, now: int)
    ensures |Expire(window, now)| <= |window|
  {
    if window != [] && now - window[0] > RESTART_WINDOW { ExpireShorter(window[1..], now); }
  }

  /** The window after `n` failing attempts, the instant of the next check, and its backoff. */
  function WindowAfter(now: int, script: seq<Attempt>, n: nat): (seq<int>, int, nat)
    requires n <= |script|
  {
    if n == 0 then ([], now, INITIAL_BACKOFF)
    else
      var (window, t, backoff) := WindowAfter(now, script, n - 1);
      (Expire(window, t) + [t], t + backoff + script[n - 1].takes, NextBackoff(backoff))
  }

  /** The first five attempts are always made; after `n` failures the call is where WindowAfter says. */
  lemma {:induction false} AttemptsAreMade(now: int, script: seq<Attempt>, n: nat) returns (history: seq<int>)
    requires n <= |script| && n <= MAX_RESTARTS && forall i :: 0 <= i < n ==> !script[i].succeeds
    ensures var (window, t, backoff) := WindowAfter(now, script, n);
            && |history| == n && |window| <= n
            && Restart([], [], now, INITIAL_BACKOFF, script) == Restart(history, window, t, backoff, script[n..])
  {
    if n == 0 {
      history := [];
      assert script[0..] == script;
    } else {
      history := AttemptsAreMade(now, script, n - 1);
      var (window, t, backoff) := WindowAfter(now, script, n - 1);
      ExpireKeepsAll(window, t);
      assert script[n - 1..][1..] == script[n..];
      history := history + [t];
    }
  }

  lemma {:induction false} HistoryGrows(
      history: seq<int>, window: seq<int>, now: int, backoff: nat, script: seq<Attempt>)
    ensures history <= Restart(history, window, now, backoff, script).history
    decreases |script|
  {
    var kept := Expire(window, now);
    if |kept| < MAX_RESTARTS && script != [] && !script[0].succeeds {
      HistoryGrows(history + [now], kept + [now], now + backoff + script[0].takes, NextBackoff(backoff), script[1..]);
    }
  }

  /** Nothing has expired after `n` attempts exactly when the first is still inside the window. */
  lemma {:induction false} WindowFullWhen(now: int, script: seq<Attempt>, n: nat)
    requires n <= |script|
    ensures var (window, t, backoff) := WindowAfter(now, script, n);
            && now <= t
            && (|window| == n && n > 0 ==> window[0] == now)
            && |window| <= n
            && (t - now <= RESTART_WINDOW ==> |window| == n)
  {
    if n > 0 {
      WindowFullWhen(now, script, n - 1);
      var (window, t, backoff) := WindowAfter(now, script, n - 1);
      ExpireKeepsAll(window, t);
    }
  }

  lemma FiveBackoffs(now: int, script: seq<Attempt>)
    requires |script| >= 5
    ensures WindowAfter(now, script, 5).1 == now + 2 + 4 + 8 + 16 + 32 + TakesOf(script, 5)
  {
    assert WindowAfter(now, script, 1).1 == now + 2 + TakesOf(script, 1) && WindowAfter(now, script, 1).2 == 4;
    assert WindowAfter(now, script, 2).1 == now + 6 + TakesOf(script, 2) && WindowAfter(now, script, 2).2 == 8;
    assert WindowAfter(now, script, 3).1 == now + 14 + TakesOf(script, 3) && WindowAfter(now, script, 3).2 == 16;
    assert WindowAfter(now, script, 4).1 == now + 30 + TakesOf(script, 4) && WindowAfter(now, script, 4).2 == 32;
  }

  /** From an empty window, five failing respawns end the call with the agent Failed after
      exactly those five attempts if and only if they take at most 538 s beyond their backoffs. */
  lemma FiveFailuresEndIt(now: int, script: seq<Attempt>)
    requires |script| >= 5 && forall i :: 0 <= i < 5 ==> !script[i].succeeds
    ensures var r := Restart([], [], now, INITIAL_BACKOFF, script);
            (r.outcome == CrashLooped && |r.history| == 5) <==> TakesOf(script, 5) <= 538
  {
    var (window, t, backoff) := WindowAfter(now, script, 5);
    var history := AttemptsAreMade(now, script, 5);
    WindowFullWhen(now, script, 5);
    FiveBackoffs(now, script);
    ExpireKeepsAll(window, t);
    var kept := Expire(window, t);
    if |kept| < MAX_RESTARTS && script[5..] != [] && !script[5..][0].succeeds {
      var next := t + backoff + script[5..][0].takes;
      HistoryGrows(history + [t], kept + [t], next, NextBackoff(backoff), script[5..][1..]);
    }
  }

  // ---- One call on the clock ----

  /** How long the call waits before its attempt `i`, in seconds. */
  function Wait(i: nat): nat { if i < 5 then [2, 4, 8, 16, 32][i] else 60 }

  lemma WaitsDouble(i: nat)
    ensures Wait(0) == INITIAL_BACKOFF && NextBackoff(Wait(i)) == Wait(i + 1)
  {
  }

  /** When a call that began at `now` makes its check number `n`, the first `n` respawns having failed. */
  function CheckAt(now: int, script: seq<Attempt>, n: nat): int
    requires n <= |script|
  {
    if n == 0 then now else CheckAt(now, script, n - 1) + Wait(n - 1) + script[n - 1].takes
  }

  /** The fifth most recent attempt is at most 600 s ago. */
  predicate FiveRecent(history: seq<int>, now: int) { |history| >= 5 && now - history[|history| - 5] <= 600 }

  predicate AttemptedAt(history: seq<int>, before: nat, now: int, script: seq<Attempt>, n: nat)
    requires |history| == before + n && n <= |script|
  {
    forall k: nat :: k < n ==> history[before + k] == CheckAt(now, script, k)
  }

  predicate AllFail(script: seq<Attempt>, n: nat)
    requires n <= |script|
  {
    forall k: nat :: k < n ==> !script[k].succeeds
  }

  /** A call on the clock: it attempts at its checks until an attempt succeeds, or five attempts
      are recent at a check, or the script ends; and the outcome says which. */
  predicate OnTheClock(history: seq<int>, now: int, script: seq<Attempt>, r: Result) {
    var n := |r.history| - |history|;
    && history <= r.history && n <= |script|
    && AttemptedAt(r.history, |history|, now, script, n)
    && r.now == CheckAt(now, script, n)
    && (n > 0 ==> AllFail(script, n - 1))
    && match r.outcome
       case Respawned => n > 0 && script[n - 1].succeeds
       case CrashLooped => AllFail(script, n) && FiveRecent(r.history, r.now)
       case StillTrying => AllFail(script, n) && n == |script| && !FiveRecent(r.history, r.now)
  }

  lemma {:induction false} ExpiredHead(window: seq<int>, now: int)
    ensures Expire(window, now) == [] || now - Expire(window, now)[0] <= RESTART_WINDOW
  {
    if window != [] && now - window[0] > RESTART_WINDOW { ExpiredHead(window[1..], now); }
  }

  /** The window is full exactly when five attempts are recent. */
  lemma FullMeansRecent(history: seq<int>, window: seq<int>, now: int)
    requires Tracks(history, window, now)
    ensures |Expire(window, now)| >= MAX_RESTARTS <==> FiveRecent(history, now)
  {
    var kept := Expire(window, now);
    ExpireTracks(history, window, now);
    ExpiredHead(window, now);
    if |kept| > 5 { assert InOrder(history, |history| - |kept|, |history| - 5); }
  }

  /** The attempts recorded so far, all at their checks and all failed. */
  predicate SoFar(before: seq<int>, start: int, script: seq<Attempt>, n: nat, history: seq<int>) {
    && n <= |script| && |history| == |before| + n && before <= history
    && AttemptedAt(history, |before|, start, script, n) && AllFail(script, n)
  }

  /** The call as it goes on at check `n`. */
  function From(start: int, script: seq<Attempt>, n: nat, history: seq<int>, window: seq<int>): Result
    requires n <= |script|
  {
    Restart(history, window, CheckAt(start, script, n), Wait(n), script[n..])
  }

  lemma FailOnTheClock(before: seq<int>, start: int, script: seq<Attempt>, n: nat, history: seq<int>)
    requires n < |script| && SoFar(before, start, script, n, history) && !script[n].succeeds
    ensures SoFar(before, start, script, n + 1, history + [CheckAt(start, script, n)])
  {
  }

  lemma SuccessOnTheClock(before: seq<int>, start: int, script: seq<Attempt>, n: nat, history: seq<int>, r: Result)
    requires n < |script| && SoFar(before, start, script, n, history) && script[n].succeeds
    requires r.outcome == Respawned && r.now == CheckAt(start, script, n + 1)
    requires r.history == history + [CheckAt(start, script, n)]
    ensures OnTheClock(before, start, script, r)
  {
  }

  /** A check at which no further attempt is made. */
  lemma EndOnTheClock(before: seq<int>, start: int, script: seq<Attempt>, n: nat, history: seq<int>, r: Result)
    requires SoFar(before, start, script, n, history) && r.history == history && r.now == CheckAt(start, script, n)
    requires if FiveRecent(history, r.now) then r.outcome == CrashLooped else r.outcome == StillTrying && n == |script|
    ensures OnTheClock(before, start, script, r)
  {
  }

  /** A check at which a failing attempt is made. */
  lemma FailedOnce(start: int, script: seq<Attempt>, n: nat, history: seq<int>, window: seq<int>)
    returns (window': seq<int>)
    requires n < |script| && !script[n].succeeds
    requires Tracks(history, window, CheckAt(start, script, n)) && !FiveRecent(history, CheckAt(start, script, n))
    ensures var now := CheckAt(start, script, n);
            && Tracks(history + [now], window', CheckAt(start, script, n + 1))
            && From(start, script, n, history, window) == From(start, script, n + 1, history + [now], window')
  {
    var now := CheckAt(start, script, n);
    RestartOnce(history, window, now, Wait(n), script, n);
    FullMeansRecent(history, window, now);
    AttemptTracks(history, window, now, CheckAt(start, script, n + 1));
    WaitsDouble(n);
    window' := Expire(window, now) + [now];
  }

  lemma {:induction false} RunsOnTheClock(
      before: seq<int>, start: int, script: seq<Attempt>, n: nat, history: seq<int>, window: seq<int>)
    requires SoFar(before, start, script, n, history) && Tracks(history, window, CheckAt(start, script, n))
    ensures OnTheClock(before, start, script, From(start, script, n, history, window))
    decreases |script| - n
  {
    var now := CheckAt(start, script, n);
    RestartOnce(history, window, now, Wait(n), script, n);
    FullMeansRecent(history, window, now);
    if FiveRecent(history, now) || n == |script| {
      EndOnTheClock(before, start, script, n, history, From(start, script, n, history, window));
    } else if script[n].succeeds {
      SuccessOnTheClock(before, start, script, n, history, From(start, script, n, history, window));
    } else {
      var window' := FailedOnce(start, script, n, history, window);
      FailOnTheClock(before, start, script, n, history);
      RunsOnTheClock(before, start, script, n + 1, history + [now], window');
    }
  }

  /** Every call runs on the clock: waits of 2, 4, 8, 16, 32 and then 60 s, success at the first
      attempt that succeeds, and a crash loop exactly when five attempts fall into 600 s. */
  lemma CallRunsOnTheClock(history: seq<int>, window: seq<int>, now: int, script: seq<Attempt>)
    requires Tracks(history, window, now)
    ensures OnTheClock(history, now, script, Restart(history, window, now, INITIAL_BACKOFF, script))
  {
    assert script[0..] == script;
    RunsOnTheClock(history, now, script, 0, history, window);
  }

  // ---- The loop itself ----

  /** One turn of the loop, from any place in the script. */
  lemma RestartOnce(history: seq<int>, window: seq<int>, now: int, backoff: nat, script: seq<Attempt>, i: nat)
    requires i <= |script|
    ensures var r, kept := Restart(history, window, now, backoff, script[i..]), Expire(window, now);
            if |kept| >= MAX_RESTARTS then r == Result(CrashLooped, history, kept, now)
            else if i == |script| then r == Result(StillTrying, history, kept, now)
            else
              var later := now + backoff + script[i].takes;
              r == if script[i].succeeds then Result(Respawned, history + [now], kept + [now], later)
                   else Restart(history + [now], kept + [now], later, NextBackoff(backoff), script[i + 1..])
  {
    if i < |script| { assert script[i..][0] == script[i] && script[i..][1..] == script[i + 1..]; }
  }

  class Monitor {
    var restartTimes: seq<int>
    var history: seq<int>
    var now: int
    var failed: bool  // the agent's stored record says Failed

    predicate Valid()
      reads this
    {
      Tracks(history, restartTimes, now)
    }

    constructor (now: int)
      ensures Valid() && history == [] && restartTimes == [] && this.now == now && !failed
    {
      restartTimes, history, this.now, failed := [], [], now, false;
    }

    /** Forget the attempts that have left the window. */
    method ExpireOld()
      modifies this`restartTimes
      ensures restartTimes == Expire(old(restartTimes), now)
    {
      while restartTimes != [] && now - restartTimes[0] > RESTART_WINDOW
        invariant Expire(restartTimes, now) == Expire(old(restartTimes), now)
      {
        restartTimes := restartTimes[1..];
      }
    }

    method RestartWithBackoff(script: seq<Attempt>) returns (outcome: Outcome)
      requires Valid()
      modifies this
      ensures Valid() && old(history) <= history && old(now) <= now
      ensures Result(outcome, history, restartTimes, now)
              == Restart(old(history), old(restartTimes), old(now), INITIAL_BACKOFF, script)
      ensures failed == (old(failed) || outcome == CrashLooped)
    {
      ghost var r := Restart(history, restartTimes, now, INITIAL_BACKOFF, script);
      RestartTracks(history, restartTimes, now, INITIAL_BACKOFF, script);
      HistoryGrows(history, restartTimes, now, INITIAL_BACKOFF, script);
      var backoff: nat := INITIAL_BACKOFF;
      var attempt: nat := 0;
      assert script[0..] == script;
      while true
        invariant attempt <= |script|
        invariant Restart(history, restartTimes, now, backoff, script[attempt..]) == r
        invariant failed == old(failed)
        decreases |script| - attempt
      {
        RestartOnce(history, restartTimes, now, backoff, script, attempt);
        ExpireOld();
        if |restartTimes| >= MAX_RESTARTS {
          failed := true;
          return CrashLooped;
        }
        if attempt == |script| { return StillTrying; }
        restartTimes := restartTimes + [now];
        history := history + [now];
        now := now + backoff + script[attempt].takes;
        attempt := attempt + 1;
        if script[attempt - 1].succeeds { return Respawned; }
        backoff := NextBackoff(backoff);
      }
    }
  }

  // ---- A monitor's whole life ----

  /** A crash some time after the last call, followed by one call. */
  datatype Crash = Crash(gap: nat, script: seq<Attempt>)

  /** Every attempt a monitor records until it gives up or the crashes end. */
  function Life(history: seq<int>, window: seq<int>, now: int, crashes: seq<Crash>): seq<int>
    decreases |crashes|
  {
    if crashes == [] then history
    else
      var r := Restart(history, window, now + crashes[0].gap, INITIAL_BACKOFF, crashes[0].script);
      if r.outcome == CrashLooped then r.history else Life(r.history, r.window, r.now, crashes[1..])
  }

  /** Over a monitor's whole life recorded attempts five apart are more than 600 s apart. */
  lemma {:induction false} LifeIsSpaced(history: seq<int>, window: seq<int>, now: int, crashes: seq<Crash>)
    requires Tracks(history, window, now)
    ensures Spaced(Life(history, window, now, crashes))
    decreases |crashes|
  {
    if crashes != [] {
      var t := now + crashes[0].gap;
      var r := Restart(history, window, t, INITIAL_BACKOFF, crashes[0].script);
      LaterTracks(history, window, now, t);
      RestartTracks(history, window, t, INITIAL_BACKOFF, crashes[0].script);
      if r.outcome != CrashLooped { LifeIsSpaced(r.history, r.window, r.now, crashes[1..]); }
    }
  }
}
