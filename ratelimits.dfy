/**
 * The dual-window rate limiter of mart_music/ratelimits.py.
 *
 * A gate counts calls in a "second" window and a "minute" window. As the
 * source is written, each window lasts as many time units as its call limit
 * (the remaining time is `limit - elapsed`), so a tier-2 gate has a 4-unit
 * short window and a 120-unit long one. Clock readings are parameters: `now`
 * is the reading taken to compute the remaining time and `later` the separate
 * reading stored when a window resets.
 */
module RateLimits {
  import opened Wrappers

  /** The three quota tiers; a token names its tier in its first two characters. */
  datatype Tier = T1 | T2 | T3

  /** The key under which a tier appears in the rate tables. */
  function TierName(t: Tier): string
  {
    match t
    case T1 => "T1"
    case T2 => "T2"
    case T3 => "T3"
  }

  /** RATES_PER_SECOND: the calls allowed in one short window. */
  function PerSecond(t: Tier): (n: nat)
    ensures 1 <= n <= 10
  {
    match t
    case T1 => 1
    case T2 => 4
    case T3 => 10
  }

  /** RATES_PER_MINUTE: the calls allowed in one long window. */
  function PerMinute(t: Tier): (n: nat)
    ensures 30 <= n <= 300
    ensures PerSecond(t) < n
  {
    match t
    case T1 => 30
    case T2 => 120
    case T3 => 300
  }

  /** Raised by construction when the token's prefix is not a key of the tables. */
  datatype Error = UnknownTier(prefix: string)

  /** `token[:2]`: the first two characters, or the whole token when it is shorter. */
  function Prefix(token: string): (p: string)
    ensures |p| == if |token| < 2 then |token| else 2
    ensures p <= token
  {
    if |token| < 2 then token else token[..2]
  }

  /** The tier a token belongs to, or the lookup error for an unknown prefix. */
  function TierOf(token: string): (r: Result<Tier, Error>)
    ensures r.Success? ==> TierName(r.value) == Prefix(token)
    ensures r.Failure? ==> r.error == UnknownTier(Prefix(token))
    ensures r.Failure? <==> forall t: Tier :: TierName(t) != Prefix(token)
  {
    var p := Prefix(token);
    if p == "T1" then Success(T1)
    else if p == "T2" then Success(T2)
    else if p == "T3" then Success(T3)
    else Failure(UnknownTier(p))
  }

  /** Any token that starts with a tier's name selects that tier, whatever follows. */
  lemma TierOfName(t: Tier, rest: string)
    ensures TierOf(TierName(t) + rest) == Success(t)
  {
  }

  /** One counting window: the calls counted since its last reset, and when that was. */
  datatype Window = Window(calls: int, lastReset: real)

  /** What a check reports: whether the caller is limited, and how long to sleep. */
  datatype Verdict = Verdict(limited: bool, wait: real)

  /** A window is over once as much time as its limit has passed since its reset. */
  predicate Expired(w: Window, limit: nat, now: real)
  {
    now - w.lastReset >= limit as real
  }

  /** `time_remaining_*`: the time left in the window at reading `now`. */
  function Remaining(w: Window, limit: nat, now: real): (r: real)
    ensures r <= 0.0 <==> Expired(w, limit, now)
    ensures w.lastReset <= now ==> r <= limit as real
  {
    limit as real - (now - w.lastReset)
  }

  /** A window after a check, and the verdict of that check. */
  datatype Checked = Checked(window: Window, verdict: Verdict)

  /**
   * `hitting_second_ratelimit` / `hitting_minute_ratelimit` on values: reset an
   * expired window, count the call, and limit it when the count exceeds the limit.
   */
  function CheckWindow(w: Window, limit: nat, now: real, later: real): (r: Checked)
    requires 1 <= limit
    ensures Expired(w, limit, now) ==> r.window == Window(1, later)
    ensures !Expired(w, limit, now) ==> r.window == Window(w.calls + 1, w.lastReset)
    ensures r.verdict.limited <==> r.window.calls > limit
    ensures !r.verdict.limited ==> r.verdict.wait == 0.0
    ensures r.verdict.limited ==> !Expired(w, limit, now) && r.verdict.wait == Remaining(w, limit, now)
    ensures r.verdict.limited ==> 0.0 < r.verdict.wait
    ensures r.verdict.limited && w.lastReset <= now ==> r.verdict.wait <= limit as real
    ensures Expired(w, limit, now) ==> !r.verdict.limited
  {
    var waitTime := Remaining(w, limit, now);
    var reset := if waitTime <= 0.0 then Window(0, later) else w;
    var counted := reset.(calls := reset.calls + 1);
    if counted.calls > limit then Checked(counted, Verdict(true, waitTime))
    else Checked(counted, Verdict(false, 0.0))
  }

  /** Once the wait a limited check reported has passed, the same window admits again. */
  lemma AdmitsAfterWait(w: Window, limit: nat, now: real, later: real, now2: real, later2: real)
    requires 1 <= limit
    requires CheckWindow(w, limit, now, later).verdict.limited
    requires now2 >= now + CheckWindow(w, limit, now, later).verdict.wait
    ensures !CheckWindow(CheckWindow(w, limit, now, later).window, limit, now2, later2).verdict.limited
  {
  }

  /** The two clock readings one window check takes. */
  datatype Reading = Reading(now: real, later: real)

  /** Successive checks of one window: the final window and each check's verdict. */
  function Run(w: Window, limit: nat, rs: seq<Reading>): (r: (Window, seq<Verdict>))
    requires 1 <= limit
    ensures |r.1| == |rs|
    decreases |rs|
  {
    if rs == [] then (w, [])
    else
      var c := CheckWindow(w, limit, rs[0].now, rs[0].later);
      var rest := Run(c.window, limit, rs[1..]);
      (rest.0, [c.verdict] + rest.1)
  }

  /**
   * While a window does not expire, every check adds one call, and the k-th
   * check is limited exactly when the count before the run plus k + 1 exceeds
   * the limit; a limited check reports the time left in the window.
   */
  lemma {:induction false} WithinOneWindow(w: Window, limit: nat, rs: seq<Reading>)
    requires 1 <= limit
    requires forall i :: 0 <= i < |rs| ==> !Expired(w, limit, rs[i].now)
    ensures Run(w, limit, rs).0 == Window(w.calls + |rs|, w.lastReset)
    ensures forall k :: 0 <= k < |rs| ==>
      (Run(w, limit, rs).1[k].limited <==> w.calls + k + 1 > limit)
    ensures forall k :: 0 <= k < |rs| ==>
      Run(w, limit, rs).1[k].wait == if w.calls + k + 1 > limit then Remaining(w, limit, rs[k].now) else 0.0
    decreases |rs|
  {
    if rs != [] {
      var c := CheckWindow(w, limit, rs[0].now, rs[0].later);
      assert c.window == Window(w.calls + 1, w.lastReset);
      var tail := rs[1..];
      forall i | 0 <= i < |tail| ensures !Expired(c.window, limit, tail[i].now) {
        assert tail[i] == rs[i + 1];
      }
      WithinOneWindow(c.window, limit, tail);
      var run := Run(w, limit, rs);
      assert run.1 == [c.verdict] + Run(c.window, limit, tail).1;
      forall k | 1 <= k < |rs|
        ensures (run.1[k].limited <==> w.calls + k + 1 > limit)
        ensures run.1[k].wait == if w.calls + k + 1 > limit then Remaining(w, limit, rs[k].now) else 0.0
      {
        assert run.1[k] == Run(c.window, limit, tail).1[k - 1];
        assert tail[k - 1] == rs[k];
      }
    }
  }

  /**
   * A check that finds its window expired opens a new one, and of that check
   * and the ones after it that stay in the new window, exactly the first
   * `limit` are admitted and every later one is limited.
   */
  lemma {:induction false} FreshWindow(w: Window, limit: nat, first: Reading, rs: seq<Reading>)
    requires 1 <= limit
    requires Expired(w, limit, first.now)
    requires forall i :: 0 <= i < |rs| ==> rs[i].now - first.later < limit as real
    ensures forall k :: 0 <= k <= |rs| ==> (Run(w, limit, [first] + rs).1[k].limited <==> k >= limit)
  {
    var all := [first] + rs;
    var c := CheckWindow(w, limit, first.now, first.later);
    assert c.window == Window(1, first.later);
    assert all[0] == first && all[1..] == rs;
    WithinOneWindow(c.window, limit, rs);
    var run := Run(w, limit, all);
    assert run.1 == [c.verdict] + Run(c.window, limit, rs).1;
    forall k | 1 <= k <= |rs| ensures (run.1[k].limited <==> k >= limit) {
      assert run.1[k] == Run(c.window, limit, rs).1[k - 1];
    }
  }

  /** Both windows of a gate. */
  datatype Gate = Gate(second: Window, minute: Window)

  /** A gate after a check, and the verdict of that check. */
  datatype GateChecked = GateChecked(gate: Gate, verdict: Verdict)

  /**
   * `hitting_ratelimit` on values: the second window is checked with readings
   * t0, t1; only if it admits is the minute window checked, with t2, t3.
   */
  function CheckGate(g: Gate, perSecond: nat, perMinute: nat, t0: real, t1: real, t2: real, t3: real): (r: GateChecked)
    requires 1 <= perSecond && 1 <= perMinute
    ensures r.gate.second == CheckWindow(g.second, perSecond, t0, t1).window
    ensures r.verdict.limited <==> r.gate.second.calls > perSecond || r.gate.minute.calls > perMinute
    ensures r.gate.second.calls > perSecond ==>
      r.gate.minute == g.minute && r.verdict == Verdict(true, Remaining(g.second, perSecond, t0))
    ensures r.gate.second.calls <= perSecond ==>
      r.gate.minute == CheckWindow(g.minute, perMinute, t2, t3).window &&
      r.verdict == CheckWindow(g.minute, perMinute, t2, t3).verdict
    ensures r.verdict.limited ==> 0.0 < r.verdict.wait
    ensures !r.verdict.limited ==> r.verdict.wait == 0.0
  {
    var s := CheckWindow(g.second, perSecond, t0, t1);
    if s.verdict.limited then GateChecked(Gate(s.window, g.minute), s.verdict)
    else
      var m := CheckWindow(g.minute, perMinute, t2, t3);
      GateChecked(Gate(s.window, m.window), m.verdict)
  }

  /** The rate limiter of one route: two counters, two reset times, two fixed limits. */
  class RatelimitHandler {
    ghost const tier: Tier
    const perSecond: nat
    const perMinute: nat
    var amountCallsSecond: int
    var amountCallsMinute: int
    var lastResetSecond: real
    var lastResetMinute: real
    /** The latest clock reading the gate has been given. */
    ghost var clock: real

    ghost predicate Valid()
      reads this
    {
      perSecond == PerSecond(tier) && perMinute == PerMinute(tier) &&
      0 <= amountCallsSecond && 0 <= amountCallsMinute &&
      lastResetSecond <= clock && lastResetMinute <= clock
    }

    function SecondWindow(): Window
      reads this
    {
      Window(amountCallsSecond, lastResetSecond)
    }

    function MinuteWindow(): Window
      reads this
    {
      Window(amountCallsMinute, lastResetMinute)
    }

    ghost function State(): Gate
      reads this
    {
      Gate(SecondWindow(), MinuteWindow())
    }

    /** A gate for a known tier, created at readings t0 (second window) and t1 (minute window). */
    constructor (tier: Tier, t0: real, t1: real)
      requires t0 <= t1
      ensures Valid() && this.tier == tier && clock == t1
      ensures perSecond == PerSecond(tier) && perMinute == PerMinute(tier)
      ensures State() == Gate(Window(0, t0), Window(0, t1))
    {
      this.tier := tier;
      perSecond := PerSecond(tier);
      perMinute := PerMinute(tier);
      amountCallsSecond := 0;
      amountCallsMinute := 0;
      lastResetSecond := t0;
      lastResetMinute := t1;
      clock := t1;
    }

    /** `RatelimitHandler(token)`: fails for a token whose prefix names no tier. */
    static method New(token: string, t0: real, t1: real) returns (r: Result<RatelimitHandler, Error>)
      requires t0 <= t1
      ensures r.Failure? <==> TierOf(token).Failure?
      ensures r.Failure? ==> r.error == UnknownTier(Prefix(token))
      ensures r.Success? ==> fresh(r.value) && r.value.Valid() && r.value.clock == t1
      ensures r.Success? ==> r.value.tier == TierOf(token).value
      ensures r.Success? ==> r.value.State() == Gate(Window(0, t0), Window(0, t1))
    {
      var tier := TierOf(token);
      if tier.Failure? {
        return Failure(tier.error);
      }
      var handler := new RatelimitHandler(tier.value, t0, t1);
      return Success(handler);
    }

    function TimeRemainingSecond(now: real): (r: real)
      reads this
      ensures r <= 0.0 <==> Expired(SecondWindow(), perSecond, now)
      ensures lastResetSecond <= now ==> r <= perSecond as real
    {
      Remaining(SecondWindow(), perSecond, now)
    }

    function TimeRemainingMinute(now: real): (r: real)
      reads this
      ensures r <= 0.0 <==> Expired(MinuteWindow(), perMinute, now)
      ensures lastResetMinute <= now ==> r <= perMinute as real
    {
      Remaining(MinuteWindow(), perMinute, now)
    }

    method HittingSecondRatelimit(now: real, later: real) returns (limited: bool, wait: real)
      requires Valid() && clock <= now <= later
      modifies this
      ensures Valid() && clock == later
      ensures SecondWindow() == CheckWindow(old(SecondWindow()), perSecond, now, later).window
      ensures Verdict(limited, wait) == CheckWindow(old(SecondWindow()), perSecond, now, later).verdict
      ensures MinuteWindow() == old(MinuteWindow())
      ensures amountCallsSecond >= 1
    {
      var waitTime := TimeRemainingSecond(now);
      if waitTime <= 0.0 {
        amountCallsSecond := 0;
        lastResetSecond := later;
      }
      amountCallsSecond := amountCallsSecond + 1;
      clock := later;
      if amountCallsSecond > perSecond {
        return true, waitTime;
      }
      return false, 0.0;
    }

    method HittingMinuteRatelimit(now: real, later: real) returns (limited: bool, wait: real)
      requires Valid() && clock <= now <= later
      modifies this
      ensures Valid() && clock == later
      ensures MinuteWindow() == CheckWindow(old(MinuteWindow()), perMinute, now, later).window
      ensures Verdict(limited, wait) == CheckWindow(old(MinuteWindow()), perMinute, now, later).verdict
      ensures SecondWindow() == old(SecondWindow())
      ensures amountCallsMinute >= 1
    {
      var waitTime := TimeRemainingMinute(now);
      if waitTime <= 0.0 {
        amountCallsMinute := 0;
        lastResetMinute := later;
      }
      amountCallsMinute := amountCallsMinute + 1;
      clock := later;
      if amountCallsMinute > perMinute {
        return true, waitTime;
      }
      return false, 0.0;
    }

    /** Checks the second window, then the minute window only if the second one admitted. */
    method HittingRatelimit(t0: real, t1: real, t2: real, t3: real) returns (limited: bool, timeLeft: real)
      requires Valid() && clock <= t0 <= t1 <= t2 <= t3
      modifies this
      ensures Valid() && clock == t3
      ensures GateChecked(State(), Verdict(limited, timeLeft))
           == CheckGate(old(State()), perSecond, perMinute, t0, t1, t2, t3)
      ensures limited ==> 0.0 < timeLeft <= perMinute as real
    {
      limited, timeLeft := HittingSecondRatelimit(t0, t1);
      if !limited {
        limited, timeLeft := HittingMinuteRatelimit(t2, t3);
      }
      clock := t3;
    }

    /**
     * `wait` and `wait_async`: one check, and the time to sleep (or suspend)
     * when it limits; there is no second check after the sleep.
     */
    method Wait(t0: real, t1: real, t2: real, t3: real) returns (sleep: Option<real>)
      requires Valid() && clock <= t0 <= t1 <= t2 <= t3
      modifies this
      ensures Valid() && clock == t3
      ensures var c := CheckGate(old(State()), perSecond, perMinute, t0, t1, t2, t3);
        State() == c.gate && sleep == if c.verdict.limited then Some(c.verdict.wait) else None
      ensures sleep.Some? ==> 0.0 < sleep.value
    {
      var ratelimited, time := HittingRatelimit(t0, t1, t2, t3);
      if ratelimited {
        return Some(time);
      }
      return None;
    }
  }

  /**
   * A tier-1 gate (one call per window of one unit): a call at 0.0 is admitted,
   * one at 0.1 must sleep 0.9, and one at 1.05 finds the window over and is admitted.
   */
  method TierOneScenario()
  {
    var gate := new RatelimitHandler(T1, 0.0, 0.0);
    var sleep := gate.Wait(0.0, 0.0, 0.0, 0.0);
    assert sleep == None;
    sleep := gate.Wait(0.1, 0.1, 0.1, 0.1);
    assert sleep == Some(0.9);
    sleep := gate.Wait(1.05, 1.05, 1.05, 1.05);
    assert sleep == None;
    assert gate.amountCallsSecond == 1 && gate.amountCallsMinute == 2;
  }
}
