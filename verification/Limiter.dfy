/** The per-address limiter of failed handshakes, against its full history. */
module Limiter {

  type Ip = nat

  const U32: nat := 0x1_0000_0000

  datatype Event = Failure(ip: Ip, at: nat) | Success(ip: Ip)

  // ---------------------------------------------------------- the history

  /** When `ip` failed since it last succeeded. */
  function Outstanding(history: seq<Event>, ip: Ip): seq<nat>
  {
    if history == [] then []
    else
      var before := Outstanding(history[..|history| - 1], ip);
      match history[|history| - 1]
      case Failure(i, t) => if i == ip then before + [t] else before
      case Success(i) => if i == ip then [] else before
  }

  /** Those younger than the window; an instant in the future is of age zero. */
  function Live(ts: seq<nat>, now: nat, window: nat): seq<nat>
  {
    if ts == [] then []
    else
      var before := Live(ts[..|ts| - 1], now, window);
      if Age(now, ts[|ts| - 1]) < window then before + [ts[|ts| - 1]] else before
  }

  function Age(now: nat, t: nat): nat { if now >= t then now - t else 0 }

  lemma LiveSnoc(ts: seq<nat>, t: nat, now: nat, window: nat)
    ensures Live(ts + [t], now, window) == Live(ts, now, window) + (if Age(now, t) < window then [t] else [])
  {
    assert (ts + [t])[..|ts|] == ts;
  }

  /** Dropping what has aged out does not change what is live later. */
  lemma {:induction false} PruningForgetsNothing(ts: seq<nat>, now: nat, later: nat, window: nat)
    requires now <= later
    ensures Live(Live(ts, now, window), later, window) == Live(ts, later, window)
  {
    if ts != [] {
      var front, t := ts[..|ts| - 1], ts[|ts| - 1];
      PruningForgetsNothing(front, now, later, window);
      if Age(now, t) < window { LiveSnoc(Live(front, now, window), t, later, window); }
    }
  }

  /** Two records that no later check can tell apart. */
  ghost predicate Alike(a: seq<nat>, b: seq<nat>, now: nat, window: nat)
  {
    forall later: nat {:trigger Live(b, later, window)} :: later >= now ==>
        Live(a, later, window) == Live(b, later, window)
  }

  lemma AlikePruned(a: seq<nat>, b: seq<nat>, now: nat, next: nat, window: nat)
    requires Alike(a, b, now, window) && now <= next
    ensures Alike(Live(a, next, window), b, next, window)
  {
    forall later: nat | later >= next ensures Live(Live(a, next, window), later, window) == Live(b, later, window) {
      PruningForgetsNothing(a, next, later, window);
    }
  }

  lemma AlikeSnoc(a: seq<nat>, b: seq<nat>, now: nat, t: nat, window: nat)
    requires Alike(a, b, now, window)
    ensures Alike(a + [t], b + [t], now, window)
  {
    forall later: nat | later >= now ensures Live(a + [t], later, window) == Live(b + [t], later, window) {
      LiveSnoc(a, t, later, window);
      LiveSnoc(b, t, later, window);
    }
  }

  lemma AlikeLater(a: seq<nat>, b: seq<nat>, now: nat, next: nat, window: nat)
    requires Alike(a, b, now, window) && now <= next
    ensures Alike(a, b, next, window)
  {
  }

  // ---------------------------------------------------------- the limiter

  function Entries(state: map<Ip, seq<nat>>, ip: Ip): seq<nat>
  {
    if ip in state then state[ip] else []
  }

  /** The sweep: prune every entry, drop the ones left empty. */
  function Swept(state: map<Ip, seq<nat>>, now: nat, window: nat): map<Ip, seq<nat>>
  {
    map ip | ip in state && Live(state[ip], now, window) != [] :: Live(state[ip], now, window)
  }

  lemma SweptEntries(state: map<Ip, seq<nat>>, now: nat, window: nat, ip: Ip)
    ensures Entries(Swept(state, now, window), ip) == Live(Entries(state, ip), now, window)
  {
  }

  ghost predicate Agrees(state: map<Ip, seq<nat>>, history: seq<Event>, clock: nat, window: nat)
  {
    forall ip {:trigger Outstanding(history, ip)} :: Alike(Entries(state, ip), Outstanding(history, ip), clock, window)
  }

  lemma OutstandingSnoc(history: seq<Event>, e: Event, ip: Ip)
    ensures Outstanding(history + [e], ip) ==
            if e.ip != ip then Outstanding(history, ip)
            else if e.Failure? then Outstanding(history, ip) + [e.at] else []
  {
    assert (history + [e])[..|history|] == history;
  }

  lemma AgreesPruned(state: map<Ip, seq<nat>>, history: seq<Event>, clock: nat, now: nat, window: nat, ip: Ip)
    requires Agrees(state, history, clock, window) && clock <= now && ip in state
    ensures Agrees(state[ip := Live(state[ip], now, window)], history, now, window)
  {
    forall i ensures Alike(Entries(state[ip := Live(state[ip], now, window)], i), Outstanding(history, i), now,
        window) {
      AlikePruned(Entries(state, i), Outstanding(history, i), clock, now, window);
      AlikeLater(Entries(state, i), Outstanding(history, i), clock, now, window);
    }
  }

  lemma AgreesRecorded(state: map<Ip, seq<nat>>, history: seq<Event>, clock: nat, now: nat, window: nat, ip: Ip)
    requires Agrees(state, history, clock, window) && clock <= now
    ensures Agrees(state[ip := Live(Entries(state, ip), now, window) + [now]], history + [Failure(ip, now)], now,
              window)
  {
    var after := state[ip := Live(Entries(state, ip), now, window) + [now]];
    forall i ensures Alike(Entries(after, i), Outstanding(history + [Failure(ip, now)], i), now, window) {
      OutstandingSnoc(history, Failure(ip, now), i);
      AlikePruned(Entries(state, i), Outstanding(history, i), clock, now, window);
      AlikeSnoc(Live(Entries(state, i), now, window), Outstanding(history, i), now, now, window);
      AlikeLater(Entries(state, i), Outstanding(history, i), clock, now, window);
    }
  }

  lemma AgreesSwept(state: map<Ip, seq<nat>>, history: seq<Event>, now: nat, window: nat)
    requires Agrees(state, history, now, window)
    ensures Agrees(Swept(state, now, window), history, now, window)
  {
    forall i ensures Alike(Entries(Swept(state, now, window), i), Outstanding(history, i), now, window) {
      SweptEntries(state, now, window, i);
      AlikePruned(Entries(state, i), Outstanding(history, i), now, now, window);
    }
  }

  lemma AgreesForgiven(state: map<Ip, seq<nat>>, history: seq<Event>, now: nat, window: nat, ip: Ip)
    requires Agrees(state, history, now, window)
    ensures Agrees(state - {ip}, history + [Success(ip)], now, window)
  {
    forall i ensures Alike(Entries(state - {ip}, i), Outstanding(history + [Success(ip)], i), now, window) {
      OutstandingSnoc(history, Success(ip), i);
      assert Alike(Entries(state, i), Outstanding(history, i), now, window);
    }
  }

  lemma AgreesLater(state: map<Ip, seq<nat>>, history: seq<Event>, clock: nat, now: nat, window: nat)
    requires Agrees(state, history, clock, window) && clock <= now
    ensures Agrees(state, history, now, window)
  {
    forall i ensures Alike(Entries(state, i), Outstanding(history, i), now, window) {
      AlikeLater(Entries(state, i), Outstanding(history, i), clock, now, window);
    }
  }

  lemma AgreesLive(state: map<Ip, seq<nat>>, history: seq<Event>, clock: nat, now: nat, window: nat, ip: Ip)
    requires Agrees(state, history, clock, window) && clock <= now
    ensures Live(Entries(state, ip), now, window) == Live(Outstanding(history, ip), now, window)
  {
    assert Alike(Entries(state, ip), Outstanding(history, ip), clock, window);
  }

  // ------------------------------------------------------------ the answer

  /** What a check answers: an address that is not tracked may try; of one that
      is, the live failures are counted in 32 bits. */
  predicate Allows(state: map<Ip, seq<nat>>, ip: Ip, now: nat, window: nat, maxFailures: nat)
  {
    ip !in state || |Live(state[ip], now, window)| % U32 < maxFailures
  }

  lemma PositiveLimitAnswers(
    state: map<Ip, seq<nat>>, history: seq<Event>, clock: nat, now: nat, window: nat, maxFailures: nat, ip: Ip)
    requires Agrees(state, history, clock, window) && clock <= now && maxFailures > 0
    ensures var count := |Live(Outstanding(history, ip), now, window)|;
            Allows(state, ip, now, window, maxFailures) <==> count % U32 < maxFailures
  {
    AgreesLive(state, history, clock, now, window, ip);
  }

  /** A sweep leaves an answer as it was exactly when the limit is not zero, or
      the address was not tracked, or it still had a live failure. */
  lemma SweepIsHarmlessIff(state: map<Ip, seq<nat>>, now: nat, later: nat, window: nat, maxFailures: nat, ip: Ip)
    requires now <= later
    ensures var swept := Swept(state, now, window);
            (Allows(swept, ip, later, window, maxFailures) <==> Allows(state, ip, later, window, maxFailures))
            <==> maxFailures > 0 || ip !in state || Live(state[ip], now, window) != []
  {
    if ip in state { PruningForgetsNothing(state[ip], now, later, window); }
  }

  /** The answer is the true one, fewer live failures than the limit, exactly
      when the count fits in 32 bits or its remainder is blocked all the same;
      at a limit of zero, exactly when the address is tracked. */
  lemma AnswerIsTrueIff(
    state: map<Ip, seq<nat>>, history: seq<Event>, clock: nat, now: nat, window: nat, maxFailures: nat, ip: Ip)
    requires Agrees(state, history, clock, window) && clock <= now && maxFailures < U32
    ensures var count := |Live(Outstanding(history, ip), now, window)|;
            (Allows(state, ip, now, window, maxFailures) <==> count < maxFailures)
            <==> if maxFailures == 0 then ip in state else count < U32 || count % U32 >= maxFailures
  {
    if maxFailures > 0 {
      PositiveLimitAnswers(state, history, clock, now, window, maxFailures, ip);
      ComparisonExactIff(|Live(Outstanding(history, ip), now, window)|, maxFailures);
    }
  }

  /** The 32-bit comparison is the true one exactly when the count fits, or its
      remainder is blocked all the same. */
  lemma ComparisonExactIff(count: nat, maxFailures: nat)
    requires maxFailures < U32
    ensures ((count % U32 < maxFailures) <==> (count < maxFailures)) <==> (count < U32 || count % U32 >= maxFailures)
  {
    if count < U32 { assert count % U32 == count; }
  }

  // ------------------------------------------- the answer, from the history

  /** The addresses that a limiter tracks: those that failed since they last
      succeeded, less those that had aged out when the table was over its
      threshold. */
  ghost function Tracked(history: seq<Event>, window: nat, gcThreshold: nat): set<Ip>
  {
    if history == [] then {}
    else
      var before := Tracked(history[..|history| - 1], window, gcThreshold);
      match history[|history| - 1]
      case Failure(ip, t) =>
        var more := before + {ip};
        if |more| > gcThreshold then set i | i in more && Live(Outstanding(history, i), t, window) != [] else more
      case Success(ip) => before - {ip}
  }

  /** Event `i` is a failure of `ip`, less than a window old, with no success of
      the address after it. */
  ghost predicate Stands(history: seq<Event>, ip: Ip, now: nat, window: nat, i: nat)
    requires i < |history|
  {
    && history[i].Failure? && history[i].ip == ip && now < history[i].at + window
    && forall j | i < j < |history| :: history[j] != Success(ip)
  }

  /** The failures of `ip` that count at `now`. */
  ghost function Standing(history: seq<Event>, ip: Ip, now: nat, window: nat): set<nat>
  {
    set i | 0 <= i < |history| && Stands(history, ip, now, window, i)
  }

  /** They are the live ones among the outstanding. */
  lemma {:induction false} StandingAreLive(history: seq<Event>, ip: Ip, now: nat, window: nat)
    requires InOrder(history, now)
    ensures |Standing(history, ip, now, window)| == |Live(Outstanding(history, ip), now, window)|
  {
    if history != [] {
      var n := |history| - 1;
      var front, e := history[..n], history[n];
      assert history == front + [e];
      if e.Failure? { InOrderLater(front, e.at, now); }
      StandingAreLive(front, ip, now, window);
      OutstandingSnoc(front, e, ip);
      if e.Failure? && e.ip == ip { LiveSnoc(Outstanding(front, ip), e.at, now, window); }
      StandingSnoc(front, e, ip, now, window);
    }
  }

  lemma StandingSnoc(front: seq<Event>, e: Event, ip: Ip, now: nat, window: nat)
    ensures Standing(front + [e], ip, now, window) ==
            if e.ip != ip then Standing(front, ip, now, window)
            else if e.Success? then {}
            else Standing(front, ip, now, window) + (if now < e.at + window then {|front|} else {})
  {
    var history := front + [e];
    forall i | 0 <= i < |front|
      ensures Stands(history, ip, now, window, i) <==> Stands(front, ip, now, window, i) && e != Success(ip)
    {
      assert history[i] == front[i] && history[|front|] == e;
      if Stands(history, ip, now, window, i) {
        forall j | i < j < |front| ensures front[j] != Success(ip) { assert history[j] == front[j]; }
      }
    }
  }

  /** What a limiter answers after a history. */
  ghost predicate Answer(
    history: seq<Event>, window: nat, gcThreshold: nat, maxFailures: nat, ip: Ip, now: nat)
  {
    || ip !in Tracked(history, window, gcThreshold)
    || |Live(Outstanding(history, ip), now, window)| % U32 < maxFailures
  }

  /** The failures of a history come in order, and none after `now`. */
  ghost predicate InOrder(history: seq<Event>, now: nat)
  {
    history == [] ||
    var front, e := history[..|history| - 1], history[|history| - 1];
    if e.Failure? then e.at <= now && InOrder(front, e.at) else InOrder(front, now)
  }

  lemma {:induction false} InOrderLater(history: seq<Event>, now: nat, later: nat)
    requires InOrder(history, now) && now <= later
    ensures InOrder(history, later)
  {
    if history != [] && history[|history| - 1].Success? { InOrderLater(history[..|history| - 1], now, later); }
  }

  /** An address that is not tracked has no live failure, now or later. */
  lemma {:induction false} UntrackedIsIdle(history: seq<Event>, window: nat, gcThreshold: nat, ip: Ip, now: nat)
    requires InOrder(history, now) && ip !in Tracked(history, window, gcThreshold)
    ensures Live(Outstanding(history, ip), now, window) == []
  {
    if history != [] {
      var front, e := history[..|history| - 1], history[|history| - 1];
      assert history == front + [e];
      OutstandingSnoc(front, e, ip);
      if e.Failure? {
        if ip in Tracked(front, window, gcThreshold) + {e.ip} {
          PruningForgetsNothing(Outstanding(history, ip), e.at, now, window);
        } else {
          UntrackedIsIdle(front, window, gcThreshold, ip, e.at);
          PruningForgetsNothing(Outstanding(front, ip), e.at, now, window);
        }
      } else if e.ip != ip {
        UntrackedIsIdle(front, window, gcThreshold, ip, now);
      }
    }
  }

  /** Two thresholds, one history, one answer. */
  ghost predicate SameAnswer(
    history: seq<Event>, window: nat, a: nat, b: nat, maxFailures: nat, ip: Ip, now: nat)
  {
    InOrder(history, now) ==>
      (Answer(history, window, a, maxFailures, ip, now) <==> Answer(history, window, b, maxFailures, ip, now))
  }

  /** Sweeping never shows in an answer, whatever the threshold, exactly when
      the limit is not zero. */
  lemma SweepsAreInvisibleIff(window: nat, maxFailures: nat)
    ensures (forall history, a, b, ip, now :: SameAnswer(history, window, a, b, maxFailures, ip, now))
            <==> maxFailures > 0
  {
    if maxFailures > 0 {
      forall history, a, b, ip, now ensures SameAnswer(history, window, a, b, maxFailures, ip, now) {
        if InOrder(history, now) {
          if ip !in Tracked(history, window, a) { UntrackedIsIdle(history, window, a, ip, now); }
          if ip !in Tracked(history, window, b) { UntrackedIsIdle(history, window, b, ip, now); }
        }
      }
    } else {
      SweepShows(window, 0, 1);
    }
  }

  lemma TrackedFailure(history: seq<Event>, ip: Ip, t: nat, window: nat, gcThreshold: nat)
    ensures var after, more := history + [Failure(ip, t)], Tracked(history, window, gcThreshold) + {ip};
            Tracked(after, window, gcThreshold) ==
            if |more| > gcThreshold then set i | i in more && Live(Outstanding(after, i), t, window) != [] else more
  {
    assert (history + [Failure(ip, t)])[..|history|] == history;
  }

  /** A failure, and another address's failure a window later: at a limit of
      zero the first address is blocked if the threshold lets both stay, and
      may try if the table has been swept. */
  lemma SweepShows(window: nat, ip: Ip, other: Ip)
    requires ip != other
    ensures !SameAnswer([Failure(ip, 0), Failure(other, window)], window, 2, 0, 0, ip, window)
  {
    var first, second := [Failure(ip, 0)], [Failure(ip, 0), Failure(other, window)];
    assert [] + [Failure(ip, 0)] == first && first + [Failure(other, window)] == second;
    assert InOrder(second, window) by { assert second[..1] == first && first[..0] == []; }
    BothStay(window, ip, other);
    SweptAway(window, ip, other);
  }

  lemma BothStay(window: nat, ip: Ip, other: Ip)
    ensures ip in Tracked([Failure(ip, 0)] + [Failure(other, window)], window, 2)
  {
    TrackedFailure([], ip, 0, window, 2);
    assert [] + [Failure(ip, 0)] == [Failure(ip, 0)];
    var one := Tracked([Failure(ip, 0)], window, 2);
    assert one == {ip};
    TrackedFailure([Failure(ip, 0)], other, window, window, 2);
    TwoAtMost(ip, other);
  }

  lemma TwoAtMost(ip: Ip, other: Ip)
    ensures |{ip} + {other}| <= 2
  {
    if ip == other { assert {ip} + {other} == {ip}; }
  }

  lemma SweptAway(window: nat, ip: Ip, other: Ip)
    requires ip != other
    ensures ip !in Tracked([Failure(ip, 0)] + [Failure(other, window)], window, 0)
  {
    var first := [Failure(ip, 0)];
    TrackedFailure(first, other, window, window, 0);
    var more := Tracked(first, window, 0) + {other};
    assert other in more && |more| > 0;
    AgedFailure(window, ip, other);
  }

  lemma AgedFailure(window: nat, ip: Ip, other: Ip)
    requires ip != other
    ensures Live(Outstanding([Failure(ip, 0)] + [Failure(other, window)], ip), window, window) == []
  {
    var first := [Failure(ip, 0)];
    OutstandingSnoc([], Failure(ip, 0), ip);
    assert [] + [Failure(ip, 0)] == first;
    OutstandingSnoc(first, Failure(other, window), ip);
    LiveSnoc([], 0, window, window);
    assert Outstanding(first + [Failure(other, window)], ip) == [] + [0];
  }

  lemma OrderedFailure(history: seq<Event>, ip: Ip, clock: nat, now: nat)
    requires InOrder(history, clock) && clock <= now
    ensures InOrder(history + [Failure(ip, now)], now)
  {
    assert (history + [Failure(ip, now)])[..|history|] == history;
    InOrderLater(history, clock, now);
  }

  /** The sweep keeps the addresses with a live failure. */
  lemma SweptKeys(state: map<Ip, seq<nat>>, history: seq<Event>, now: nat, window: nat)
    requires Agrees(state, history, now, window)
    ensures Swept(state, now, window).Keys ==
            set i | i in state.Keys && Live(Outstanding(history, i), now, window) != []
  {
    forall i | i in state ensures Live(state[i], now, window) == Live(Outstanding(history, i), now, window) {
      AgreesLive(state, history, now, now, window, i);
    }
  }

  /** After a failure is written down, and after the sweep if one is due, the
      table holds the tracked addresses. */
  lemma RecordedIsTracked(
    state: map<Ip, seq<nat>>, history: seq<Event>, ip: Ip, now: nat, window: nat, gcThreshold: nat)
    requires state.Keys == Tracked(history, window, gcThreshold) + {ip}
    requires Agrees(state, history + [Failure(ip, now)], now, window) && InOrder(history + [Failure(ip, now)], now)
    ensures var after := history + [Failure(ip, now)];
            && var kept := if |state| > gcThreshold then Swept(state, now, window) else state;
            && kept.Keys == Tracked(after, window, gcThreshold) && Agrees(kept, after, now, window)
            && kept.Keys == if |state.Keys| <= gcThreshold then state.Keys
                   else set i | i in state.Keys && Standing(after, i, now, window) != {}
  {
    TrackedFailure(history, ip, now, window, gcThreshold);
    assert |state| == |state.Keys|;
    if |state| > gcThreshold {
      AgreesSwept(state, history + [Failure(ip, now)], now, window);
      SweptKeys(state, history + [Failure(ip, now)], now, window);
      forall i ensures Live(Outstanding(history + [Failure(ip, now)], i), now, window) == [] <==>
                       Standing(history + [Failure(ip, now)], i, now, window) == {} {
        StandingAreLive(history + [Failure(ip, now)], i, now, window);
      }
    }
  }

  class HandshakeRateLimiter {
    const window: nat
    const maxFailures: nat
    const gcThreshold: nat
    var state: map<Ip, seq<nat>>
    ghost var history: seq<Event>
    ghost var clock: nat

    ghost predicate Valid()
      reads this
    {
      && maxFailures < U32 && Agrees(state, history, clock, window)
      && state.Keys == Tracked(history, window, gcThreshold) && InOrder(history, clock)
    }

    constructor (window: nat, maxFailures: nat, gcThreshold: nat)
      requires maxFailures < U32
      ensures Valid() && history == [] && clock == 0
      ensures this.window == window && this.maxFailures == maxFailures && this.gcThreshold == gcThreshold
    {
      this.window, this.maxFailures, this.gcThreshold := window, maxFailures, gcThreshold;
      state, history, clock := map[], [], 0;
    }

    /** The history decides the answer, at every limit: fewer live failures than
        the limit, as far as 32 bits can tell, or an address not tracked. */
    method Check(ip: Ip, now: nat) returns (allowed: bool)
      requires Valid() && clock <= now
      modifies this
      ensures Valid() && history == old(history) && clock == now
      ensures state.Keys == old(state).Keys
      ensures allowed <==> ip !in state || |Standing(history, ip, now, window)| % 0x1_0000_0000 < maxFailures
      ensures allowed <==> Answer(history, window, gcThreshold, maxFailures, ip, now)
      ensures var count := |Standing(history, ip, now, window)|;
              (allowed <==> count < maxFailures)
              <==> if maxFailures == 0 then ip in Tracked(history, window, gcThreshold)
                   else count < U32 || count % U32 >= maxFailures
    {
      AnswerIsTrueIff(state, history, clock, now, window, maxFailures, ip);
      AgreesLive(state, history, clock, now, window, ip);
      InOrderLater(history, clock, now);
      StandingAreLive(history, ip, now, window);
      if ip in state {
        AgreesPruned(state, history, clock, now, window, ip);
        state := state[ip := Live(state[ip], now, window)];
        allowed := |state[ip]| % U32 < maxFailures;
      } else {
        AgreesLater(state, history, clock, now, window);
        allowed := true;
      }
      clock := now;
    }

    method RecordFailure(ip: Ip, now: nat)
      requires Valid() && clock <= now
      modifies this
      ensures Valid() && history == old(history) + [Failure(ip, now)] && clock == now
      ensures state.Keys == var more := old(state).Keys + {ip};
                            if |more| <= gcThreshold then more
                            else set i | i in more && Standing(history, i, now, window) != {}
    {
      AgreesRecorded(state, history, clock, now, window, ip);
      OrderedFailure(history, ip, clock, now);
      var entries := Live(Entries(state, ip), now, window);
      state := state[ip := entries + [now]];
      RecordedIsTracked(state, history, ip, now, window, gcThreshold);
      history, clock := history + [Failure(ip, now)], now;
      if |state| > gcThreshold {
        state := Swept(state, now, window);
      }
    }

    method RecordSuccess(ip: Ip)
      requires Valid()
      modifies this
      ensures Valid() && history == old(history) + [Success(ip)] && clock == old(clock)
      ensures state.Keys == old(state).Keys - {ip}
    {
      AgreesForgiven(state, history, clock, window, ip);
      assert (history + [Success(ip)])[..|history|] == history;
      state := state - {ip};
      history := history + [Success(ip)];
    }
  }
}
