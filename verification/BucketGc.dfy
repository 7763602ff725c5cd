/** When nobody can tell that idle buckets are collected. */
module BucketGc {
  import opened TokenBucket

  /** The same run with a collector that never runs. */
  function WithoutGc(events: seq<Event>): seq<Event> {
    if events == [] then []
    else
      var e := events[|events| - 1];
      WithoutGc(events[..|events| - 1]) + if e.Call? then [e] else []
  }

  // ---- enough: a simulation ----

  /** Bucket b is full again at time now. */
  predicate Full(p: Params, b: Level, now: real) {
    b.tokens + Gain(p, now - b.last) >= p.burst
  }

  /** g collects, t does not: g has part of the buckets of t, and the others are full by now. */
  predicate Simulates(p: Params, g: Table, t: Table, clock: real) {
    && (forall k :: k in g ==> k in t && g[k] == t[k])
    && (forall k :: k in t ==> 0.0 <= t[k].tokens && t[k].last <= clock)
    && (forall k :: k in t && k !in g ==> Full(p, t[k], clock))
  }

  lemma RefillIsNonNegative(p: Params, b: Level, now: real)
    requires Sensible(p) && b.tokens >= 0.0 && b.last <= now
    ensures Refilled(p, b, now) >= 0.0
  {
    GainIsNonNegative(p, now - b.last);
  }

  lemma RefillTakesTime(p: Params, b: Level)
    ensures Refilled(p, b, b.last) == Min(p.burst, b.tokens)
  {
    GainOfNothing(p, b.last - b.last);
  }

  lemma RefilledAfter(p: Params, b: Level, wait: real)
    ensures Refilled(p, b, b.last + wait) == Min(p.burst, b.tokens + Gain(p, wait))
  {
    assert b.last + wait - b.last == wait;
  }

  lemma IdleIsFull(p: Params, b: Level, now: real)
    requires Sensible(p) && p.rate * p.gcAfter >= p.burst && b.tokens >= 0.0
    requires Stale(p, b, now)
    ensures Full(p, b, now)
  {
    assert Gain(p, p.gcAfter) == p.rate * p.gcAfter;
    GainGrows(p, p.gcAfter, now - b.last);
  }

  lemma FullStaysFull(p: Params, b: Level, clock: real, now: real)
    requires p.rate >= 0.0 && clock <= now && Full(p, b, clock)
    ensures Full(p, b, now)
  {
    GainGrows(p, clock - b.last, now - b.last);
  }

  lemma CallSimulates(p: Params, g: Table, t: Table, clock: real, key: Key, now: real)
    requires Sensible(p) && Simulates(p, g, t, clock) && clock <= now
    ensures Allowed(p, g, key, now) == Allowed(p, t, key, now)
    ensures Simulates(p, Called(p, g, key, now), Called(p, t, key, now), now)
  {
    forall k | k in t && k !in g ensures Full(p, t[k], now) {
      FullStaysFull(p, t[k], clock, now);
    }
    if key in t {
      RefillIsNonNegative(p, t[key], now);
    }
  }

  lemma GcSimulates(p: Params, g: Table, t: Table, clock: real, now: real)
    requires Sensible(p) && p.rate * p.gcAfter >= p.burst
    requires Simulates(p, g, t, clock) && clock <= now
    ensures Simulates(p, Collected(p, g, now), t, now)
  {
    forall k | k in t && k !in Collected(p, g, now) ensures Full(p, t[k], now) {
      if k in g {
        IdleIsFull(p, t[k], now);
      } else {
        FullStaysFull(p, t[k], clock, now);
      }
    }
  }

  lemma {:induction false} GcIsInvisible(p: Params, start: real, events: seq<Event>)
    requires Sensible(p) && p.rate * p.gcAfter >= p.burst && Forward(start, events)
    ensures Answers(p, map[], events) == Answers(p, map[], WithoutGc(events))
    ensures Simulates(p, After(p, map[], events), After(p, map[], WithoutGc(events)), Clock(start, events))
  {
    if events != [] {
      var front, e := events[..|events| - 1], events[|events| - 1];
      GcIsInvisible(p, start, front);
      var g, lazy := After(p, map[], front), WithoutGc(front);
      var t, clock := After(p, map[], lazy), Clock(start, front);
      assert clock <= e.now;
      match e
      case Call(key, now) =>
        CallSimulates(p, g, t, clock, key, now);
        assert (lazy + [e])[..|lazy|] == lazy;
      case Gc(now) =>
        GcSimulates(p, g, t, clock, now);
        assert lazy + [] == lazy;
    }
  }

  // ---- the exact meaning, collections included ----

  /** The same calls are accepted with a collector as without. */
  lemma {:induction false} GcKeepsAccepted(p: Params, start: real, events: seq<Event>, key: Key)
    requires Sensible(p) && p.rate * p.gcAfter >= p.burst && Forward(start, events)
    ensures Accepted(p, events, key) == Accepted(p, WithoutGc(events), key)
  {
    if events != [] {
      var front, e := events[..|events| - 1], events[|events| - 1];
      GcKeepsAccepted(p, start, front, key);
      var lazy := WithoutGc(front);
      if e.Call? {
        GcIsInvisible(p, start, front);
        CallSimulates(p, After(p, map[], front), After(p, map[], lazy), Clock(start, front), e.key, e.now);
        assert WithoutGc(events) == lazy + [e];
        assert (lazy + [e])[..|lazy|] == lazy;
      } else {
        assert WithoutGc(events) == lazy;
      }
    }
  }

  lemma {:induction false} WithoutGcIsForward(start: real, events: seq<Event>)
    requires Forward(start, events)
    ensures Forward(start, WithoutGc(events)) && NoGc(WithoutGc(events))
    ensures Clock(start, WithoutGc(events)) <= Clock(start, events)
  {
    if events != [] {
      var front, e := events[..|events| - 1], events[|events| - 1];
      WithoutGcIsForward(start, front);
      var lazy, all := WithoutGc(front), WithoutGc(events);
      assert Clock(start, front) <= e.now;
      forall i, j | 0 <= i < j < |all| ensures all[i].now <= all[j].now {
        assert j < |lazy| || lazy[i].now <= Clock(start, lazy);
      }
    }
  }

  /** What an answer means, of a limiter whose collector runs at any moments and is not too quick. */
  lemma ExactMeaningWithGc(p: Params, start: real, events: seq<Event>, key: Key, now: real)
    requires Sensible(p) && p.rate * p.gcAfter >= p.burst && Forward(start, events) && Clock(start, events) <= now
    ensures Allowed(p, After(p, map[], events), key, now) <==> AllWithinRate(p, Accepted(p, events, key), now)
  {
    var lazy := WithoutGc(events);
    WithoutGcIsForward(start, events);
    GcIsInvisible(p, start, events);
    CallSimulates(p, After(p, map[], events), After(p, map[], lazy), Clock(start, events), key, now);
    GcKeepsAccepted(p, start, events, key);
    ExactMeaning(p, start, lazy, key, now);
  }

  // ---- needed: a run that tells the difference ----

  lemma {:induction false} AfterConcat(p: Params, t: Table, a: seq<Event>, b: seq<Event>)
    ensures After(p, t, a + b) == After(p, After(p, t, a), b)
    ensures Answers(p, t, a + b) == Answers(p, t, a) + Answers(p, After(p, t, a), b)
  {
    if b == [] {
      assert a + b == a;
    } else {
      var front := b[..|b| - 1];
      AfterConcat(p, t, a, front);
      assert (a + b)[..|a + b| - 1] == a + front;
    }
  }

  lemma AfterOne(p: Params, t: Table, e: Event)
    ensures After(p, t, [e]) == Step(p, t, e)
    ensures Answers(p, t, [e]) == if e.Call? then [Allowed(p, t, e.key, e.now)] else []
  {
    assert [e][..0] == [];
  }

  lemma FirstThen(p: Params, t: Table, e: Event, rest: seq<Event>)
    ensures After(p, t, [e] + rest) == After(p, Step(p, t, e), rest)
    ensures e.Call? ==> Answers(p, t, [e] + rest) == [Allowed(p, t, e.key, e.now)] + Answers(p, Step(p, t, e), rest)
  {
    AfterOne(p, t, e);
    AfterConcat(p, t, [e], rest);
  }

  /** Calls on one key, none before now. */
  predicate Calls(events: seq<Event>, now: real) {
    NoGc(events) && Forward(now, events)
  }

  lemma CallsCons(key: Key, now: real, rest: seq<Event>, later: real)
    requires now <= later && Calls(rest, later)
    ensures Calls([Call(key, now)] + rest, now)
  {
    var events := [Call(key, now)] + rest;
    forall i | 0 <= i < |events| ensures events[i].Call? && now <= events[i].now {
      assert i > 0 ==> events[i] == rest[i - 1];
    }
    forall i, j | 0 <= i < j < |events| ensures events[i].now <= events[j].now {
      assert events[j] == rest[j - 1];
    }
  }

  /** A bucket that has y tokens left answers a call after wait. */
  lemma AnswerAfter(p: Params, t: Table, key: Key, wait: real)
    requires key in t
    ensures Allowed(p, t, key, t[key].last + wait) <==> Min(p.burst, t[key].tokens + Gain(p, wait)) >= 1.0
  {
    RefilledAfter(p, t[key], wait);
  }

  /** The time in which a bucket gains x tokens. */
  function TimeFor(p: Params, x: real): real
    requires p.rate > 0.0
  {
    x / p.rate
  }

  lemma TimeForGains(p: Params, x: real)
    requires p.rate > 0.0 && x >= 0.0
    ensures Gain(p, TimeFor(p, x)) == x && TimeFor(p, x) >= 0.0
  {
    Quotient(x, p.rate);
  }

  lemma Quotient(x: real, y: real)
    requires y > 0.0 && x >= 0.0
    ensures x / y * y == x && x / y >= 0.0
  {
  }

  /** Less than a token against more: wait until the fuller bucket has one. */
  lemma TellApart(p: Params, g: Table, t: Table, key: Key, now: real) returns (e: Event)
    requires Sensible(p) && p.rate > 0.0 && key in g && key in t
    requires g[key].last == now == t[key].last
    requires t[key].tokens < 1.0 && t[key].tokens < g[key].tokens <= p.burst
    ensures e.Call? && e.key == key && e.now >= now
    ensures Allowed(p, g, key, e.now) && !Allowed(p, t, key, e.now)
  {
    var y := g[key].tokens;
    var short := if y >= 1.0 then 0.0 else 1.0 - y;
    var wait := TimeFor(p, short);
    TimeForGains(p, short);
    AnswerAfter(p, g, key, wait);
    AnswerAfter(p, t, key, wait);
    e := Call(key, now + wait);
  }

  /** Two buckets of one key that hold different amounts at the same time answer some run of calls differently. */
  lemma {:induction false} Distinguish(p: Params, g: Table, t: Table, key: Key, now: real) returns (events: seq<Event>)
    requires Sensible(p) && p.rate > 0.0 && key in g && key in t
    requires g[key].last == now == t[key].last
    requires 0.0 <= t[key].tokens < g[key].tokens <= p.burst
    ensures Calls(events, now) && Answers(p, g, events) != Answers(p, t, events)
    decreases t[key].tokens.Floor
  {
    if t[key].tokens >= 1.0 {
      var e := Call(key, now);
      SpendsOne(p, g, key);
      SpendsOne(p, t, key);
      var rest := Distinguish(p, Step(p, g, e), Step(p, t, e), key, now);
      FirstThen(p, g, e, rest);
      FirstThen(p, t, e, rest);
      CallsCons(key, now, rest, now);
      assert Answers(p, g, [e] + rest)[1..] == Answers(p, Step(p, g, e), rest);
      assert Answers(p, t, [e] + rest)[1..] == Answers(p, Step(p, t, e), rest);
      events := [e] + rest;
    } else {
      var e := TellApart(p, g, t, key, now);
      events := [e];
      AfterOne(p, g, e);
      AfterOne(p, t, e);
      assert Answers(p, g, events)[0] && !Answers(p, t, events)[0];
    }
  }

  /** At the moment of its last call a bucket of at least one token spends one. */
  lemma SpendsOne(p: Params, t: Table, key: Key)
    requires key in t && 1.0 <= t[key].tokens <= p.burst
    ensures var now := t[key].last;
            && Allowed(p, t, key, now)
            && Called(p, t, key, now) == t[key := Level(t[key].tokens - 1.0, now)]
            && (t[key].tokens - 1.0).Floor == t[key].tokens.Floor - 1
  {
    RefillTakesTime(p, t[key]);
  }

  /** Calls at one moment empty the bucket of a key below one token. */
  lemma {:induction false} DrainNow(p: Params, t: Table, key: Key, now: real) returns (events: seq<Event>)
    requires Sensible(p) && key in t && t[key].last == now && 0.0 <= t[key].tokens <= p.burst
    ensures Calls(events, now) && (forall i :: 0 <= i < |events| ==> events[i].now == now)
    ensures var end := After(p, t, events);
            key in end && end[key].last == now && 0.0 <= end[key].tokens < 1.0
    decreases t[key].tokens.Floor
  {
    if t[key].tokens < 1.0 {
      events := [];
    } else {
      var e := Call(key, now);
      SpendsOne(p, t, key);
      var rest := DrainNow(p, Step(p, t, e), key, now);
      FirstThen(p, t, e, rest);
      CallsCons(key, now, rest, now);
      events := [e] + rest;
    }
  }

  /** Where the drain leads: a bucket that stays short of full for longer than the collector waits. */
  predicate Drained(p: Params, t: Table, key: Key, now: real) {
    && key in t && t[key].last == now && 0.0 <= t[key].tokens < 1.0
    && (p.rate > 0.0 ==> t[key].tokens == 0.0)
  }

  lemma CallsConcat(a: seq<Event>, b: seq<Event>, start: real, middle: real)
    requires Calls(a, start) && Calls(b, middle) && Clock(start, a) <= middle && start <= middle
    ensures Calls(a + b, start)
  {
    ForwardConcat(a, b, start);
  }

  /** A run that calls at time 0 until less than one token is left. */
  lemma DrainBelowOne(p: Params, key: Key) returns (events: seq<Event>)
    requires Sensible(p)
    ensures Calls(events, 0.0) && Clock(0.0, events) == 0.0
    ensures var t := After(p, map[], events);
            key in t && t[key].last == 0.0 && 0.0 <= t[key].tokens < 1.0
  {
    var first := Call(key, 0.0);
    var t := Step(p, map[], first);
    var rest := DrainNow(p, t, key, 0.0);
    FirstThen(p, map[], first, rest);
    CallsCons(key, 0.0, rest, 0.0);
    events := [first] + rest;
  }

  /** The reading at which a bucket has exactly one token, which a call then takes. */
  lemma TakeTheLast(p: Params, t: Table, key: Key) returns (now: real)
    requires Sensible(p) && p.rate > 0.0 && key in t && 0.0 <= t[key].tokens < 1.0
    ensures now >= t[key].last && Called(p, t, key, now) == t[key := Level(0.0, now)]
  {
    var wait := TimeFor(p, 1.0 - t[key].tokens);
    TimeForGains(p, 1.0 - t[key].tokens);
    now := t[key].last + wait;
    RefilledAfter(p, t[key], wait);
  }

  /** A run that drains the bucket of a key, as far as it goes. */
  lemma Drain(p: Params, key: Key) returns (events: seq<Event>, now: real)
    requires Sensible(p)
    ensures Calls(events, 0.0) && Clock(0.0, events) <= now && 0.0 <= now
    ensures Drained(p, After(p, map[], events), key, now)
  {
    events := DrainBelowOne(p, key);
    now := 0.0;
    if p.rate > 0.0 {
      var end := After(p, map[], events);
      now := TakeTheLast(p, end, key);
      var last := Call(key, now);
      AfterOne(p, end, last);
      AfterConcat(p, map[], events, [last]);
      CallsConcat(events, [last], 0.0, now);
      events := events + [last];
    }
  }

  /** A bucket drained at now, collected at later, is not full by then. */
  lemma TooEarly(p: Params, b: Level, now: real) returns (later: real)
    requires Sensible(p) && p.rate * p.gcAfter < p.burst
    requires b.last == now && 0.0 <= b.tokens < 1.0 && (p.rate > 0.0 ==> b.tokens == 0.0)
    ensures later >= now && Stale(p, b, later)
    ensures 0.0 <= Refilled(p, b, later) < p.burst && (p.rate == 0.0 ==> Refilled(p, b, later) < 1.0)
  {
    var gap := (p.burst - p.rate * p.gcAfter) / 2.0;
    var more := if p.rate == 0.0 then 1.0 else TimeFor(p, gap);
    if p.rate > 0.0 {
      TimeForGains(p, gap);
    }
    assert Gain(p, p.gcAfter) == p.rate * p.gcAfter;
    GainAdds(p, p.gcAfter, more);
    var elapsed := p.gcAfter + more;
    later := now + elapsed;
    RefilledAfter(p, b, elapsed);
    assert more > 0.0;
    RefillIsNonNegative(p, b, later);
  }

  /** After the collection one table has forgotten the key and the other has not: they come apart. */
  lemma ComeApart(p: Params, g: Table, t: Table, key: Key, later: real) returns (events: seq<Event>)
    requires Sensible(p) && key !in g && key in t
    requires 0.0 <= Refilled(p, t[key], later) < p.burst && (p.rate == 0.0 ==> Refilled(p, t[key], later) < 1.0)
    ensures Calls(events, later) && Answers(p, g, events) != Answers(p, t, events)
  {
    var e := Call(key, later);
    AfterOne(p, g, e);
    AfterOne(p, t, e);
    if Refilled(p, t[key], later) < 1.0 {
      events := [e];
      assert Answers(p, g, events)[0] && !Answers(p, t, events)[0];
    } else {
      var rest := Distinguish(p, Step(p, g, e), Step(p, t, e), key, later);
      FirstThen(p, g, e, rest);
      FirstThen(p, t, e, rest);
      CallsCons(key, later, rest, later);
      events := [e] + rest;
      assert Answers(p, g, events)[1..] == Answers(p, Step(p, g, e), rest);
      assert Answers(p, t, events)[1..] == Answers(p, Step(p, t, e), rest);
    }
  }

  lemma {:induction false} WithoutGcConcat(a: seq<Event>, b: seq<Event>)
    ensures WithoutGc(a + b) == WithoutGc(a) + WithoutGc(b)
  {
    if b == [] {
      assert a + b == a;
    } else {
      var front := b[..|b| - 1];
      WithoutGcConcat(a, front);
      assert (a + b)[..|a + b| - 1] == a + front;
    }
  }

  lemma {:induction false} CallsAreKept(events: seq<Event>)
    requires NoGc(events)
    ensures WithoutGc(events) == events
  {
    if events != [] {
      CallsAreKept(events[..|events| - 1]);
    }
  }

  lemma {:induction false} ForwardConcat(a: seq<Event>, b: seq<Event>, start: real)
    requires Forward(start, a) && Forward(Clock(start, a), b)
    ensures Forward(start, a + b)
  {
    var events := a + b;
    assert start <= Clock(start, a);
    forall i | 0 <= i < |events| ensures start <= events[i].now {
      if i < |a| { assert events[i] == a[i]; } else { assert events[i] == b[i - |a|]; }
    }
    forall i, j | 0 <= i < j < |events| ensures events[i].now <= events[j].now {
      if j < |a| {
        assert events[i] == a[i] && events[j] == a[j];
      } else if i < |a| {
        assert a[i].now <= Clock(start, a) <= b[j - |a|].now;
      }
    }
  }

  lemma GcInBetween(a: seq<Event>, now: real, b: seq<Event>)
    requires Calls(a, 0.0) && Calls(b, now) && Clock(0.0, a) <= now && 0.0 <= now
    ensures Forward(0.0, a + [Gc(now)] + b) && WithoutGc(a + [Gc(now)] + b) == a + b
  {
    ForwardConcat(a, [Gc(now)], 0.0);
    ForwardConcat(a + [Gc(now)], b, 0.0);
    WithoutGcConcat(a + [Gc(now)], b);
    WithoutGcConcat(a, [Gc(now)]);
    CallsAreKept(a);
    CallsAreKept(b);
    assert WithoutGc([Gc(now)]) == [];
  }

  /** When the collector is too quick, some run can tell. */
  lemma GcShows(p: Params) returns (events: seq<Event>)
    requires Sensible(p) && p.rate * p.gcAfter < p.burst
    ensures Forward(0.0, events) && Answers(p, map[], events) != Answers(p, map[], WithoutGc(events))
  {
    var key := Key("client");
    var drain, now := Drain(p, key);
    var t := After(p, map[], drain);
    var later := TooEarly(p, t[key], now);
    var g := Collected(p, t, later);
    var tail := ComeApart(p, g, t, key, later);
    GcInBetween(drain, later, tail);
    AfterOne(p, t, Gc(later));
    AfterConcat(p, map[], drain, [Gc(later)]);
    AfterConcat(p, map[], drain + [Gc(later)], tail);
    AfterConcat(p, map[], drain, tail);
    var n := |Answers(p, map[], drain)|;
    assert Answers(p, map[], drain + [Gc(later)] + tail)[n..] == Answers(p, g, tail);
    assert Answers(p, map[], drain + tail)[n..] == Answers(p, t, tail);
    events := drain + [Gc(later)] + tail;
  }

  /** Collecting idle buckets changes no answer of any run exactly when a bucket refills in the time it must be idle. */
  lemma GcInvisibleExactlyWhen(p: Params)
    requires Sensible(p)
    ensures (forall events :: Forward(0.0, events)
               ==> Answers(p, map[], events) == Answers(p, map[], WithoutGc(events)))
            <==> p.rate * p.gcAfter >= p.burst
  {
    if p.rate * p.gcAfter >= p.burst {
      forall events | Forward(0.0, events)
        ensures Answers(p, map[], events) == Answers(p, map[], WithoutGc(events))
      {
        GcIsInvisible(p, 0.0, events);
      }
    } else {
      var events := GcShows(p);
    }
  }
}
