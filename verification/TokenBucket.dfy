/** What a per-key token bucket answers, over whole runs. */
module TokenBucket {
  /** A client address. */
  datatype Key = Key(address: string)

  /** Tokens a second, the size of a full bucket, and the idle time after which a bucket is collected. */
  datatype Params = Params(rate: real, burst: real, gcAfter: real)

  predicate Sensible(p: Params) {
    p.rate >= 0.0 && p.burst >= 1.0 && p.gcAfter >= 0.0
  }

  datatype Level = Level(tokens: real, last: real)

  type Table = map<Key, Level>

  function Min(x: real, y: real): real {
    if x <= y then x else y
  }

  /** What some time adds to a bucket. */
  function Gain(p: Params, elapsed: real): real {
    elapsed * p.rate
  }

  lemma GainGrows(p: Params, x: real, y: real)
    requires p.rate >= 0.0 && x <= y
    ensures Gain(p, x) <= Gain(p, y)
  {
    ProductGrows(x, y, p.rate);
  }

  lemma ProductGrows(x: real, y: real, rate: real)
    requires rate >= 0.0 && x <= y
    ensures x * rate <= y * rate
  {
  }

  lemma GainAdds(p: Params, x: real, y: real)
    ensures Gain(p, x + y) == Gain(p, x) + Gain(p, y)
  {
  }

  lemma GainOfNothing(p: Params, elapsed: real)
    requires elapsed == 0.0
    ensures Gain(p, elapsed) == 0.0
  {
  }

  lemma GainIsNonNegative(p: Params, elapsed: real)
    requires p.rate >= 0.0 && elapsed >= 0.0
    ensures Gain(p, elapsed) >= 0.0
  {
    GainGrows(p, 0.0, elapsed);
  }

  /** The tokens in a bucket at time now, before the call at that time. */
  function Refilled(p: Params, b: Level, now: real): real {
    Min(p.burst, b.tokens + Gain(p, now - b.last))
  }

  function Allowed(p: Params, t: Table, key: Key, now: real): bool {
    key in t ==> Refilled(p, t[key], now) >= 1.0
  }

  function Called(p: Params, t: Table, key: Key, now: real): Table {
    if key !in t then t[key := Level(p.burst - 1.0, now)]
    else
      var r := Refilled(p, t[key], now);
      t[key := Level(if r < 1.0 then r else r - 1.0, now)]
  }

  predicate Stale(p: Params, b: Level, now: real) {
    b.last < now - p.gcAfter
  }

  function Collected(p: Params, t: Table, now: real): Table {
    map k | k in t && !Stale(p, t[k], now) :: t[k]
  }

  // ---- runs ----

  datatype Event = Call(key: Key, now: real) | Gc(now: real)

  function Step(p: Params, t: Table, e: Event): Table {
    match e
    case Call(key, now) => Called(p, t, key, now)
    case Gc(now) => Collected(p, t, now)
  }

  function After(p: Params, t: Table, events: seq<Event>): Table {
    if events == [] then t
    else Step(p, After(p, t, events[..|events| - 1]), events[|events| - 1])
  }

  /** The answers to the calls of a run, in order. */
  function Answers(p: Params, t: Table, events: seq<Event>): seq<bool> {
    if events == [] then []
    else
      var front, e := events[..|events| - 1], events[|events| - 1];
      Answers(p, t, front) + if e.Call? then [Allowed(p, After(p, t, front), e.key, e.now)] else []
  }

  /** Clock readings do not run backwards, from start on. */
  predicate Forward(start: real, events: seq<Event>) {
    && (forall i :: 0 <= i < |events| ==> start <= events[i].now)
    && (forall i, j :: 0 <= i < j < |events| ==> events[i].now <= events[j].now)
  }

  /** The time of the last event, or start. */
  function Clock(start: real, events: seq<Event>): real {
    if events == [] then start else events[|events| - 1].now
  }

  /** The times of the calls on key that were accepted. */
  function Accepted(p: Params, events: seq<Event>, key: Key): seq<real> {
    if events == [] then []
    else
      var front, e := events[..|events| - 1], events[|events| - 1];
      Accepted(p, front, key)
      + if e.Call? && e.key == key && Allowed(p, After(p, map[], front), key, e.now) then [e.now] else []
  }

  predicate NoGc(events: seq<Event>) {
    forall i :: 0 <= i < |events| ==> events[i].Call?
  }

  // ---- the exact meaning of an answer ----

  /** With one more call, the calls accepted from number i on keep within the burst and the rate since then. */
  predicate WithinRate(p: Params, accepted: seq<real>, i: nat, now: real)
    requires i < |accepted|
  {
    (|accepted| - i + 1) as real <= p.burst + p.rate * (now - accepted[i])
  }

  /** The tokens left at time now by a history of accepted calls. */
  function Budget(p: Params, accepted: seq<real>, now: real): real {
    if accepted == [] then p.burst
    else
      var n := |accepted| - 1;
      Min(p.burst, Budget(p, accepted[..n], accepted[n]) - 1.0 + Gain(p, now - accepted[n]))
  }

  /** What the accepted calls from number i on leave at time now. */
  function Room(p: Params, accepted: seq<real>, i: nat, now: real): real
    requires i < |accepted|
  {
    p.burst + Gain(p, now - accepted[i]) - (|accepted| - i) as real
  }

  lemma RoomShifts(p: Params, accepted: seq<real>, i: nat, now: real)
    requires i < |accepted| - 1
    ensures var n := |accepted| - 1;
            Room(p, accepted, i, now) == Room(p, accepted[..n], i, accepted[n]) + Gain(p, now - accepted[n]) - 1.0
  {
    var a := accepted[|accepted| - 1];
    assert now - accepted[i] == (now - a) + (a - accepted[i]);
    GainAdds(p, now - a, a - accepted[i]);
    assert (|accepted| - i) as real == (|accepted| - 1 - i) as real + 1.0;
  }

  /** The budget reaches c exactly when every suffix of the history leaves c. */
  lemma {:induction false} BudgetReaches(p: Params, accepted: seq<real>, now: real, c: real)
    ensures Budget(p, accepted, now) >= c <==>
            p.burst >= c && forall i :: 0 <= i < |accepted| ==> Room(p, accepted, i, now) >= c
  {
    if accepted != [] {
      var n := |accepted| - 1;
      var front, a := accepted[..n], accepted[n];
      var gain := Gain(p, now - a);
      BudgetReaches(p, front, a, c + 1.0 - gain);
      assert Room(p, accepted, n, now) == p.burst + gain - 1.0;
      forall i | 0 <= i < n ensures Room(p, accepted, i, now) == Room(p, front, i, a) + gain - 1.0 {
        RoomShifts(p, accepted, i, now);
      }
    }
  }

  /** Letting time pass refills the budget as it refills a bucket. */
  lemma BudgetRefills(p: Params, accepted: seq<real>, last: real, now: real)
    requires p.rate >= 0.0 && accepted != [] && last <= now
    ensures Budget(p, accepted, now) == Refilled(p, Level(Budget(p, accepted, last), last), now)
  {
    var n := |accepted| - 1;
    assert now - accepted[n] == (last - accepted[n]) + (now - last);
    GainAdds(p, last - accepted[n], now - last);
    GainIsNonNegative(p, now - last);
  }

  /** The bucket of a key holds the budget of its accepted calls; no bucket, no accepted call. */
  predicate BucketIsBudget(p: Params, t: Table, accepted: seq<real>, key: Key, clock: real) {
    if key in t
    then accepted != [] && t[key].tokens == Budget(p, accepted, t[key].last) && t[key].last <= clock
    else accepted == []
  }

  lemma BudgetIsCapped(p: Params, accepted: seq<real>, now: real)
    ensures Budget(p, accepted, now) <= p.burst
  {
  }

  lemma BudgetSpends(p: Params, accepted: seq<real>, now: real)
    ensures Budget(p, accepted + [now], now) == Budget(p, accepted, now) - 1.0
  {
    var more, n := accepted + [now], |accepted|;
    assert more[..n] == accepted && more[n] == now;
    GainOfNothing(p, now - more[n]);
    assert Budget(p, more, now) == Min(p.burst, Budget(p, more[..n], more[n]) - 1.0 + Gain(p, now - more[n]));
    assert Budget(p, more[..n], more[n]) == Budget(p, accepted, now);
    BudgetIsCapped(p, accepted, now);
  }

  lemma CallReadsBudget(p: Params, t: Table, accepted: seq<real>, key: Key, now: real, clock: real)
    requires Sensible(p) && BucketIsBudget(p, t, accepted, key, clock) && clock <= now
    ensures Allowed(p, t, key, now) <==> Budget(p, accepted, now) >= 1.0
    ensures key in t ==> Refilled(p, t[key], now) == Budget(p, accepted, now)
  {
    if key in t {
      BudgetRefills(p, accepted, t[key].last, now);
    }
  }

  function Longer(accepted: seq<real>, ok: bool, now: real): seq<real> {
    if ok then accepted + [now] else accepted
  }

  lemma CallKeepsBudget(p: Params, t: Table, accepted: seq<real>, key: Key, now: real, clock: real)
    requires Sensible(p) && BucketIsBudget(p, t, accepted, key, clock) && clock <= now
    ensures BucketIsBudget(p, Called(p, t, key, now), Longer(accepted, Allowed(p, t, key, now), now), key, now)
  {
    CallReadsBudget(p, t, accepted, key, now, clock);
    BudgetSpends(p, accepted, now);
  }

  lemma {:induction false} BucketsAreBudgets(p: Params, start: real, events: seq<Event>, key: Key)
    requires Sensible(p) && Forward(start, events) && NoGc(events)
    ensures BucketIsBudget(p, After(p, map[], events), Accepted(p, events, key), key, Clock(start, events))
  {
    if events != [] {
      var front, e := events[..|events| - 1], events[|events| - 1];
      BucketsAreBudgets(p, start, front, key);
      var t, accepted := After(p, map[], front), Accepted(p, front, key);
      assert e.Call? && Clock(start, front) <= e.now;
      if e.key == key {
        CallKeepsBudget(p, t, accepted, key, e.now, Clock(start, front));
      }
      assert Accepted(p, events, key) == Longer(accepted, e.key == key && Allowed(p, t, key, e.now), e.now);
    }
  }

  /** The calls accepted from any one on, with one more, keep within the burst and the rate. */
  predicate AllWithinRate(p: Params, accepted: seq<real>, now: real) {
    forall i :: 0 <= i < |accepted| ==> WithinRate(p, accepted, i, now)
  }

  lemma WithinRateIsBudget(p: Params, accepted: seq<real>, now: real)
    requires p.burst >= 1.0
    ensures AllWithinRate(p, accepted, now) <==> Budget(p, accepted, now) >= 1.0
  {
    BudgetReaches(p, accepted, now, 1.0);
    forall i | 0 <= i < |accepted| ensures WithinRate(p, accepted, i, now) <==> Room(p, accepted, i, now) >= 1.0 {
      assert (|accepted| - i + 1) as real == (|accepted| - i) as real + 1.0;
      assert Gain(p, now - accepted[i]) == p.rate * (now - accepted[i]);
    }
  }

  /**
   A call is accepted exactly when, for every earlier accepted call on its key, the accepted calls from
   that one up to this one number at most burst + rate * elapsed.  Rejected calls and other keys are
   not mentioned: they never matter.
   */
  lemma ExactMeaning(p: Params, start: real, events: seq<Event>, key: Key, now: real)
    requires Sensible(p) && Forward(start, events) && NoGc(events) && Clock(start, events) <= now
    ensures Allowed(p, After(p, map[], events), key, now) <==> AllWithinRate(p, Accepted(p, events, key), now)
  {
    var accepted := Accepted(p, events, key);
    BucketsAreBudgets(p, start, events, key);
    CallReadsBudget(p, After(p, map[], events), accepted, key, now, Clock(start, events));
    WithinRateIsBudget(p, accepted, now);
  }
}
