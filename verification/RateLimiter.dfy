/** The limiter itself: buckets changed in place, a second map of last calls, and the collector's loop. */
module RateLimiter {
  import opened TokenBucket
  import BucketGc

  const GC_AFTER := 300.0

  class Bucket {
    /** The key it serves, so that no two keys share a bucket. */
    ghost const key: Key
    var tokens: real
    var last: real

    constructor (ghost key: Key, tokens: real, last: real)
      ensures this.key == key && this.tokens == tokens && this.last == last
    {
      this.key := key;
      this.tokens := tokens;
      this.last := last;
    }

    /** Refill up to now and spend one token, if there is one. */
    method Take(p: Params, now: real) returns (ok: bool)
      modifies this
      ensures var r := Refilled(p, old(Level(tokens, last)), now);
              ok == (r >= 1.0) && tokens == (if ok then r - 1.0 else r) && last == now
    {
      var elapsed := now - last;
      assert Gain(p, elapsed) == elapsed * p.rate;
      tokens := Min(p.burst, tokens + elapsed * p.rate);
      last := now;
      if tokens < 1.0 {
        ok := false;
      } else {
        tokens := tokens - 1.0;
        ok := true;
      }
    }
  }

  class Limiter {
    const params: Params
    var buckets: map<Key, Bucket>
    var lastSeen: map<Key, real>

    /** The levels of the buckets, and the buckets themselves. */
    ghost var table: Table
    ghost var objects: set<Bucket>

    static ghost predicate Agree(k: Key, b: Bucket, level: Level, seen: real)
      reads b
    {
      b.key == k && level == Level(b.tokens, b.last) && seen == b.last
    }

    /** The maps agree. */
    ghost predicate Valid()
      reads this, objects
    {
      && buckets.Keys == lastSeen.Keys == table.Keys
      && (forall k :: k in buckets ==> buckets[k] in objects && Agree(k, buckets[k], table[k], lastSeen[k]))
    }

    constructor (rate: real, burst: real)
      ensures Valid() && table == map[] && fresh(objects)
      ensures params == Params(rate, burst, 300.0)
    {
      params := Params(rate, burst, GC_AFTER);
      buckets := map[];
      lastSeen := map[];
      table := map[];
      objects := {};
    }

    method Allow(key: Key, now: real) returns (ok: bool)
      requires Valid()
      modifies this, objects
      ensures Valid() && fresh(objects - old(objects))
      ensures ok == Allowed(params, old(table), key, now)
      ensures table == Called(params, old(table), key, now)
    {
      if key !in buckets {
        Add(key, now);
        ok := true;
      } else {
        ok := Spend(key, now);
      }
    }

    /** The first call of a client. */
    method Add(key: Key, now: real)
      requires Valid() && key !in buckets
      modifies this
      ensures Valid() && fresh(objects - old(objects))
      ensures table == old(table)[key := Level(params.burst - 1.0, now)]
    {
      lastSeen := lastSeen[key := now];
      var b := new Bucket(key, params.burst - 1.0, now);
      buckets := buckets[key := b];
      objects := objects + {b};
      table := table[key := Level(params.burst - 1.0, now)];
    }

    /** A call of a client with a bucket. */
    method Spend(key: Key, now: real) returns (ok: bool)
      requires Valid() && key in buckets
      modifies this`lastSeen, this`table, objects
      ensures Valid()
      ensures var r := Refilled(params, old(table)[key], now);
              ok == (r >= 1.0) && table == old(table)[key := Level(if ok then r - 1.0 else r, now)]
    {
      assert Agree(key, buckets[key], table[key], lastSeen[key]);
      lastSeen := lastSeen[key := now];
      ok := buckets[key].Take(params, now);
      table := table[key := Level(buckets[key].tokens, now)];
    }

    /** One tick of the collector. */
    method Collect(now: real)
      requires Valid()
      modifies this
      ensures Valid() && objects == old(objects)
      ensures table == Collected(params, old(table), now)
      ensures forall k :: k in buckets <==> k in old(buckets) && now - old(lastSeen)[k] <= params.gcAfter
    {
      assert forall k :: k in table ==> Agree(k, buckets[k], table[k], lastSeen[k]);
      var cutoff := now - params.gcAfter;
      var keys := lastSeen.Keys;
      NothingVisited(params, table, now);
      while keys != {}
        invariant Valid() && objects == old(objects) && keys <= table.Keys
        invariant table == Visited(params, old(table), keys, now)
        decreases |keys|
      {
        var k :| k in keys;
        VisitOne(params, old(table), keys, k, now);
        keys := keys - {k};
        if lastSeen[k] < cutoff {
          Forget(k);
        }
      }
    }

    method Forget(k: Key)
      requires Valid()
      modifies this
      ensures Valid() && objects == old(objects) && table == old(table) - {k}
    {
      buckets := buckets - {k};
      lastSeen := lastSeen - {k};
      table := table - {k};
    }
  }

  /** The table when the collector has still to visit the keys in pending. */
  function Visited(p: Params, t: Table, pending: set<Key>, now: real): Table {
    map k | k in t && (k in pending || !Stale(p, t[k], now)) :: t[k]
  }

  lemma NothingVisited(p: Params, t: Table, now: real)
    ensures Visited(p, t, t.Keys, now) == t
  {
  }

  lemma VisitOne(p: Params, t: Table, pending: set<Key>, k: Key, now: real)
    requires k in t && k in pending
    ensures Visited(p, t, pending - {k}, now) ==
            if Stale(p, t[k], now) then Visited(p, t, pending, now) - {k} else Visited(p, t, pending, now)
  {
  }

  /** Both limiters of the service, as configured by default, hide their collector. */
  lemma DefaultLimitersHideGc(start: real, events: seq<Event>)
    requires Forward(start, events)
    ensures var bids := Params(5.0, 10.0, GC_AFTER);
            Answers(bids, map[], events) == Answers(bids, map[], BucketGc.WithoutGc(events))
    ensures var auth := Params(1.0, 5.0, GC_AFTER);
            Answers(auth, map[], events) == Answers(auth, map[], BucketGc.WithoutGc(events))
  {
    BucketGc.GcIsInvisible(Params(5.0, 10.0, GC_AFTER), start, events);
    BucketGc.GcIsInvisible(Params(1.0, 5.0, GC_AFTER), start, events);
  }
}
