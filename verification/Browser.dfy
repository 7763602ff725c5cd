/** The port's own objects: a store of lot objects changed in place, one array of bids, and a map of timers. */
module Browser {
  import opened Wrappers
  import opened Auction
  import opened Tables
  import opened Port
  import opened PortTimers

  class LotObject {
    const id: LotId
    const title: string
    const start: real
    const step: real
    const created: int
    var price: real
    var status: Status
    var closing: int
    var version: int
    var winner: Option<UserId>
    var extended: nat

    constructor (id: LotId, title: string, start: real, step: real, closing: int, created: int)
      ensures this.id == id && this.title == title && this.created == created
      ensures Value() == NewLot(start, step, closing) && AsAsked(Value(), start, step, closing)
    {
      this.id, this.title, this.start, this.step, this.created := id, title, start, step, created;
      this.price, this.status, this.closing := start, Active, closing;
      this.version, this.winner, this.extended := 1, None, 0;
    }

    ghost function Value(): Lot
      reads this
    {
      Lot(start, step, price, status, closing, version, winner, extended)
    }

    /** The checks of placeBid on a lot that exists. */
    method Check(amount: real, now: int) returns (refused: Option<Error>)
      ensures refused == Validate(Value(), amount, now)
      ensures refused == None <==> Acceptable(Value(), amount, now)
      ensures forall e :: refused == Some(e) <==> Applies(e, Value(), amount, now)
    {
      if status != Active { return Some(NotActive); }
      if now > closing { return Some(AlreadyClosed); }
      if amount <= price { return Some(NotHigher); }
      if amount < price + step { return Some(BelowStep); }
      return None;
    }

    /** The part of closeLot that changes the lot in place. */
    method Seal(top: Option<Bid>)
      modifies this
      ensures Value() == Sealed(old(Value()), top) && AfterClose(old(Value()), top, Value())
    {
      if top.Some? {
        winner := Some(top.value.user);
      }
      status := Closed;
      version := version + 1;
    }

    /** The part of placeBid that changes the lot in place. */
    method Raise(amount: real, st: Stamp) returns (late: bool)
      modifies this
      ensures Value() == Raised(RULES, old(Value()), amount, st)
      ensures late == Snipes(RULES, old(Value()), st.until)
      ensures AfterBid(RULES, old(Value()), amount, st, Value()) && late == (old(closing) - st.until <= 30_000)
    {
      price := amount;
      version := version + 1;
      late := false;
      var msToClose := closing - st.until;
      if msToClose <= SNIPING_WINDOW_MS {
        closing := st.next + SNIPING_EXTENSION_MS;
        extended := extended + 1;
        late := true;
      }
    }
  }

  /** Latest creation first; of lots created together, in any order. */
  predicate NewestFirst(lots: seq<LotObject>) {
    forall i, j :: 0 <= i < j < |lots| ==> lots[i].created >= lots[j].created
  }

  method Insert(lots: seq<LotObject>, lot: LotObject) returns (more: seq<LotObject>)
    requires NewestFirst(lots)
    ensures NewestFirst(more) && |more| == |lots| + 1
    ensures forall o :: o in more <==> o == lot || o in lots
  {
    var i := 0;
    while i < |lots| && lots[i].created > lot.created
      invariant 0 <= i <= |lots| && forall k :: 0 <= k < i ==> lots[k].created >= lot.created
    {
      i := i + 1;
    }
    InsertKeepsOrder(lots, lot, i);
    more := lots[..i] + [lot] + lots[i..];
    assert lots == lots[..i] + lots[i..];
  }

  lemma InsertKeepsOrder(lots: seq<LotObject>, lot: LotObject, i: nat)
    requires NewestFirst(lots) && i <= |lots|
    requires forall k :: 0 <= k < i ==> lots[k].created >= lot.created
    requires i < |lots| ==> lots[i].created <= lot.created
    ensures NewestFirst(lots[..i] + [lot] + lots[i..])
  {
    var more := lots[..i] + [lot] + lots[i..];
    forall j, k | 0 <= j < k < |more| ensures more[j].created >= more[k].created {
      if k < i {
        assert more[j] == lots[j] && more[k] == lots[k];
      } else if k == i {
        assert more[j] == lots[j] && more[k] == lot;
      } else {
        var x := lots[k - 1];
        assert more[k] == x;
        assert lots[i].created >= x.created;
        if j < i {
          assert more[j] == lots[j];
        } else if j == i {
          assert more[j] == lot;
        } else {
          assert more[j] == lots[j - 1];
        }
      }
    }
  }

  function Ids(lots: seq<LotObject>): (ids: seq<LotId>)
    ensures |ids| == |lots| && forall i :: 0 <= i < |lots| ==> ids[i] == lots[i].id
  {
    if lots == [] then [] else Ids(lots[..|lots| - 1]) + [lots[|lots| - 1].id]
  }

  class Store {
    var lots: map<LotId, LotObject>
    var bids: seq<BidRow>

    /** The values of the lot objects, and the objects. */
    ghost var rows: map<LotId, Lot>
    ghost var objects: set<LotObject>

    ghost predicate Holds(x: LotId)
      requires x in lots && x in rows
      reads this, objects
    {
      lots[x] in objects && lots[x].id == x && rows[x] == lots[x].Value()
    }

    /** Every object is stored under its own id, and rows is up to date except perhaps for one lot. */
    ghost predicate ValidBut(id: LotId)
      reads this, objects
    {
      lots.Keys == rows.Keys && forall x :: x in lots && x != id ==> Holds(x)
    }

    ghost predicate Valid()
      reads this, objects
    {
      lots.Keys == rows.Keys && forall x :: x in lots ==> Holds(x)
    }

    constructor ()
      ensures Valid() && fresh(objects) && rows == map[] && bids == []
    {
      lots, bids, rows, objects := map[], [], map[], {};
    }

    method UpsertLot(lot: LotObject)
      requires ValidBut(lot.id)
      modifies this
      ensures Valid() && objects == old(objects) + {lot} && bids == old(bids)
      ensures rows == old(rows)[lot.id := lot.Value()] && lots == old(lots)[lot.id := lot]
    {
      lots := lots[lot.id := lot];
      rows := rows[lot.id := lot.Value()];
      objects := objects + {lot};
    }

    method AddBid(row: BidRow)
      requires Valid()
      modifies this`bids
      ensures Valid() && bids == old(bids) + [row]
    {
      bids := bids + [row];
    }

    /** Filter by lot, then reduce to the first of the largest amounts. */
    method HighestBid(id: LotId) returns (best: Option<Bid>)
      ensures best == Best(Of(bids, id))
    {
      var own: seq<Bid> := [];
      var i := 0;
      while i < |bids|
        invariant 0 <= i <= |bids| && own == Of(bids[..i], id)
      {
        OfAppend(bids[..i], bids[i], id);
        assert bids[..i] + [bids[i]] == bids[..i + 1];
        if bids[i].lot == id {
          own := own + [bids[i].bid];
        }
        i := i + 1;
      }
      assert bids[..i] == bids;
      best := None;
      i := 0;
      while i < |own|
        invariant 0 <= i <= |own| && best == Best(own[..i])
      {
        assert own[..i + 1][..i] == own[..i];
        if best.None? || own[i].amount > best.value.amount {
          best := Some(own[i]);
        }
        i := i + 1;
      }
      assert own[..i] == own;
    }

    /** The active lots, newest first. */
    method ListActive() returns (listed: seq<LotObject>)
      requires Valid()
      ensures forall o :: o in listed ==> o.id in lots && lots[o.id] == o && o.status == Active
      ensures forall x :: x in lots && lots[x].status == Active ==> lots[x] in listed
      ensures |listed| <= |lots| && NewestFirst(listed)
    {
      listed := [];
      var left := lots.Keys;
      while left != {}
        invariant left <= lots.Keys && |listed| + |left| <= |lots| && NewestFirst(listed)
        invariant forall o :: o in listed ==> o.id in lots && lots[o.id] == o && o.status == Active
        invariant forall x :: x in lots && x !in left && lots[x].status == Active ==> lots[x] in listed
        decreases |left|
      {
        var x :| x in left;
        left := left - {x};
        assert Holds(x);
        if lots[x].status == Active {
          listed := Insert(listed, lots[x]);
        }
      }
    }
  }

  class Engine {
    const store: Store
    var timers: map<LotId, Timer>
    var queue: seq<LotId>

    constructor (store: Store)
      ensures this.store == store && timers == map[] && queue == []
    {
      this.store := store;
      timers := map[];
      queue := [];
    }

    /** The state of the port that the objects stand for. */
    ghost function View(): Port
      reads this, store
    {
      Port(store.rows, store.bids, timers, queue)
    }

    method ClearTimer(id: LotId)
      modifies this`timers
      ensures View() == Cleared(old(View()), id)
    {
      if id in timers {
        timers := timers - {id};
      }
    }

    method ScheduleClose(lot: LotObject, now: int)
      requires store.Valid() && lot.id in store.lots && store.lots[lot.id] == lot
      modifies this
      ensures View() == Scheduled(old(View()), lot.id, now)
      ensures if lot.closing <= now
              then queue == old(queue) + [lot.id] && timers == old(timers) - {lot.id}
              else queue == old(queue)
                   && timers == old(timers)[lot.id := Timer(now, Min(lot.closing, now + 2_147_483_000))]
    {
      assert store.Holds(lot.id);
      ClearTimer(lot.id);
      var ms := lot.closing - now;
      if ms <= 0 {
        queue := queue + [lot.id];
        return;
      }
      timers := timers[lot.id := Timer(now, now + Min(ms, MAX_DELAY_MS))];
    }

    method CreateLot(id: LotId, title: string, start: real, step: real, closing: int, check: int, created: int, at: int)
      returns (r: Result<LotObject, CreateError>)
      requires store.Valid()
      modifies this, store
      ensures store.Valid() && fresh(store.objects - old(store.objects))
      ensures match CheckCreate(title, start, step, closing, check)
              case Some(e) => r == Failure(e) && View() == old(View())
              case None =>
                && r.Success? && id in store.lots && r.value == store.lots[id] && r.value.created == created
                && r.value.title == Trim(title)
                && View() == Created(old(View()), id, start, step, closing, at)
      ensures r.Success? <==> !Blank(title) && start > 0.0 && step > 0.0 && check < closing
      ensures r == Failure(NoTitle) <==> Blank(title)
      ensures r == Failure(NoStart) <==> !Blank(title) && start <= 0.0
      ensures r == Failure(NoStep) <==> !Blank(title) && start > 0.0 && step <= 0.0
      ensures r == Failure(PastClosing) <==> !Blank(title) && start > 0.0 && step > 0.0 && closing <= check
      ensures r.Success? ==>
                AsAsked(r.value.Value(), start, step, closing) && id in store.lots && store.lots[id] == r.value
    {
      TrimLeavesNothing(title);
      if Trim(title) == [] { return Failure(NoTitle); }
      if start <= 0.0 { return Failure(NoStart); }
      if step <= 0.0 { return Failure(NoStep); }
      if closing <= check { return Failure(PastClosing); }
      var lot := new LotObject(id, Trim(title), start, step, closing, created);
      store.UpsertLot(lot);
      ScheduleClose(lot, at);
      return Success(lot);
    }

    /** The part of placeBid that writes: the bid, the lot object in place, and the store. */
    method Record(lot: LotObject, user: UserId, amount: real, st: Stamp) returns (extended: bool)
      requires store.Valid() && lot.id in store.lots && store.lots[lot.id] == lot
      modifies store, lot
      ensures store.Valid() && store.objects == old(store.objects) && store.lots == old(store.lots)
      ensures store.rows == old(store.rows)[lot.id := Raised(RULES, old(store.rows)[lot.id], amount, st)]
      ensures store.bids == old(store.bids) + [BidRow(lot.id, Bid(user, amount))]
      ensures extended == Snipes(RULES, old(store.rows)[lot.id], st.until)
      ensures lot.id in old(store.rows) && AfterBid(RULES, old(store.rows)[lot.id], amount, st, lot.Value())
    {
      assert store.Holds(lot.id);
      store.AddBid(BidRow(lot.id, Bid(user, amount)));
      extended := lot.Raise(amount, st);
      store.UpsertLot(lot);
    }

    method PlaceBid(id: LotId, user: UserId, amount: real, st: Stamp, at: int)
      returns (r: Result<LotObject, Error>)
      requires store.Valid()
      modifies this, store, store.objects
      ensures store.Valid() && store.objects == old(store.objects)
      ensures match CheckBid(old(View()), id, amount, st.check)
              case Some(e) => r == Failure(e) && View() == old(View())
              case None =>
                && r.Success? && id in store.lots && r.value == store.lots[id]
                && View() == BidPlaced(old(View()), id, user, amount, st, at)
      ensures r.Success? <==> id in old(store.rows) && Acceptable(old(store.rows)[id], amount, st.check)
      ensures forall e :: r == Failure(e) <==>
                if id !in old(store.rows) then e == NotFound else Applies(e, old(store.rows)[id], amount, st.check)
      ensures r.Success? ==>
                && AfterBid(RULES, old(store.rows)[id], amount, st, r.value.Value())
                && store.rows == old(store.rows)[id := r.value.Value()]
                && store.bids == old(store.bids) + [BidRow(id, Bid(user, amount))]
      ensures r.Success? ==>
                if old(store.rows)[id].closing - st.until > 30_000 then timers == old(timers) && queue == old(queue)
                else if st.next + 30_000 <= at then timers == old(timers) - {id} && queue == old(queue) + [id]
                else
                  && timers == old(timers)[id := Timer(at, Min(st.next + 30_000, at + 2_147_483_000))]
                  && queue == old(queue)
    {
      if id !in store.lots { return Failure(NotFound); }
      var lot := store.lots[id];
      assert store.Holds(id);
      var refused := lot.Check(amount, st.check);
      if refused.Some? { return Failure(refused.value); }
      var extended := Record(lot, user, amount, st);
      if extended {
        ScheduleClose(lot, at);
      }
      return Success(lot);
    }

    method CloseLot(id: LotId, now: int, at: int)
      requires store.Valid()
      modifies this, store, store.objects
      ensures store.Valid() && store.objects == old(store.objects)
      ensures View() == ClosedOrDeferred(old(View()), id, now, at)
    {
      if id !in store.lots { return; }
      var lot := store.lots[id];
      assert store.Holds(id);
      if lot.status != Active { return; }
      if now < lot.closing {
        ScheduleClose(lot, at);
        return;
      }
      SealLot(lot);
    }

    /** The part of closeLot that writes: the lot object in place, the store, and the timer. */
    method SealLot(lot: LotObject)
      requires store.Valid() && lot.id in store.lots && store.lots[lot.id] == lot
      modifies this, store, lot
      ensures store.Valid() && store.objects == old(store.objects)
      ensures var p, id := old(View()), lot.id;
              View() == Cleared(p.(lots := p.lots[id := Sealed(p.lots[id], Best(Of(p.bids, id)))]), id)
      ensures AfterClose(old(lot.Value()), Best(Of(store.bids, lot.id)), lot.Value())
    {
      assert store.Holds(lot.id);
      var top := store.HighestBid(lot.id);
      lot.Seal(top);
      store.UpsertLot(lot);
      ClearTimer(lot.id);
    }

    /** The event loop runs the queued closes, at these readings. */
    method RunMicrotasks(readings: seq<int>)
      requires store.Valid()
      modifies this, store, store.objects
      ensures store.Valid() && store.objects == old(store.objects)
      ensures View() == Drained(old(View()), readings)
    {
      var i := 0;
      while queue != [] && i < |readings|
        invariant 0 <= i <= |readings|
        invariant store.Valid() && store.objects == old(store.objects)
        invariant Drained(View(), readings[i..]) == Drained(old(View()), readings)
        decreases |readings| - i
      {
        var id := queue[0];
        queue := queue[1..];
        CloseLot(id, readings[i], readings[i]);
        assert readings[i..][1..] == readings[i + 1..];
        i := i + 1;
      }
    }

    /** Start-up: scheduleClose for each listed lot in turn, the i-th one at reading ats[i]. */
    method RestoreTimers(ats: seq<int>) returns (listed: seq<LotObject>)
      requires store.Valid() && |ats| >= |store.lots|
      modifies this
      ensures |listed| <= |ats| && NewestFirst(listed) && AllLive(old(View()), Ids(listed))
      ensures forall x :: Live(old(View()), x) ==> x in Ids(listed)
      ensures View() == Restored(old(View()), Ids(listed), ats[..|listed|])
    {
      listed := store.ListActive();
      ListedAreLive(listed);
      ghost var ids, times := Ids(listed), ats[..|listed|];
      var i := 0;
      assert ids[0..] == ids && times[0..] == times;
      while i < |listed|
        invariant 0 <= i <= |listed| && |times| == |ids| == |listed|
        invariant AllLive(View(), ids[i..])
        invariant View().lots == old(View()).lots
        invariant Restored(View(), ids[i..], times[i..]) == Restored(old(View()), ids, times)
      {
        RestoreOne(View(), ids, times, i);
        assert listed[i] in listed;
        ScheduleClose(listed[i], ats[i]);
        i := i + 1;
      }
    }

    lemma ListedAreLive(listed: seq<LotObject>)
      requires store.Valid()
      requires forall o :: o in listed ==> o.id in store.lots && store.lots[o.id] == o && o.status == Active
      requires forall x :: x in store.lots && store.lots[x].status == Active ==> store.lots[x] in listed
      ensures AllLive(View(), Ids(listed))
      ensures forall x :: Live(View(), x) ==> x in Ids(listed)
    {
      assert forall x :: x in store.lots ==> store.Holds(x);
      assert forall i :: 0 <= i < |listed| ==> listed[i] in listed;
      forall x | Live(View(), x) ensures x in Ids(listed) {
        var i :| 0 <= i < |listed| && listed[i] == store.lots[x];
        assert Ids(listed)[i] == x;
      }
    }
  }
}
