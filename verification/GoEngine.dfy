/** The Go objects: the repository over its tables, and the engine with its timers, events and counters. */
module GoEngine {
  import opened Wrappers
  import opened Money
  import opened Auction
  import opened Tables
  import opened GoCalls
  import opened Alarms

  /** A TEXT column takes every string without the zero character. */
  predicate IsText(s: string) {
    forall i :: 0 <= i < |s| ==> s[i] != '\0'
  }

  datatype LotRow = LotRow(id: LotId, lot: Lot)

  /** An open transaction: the row it has locked, and what it has written, which nobody else sees. */
  datatype Tx = Tx(locked: Option<LotId>, inserted: Option<BidRow>, updated: Option<LotRow>)

  const NEW_TX := Tx(None, None, None)

  /** The tables with the writes of a transaction in them. */
  function Applied(db: Database, tx: Tx): Database {
    Database(if tx.updated.Some? then db.lots[tx.updated.value.id := tx.updated.value.lot] else db.lots,
             if tx.inserted.Some? then db.bids + [tx.inserted.value] else db.bids)
  }

  class Repo {
    const cfg: Config
    const rowLock: bool
    var lots: map<LotId, Lot>
    var bids: seq<BidRow>
    var tx: Option<Tx>

    constructor (cfg: Config, rowLock: bool)
      ensures this.cfg == cfg && this.rowLock == rowLock
      ensures View() == Database(map[], []) && tx == None
    {
      this.cfg, this.rowLock := cfg, rowLock;
      lots, bids, tx := map[], [], None;
    }

    ghost function View(): Database
      reads this`lots, this`bids
    {
      Database(lots, bids)
    }

    function Locked(): Option<LotId>
      reads this`tx
    {
      if tx.Some? then tx.value.locked else None
    }

    /** Other connections commit, one operation at a time. */
    method Others(fs: seq<Foreign>)
      modifies this`lots, this`bids
      ensures View() == CommitAll(cfg, old(View()), Locked(), fs)
    {
      var db := Database(lots, bids);
      var i := 0;
      while i < |fs|
        invariant 0 <= i <= |fs| && db == CommitAll(cfg, old(View()), Locked(), fs[..i])
      {
        assert fs[..i + 1][..i] == fs[..i];
        db := Commit(cfg, db, Locked(), fs[i]);
        i := i + 1;
      }
      assert fs[..i] == fs;
      lots, bids := db.lots, db.bids;
    }

    /** The insert of a new lot, which fails when a column cannot hold its title or an amount. */
    method CreateLot(id: LotId, title: string, lot: Lot, broken: bool) returns (err: Option<Error>)
      requires id !in lots
      modifies this`lots
      ensures err == if broken || !IsText(title) then Some(DbError)
                     else if !Fits(cfg.column, lot.start) || !Fits(cfg.column, lot.step) || !Fits(cfg.column, lot.price)
                     then Some(OutOfRange) else None
      ensures lots == if err.Some? then old(lots)
                      else old(lots)[id := lot.(start := Stored(cfg.column, lot.start),
                                                step := Stored(cfg.column, lot.step),
                                                price := Stored(cfg.column, lot.price))]
    {
      if broken || !IsText(title) { return Some(DbError); }
      var column := cfg.column;
      if !Fits(column, lot.start) || !Fits(column, lot.step) || !Fits(column, lot.price) {
        return Some(OutOfRange);
      }
      lots := lots[id := lot.(start := Stored(column, lot.start), step := Stored(column, lot.step),
                              price := Stored(column, lot.price))];
      return None;
    }

    /** FOR UPDATE holds the row for as long as the transaction lasts. */
    method GetLotByID(id: LotId, forUpdate: bool, broken: bool) returns (r: Result<Lot, Error>)
      modifies this`tx
      ensures r == if broken then Failure(DbError) else if id !in lots then Failure(NotFound) else Success(lots[id])
      ensures tx == if r.Success? && forUpdate && old(tx).Some?
                    then Some(old(tx).value.(locked := Lock(rowLock, id))) else old(tx)
    {
      if broken { return Failure(DbError); }
      if id !in lots { return Failure(NotFound); }
      if forUpdate && tx.Some? {
        tx := Some(tx.value.(locked := Lock(rowLock, id)));
      }
      return Success(lots[id]);
    }

    method CreateBid(id: LotId, user: UserId, amount: real, broken: bool) returns (err: Option<Error>)
      requires tx.Some?
      modifies this`tx
      ensures err == if broken then Some(DbError) else if !Fits(cfg.column, amount) then Some(OutOfRange) else None
      ensures tx == if err.Some? then old(tx)
                    else Some(old(tx).value.(inserted := Some(BidRow(id, Bid(user, Stored(cfg.column, amount))))))
    {
      if broken { return Some(DbError); }
      if !Fits(cfg.column, amount) { return Some(OutOfRange); }
      tx := Some(tx.value.(inserted := Some(BidRow(id, Bid(user, Stored(cfg.column, amount))))));
      return None;
    }

    /** UPDATE ... WHERE id = ? AND version = ?, in the open transaction or, without one, at once. */
    method UpdateLot(id: LotId, lot: Lot, oldVersion: int, broken: bool) returns (err: Option<Error>)
      modifies this`lots, this`tx
      ensures err == if broken then Some(DbError)
                     else if id in old(lots) && old(lots)[id].version == oldVersion then None else Some(OptimisticLock)
      ensures lots == if err == None && old(tx) == None then old(lots)[id := Persisted(cfg, lot)] else old(lots)
      ensures tx == if err == None && old(tx).Some?
                    then Some(old(tx).value.(updated := Some(LotRow(id, Persisted(cfg, lot))))) else old(tx)
    {
      if broken { return Some(DbError); }
      if id !in lots || lots[id].version != oldVersion { return Some(OptimisticLock); }
      if tx.Some? {
        tx := Some(tx.value.(updated := Some(LotRow(id, Persisted(cfg, lot)))));
      } else {
        lots := lots[id := Persisted(cfg, lot)];
      }
      return None;
    }

    method BeginTx()
      modifies this`tx
      ensures tx == Some(NEW_TX)
    {
      tx := Some(NEW_TX);
    }

    /** A commit that fails has rolled back. */
    method CommitTx(broken: bool) returns (err: Option<Error>)
      requires tx.Some?
      modifies this
      ensures tx == None && err == if broken then Some(DbError) else None
      ensures View() == if broken then old(View()) else Applied(old(View()), old(tx).value)
    {
      if broken {
        tx := None;
        return Some(DbError);
      }
      if tx.value.updated.Some? {
        lots := lots[tx.value.updated.value.id := tx.value.updated.value.lot];
      }
      if tx.value.inserted.Some? {
        bids := bids + [tx.value.inserted.value];
      }
      tx := None;
      return None;
    }

    method Rollback()
      modifies this`tx
      ensures tx == None
    {
      tx := None;
    }

    /** ORDER BY amount DESC LIMIT 1. */
    method GetHighestBid(id: LotId) returns (top: Option<Bid>)
      ensures IsHighest(top, Of(bids, id))
    {
      top := None;
      var i := 0;
      while i < |bids|
        invariant 0 <= i <= |bids| && IsHighest(top, Of(bids[..i], id))
      {
        OfAppend(bids[..i], bids[i], id);
        assert bids[..i] + [bids[i]] == bids[..i + 1];
        if bids[i].lot == id && (top.None? || bids[i].bid.amount > top.value.amount) {
          top := Some(bids[i].bid);
        }
        i := i + 1;
      }
      assert bids[..i] == bids;
    }
  }

  datatype Message =
    | NewBid(lot: LotId, user: UserId, amount: real)
    | LotExtended(lot: LotId, closing: int, count: nat)
    | LotClosed(lot: LotId, winner: Option<UserId>, price: real)

  /** The lot as the winning attempt left it, and whether that extended it. */
  datatype Win = Win(lot: Lot, late: bool)

  /** A new lot as CreateLot makes it, and as its row holds it. */
  function NewLot(start: real, step: real, closing: int): Lot {
    Lot(start, step, start, Active, closing, 1, None, 0)
  }

  /** The row that creating the lot inserts, if the database takes it. */
  function CreatedIn(cfg: Config, db: Database, id: LotId, title: string, start: real, step: real, closing: int)
    : Result<Database, Error>
  {
    if !IsText(title) then Failure(DbError)
    else if Fits(cfg.column, start) && Fits(cfg.column, step)
    then Success(db.(lots := db.lots[id := NewLot(Stored(cfg.column, start), Stored(cfg.column, step), closing)]))
    else Failure(OutOfRange)
  }

  class Engine {
    const repo: Repo

    /**
     The engine's map of timers, and the timers themselves: those still running, how many were made, what they
     started, and which of them a call of scheduleClose has in its hands.
     */
    var timers: map<LotId, nat>
    var running: map<nat, Alarm>
    var made: nat
    var spawned: seq<LotId>
    var halfway: map<nat, LotId>

    var sent: seq<Message>
    var gauge: int
    var closures: nat

    constructor (repo: Repo)
      ensures this.repo == repo && Pending() == NO_ALARMS && sent == [] && gauge == 0 && closures == 0
    {
      this.repo := repo;
      timers, running, made, spawned, halfway := map[], map[], 0, [], map[];
      sent, gauge, closures := [], 0, 0;
    }

    ghost function Pending(): Alarms
      reads this`timers, this`running, this`made, this`spawned, this`halfway
    {
      Alarms(running, timers, made, spawned, halfway)
    }

    /** Timers go off and other calls schedule closes. */
    method OtherTimers(ticks: seq<Tick>)
      modifies this`timers, this`running, this`made, this`spawned, this`halfway
      ensures Pending() == TickedAll(old(Pending()), ticks)
    {
      var s := Alarms(running, timers, made, spawned, halfway);
      var i := 0;
      while i < |ticks|
        invariant 0 <= i <= |ticks| && s == TickedAll(old(Pending()), ticks[..i])
      {
        assert ticks[..i + 1][..i] == ticks[..i];
        s := Ticked(s, ticks[i]);
        i := i + 1;
      }
      assert ticks[..i] == ticks;
      timers, running, made, spawned, halfway := s.timers, s.running, s.made, s.spawned, s.halfway;
    }

    /** The timer runs from its creation on; ticks is what happens before the mutex is taken. */
    method ScheduleClose(id: LotId, closing: int, now: int, ticks: seq<Tick>)
      modifies this`timers, this`running, this`made, this`spawned, this`halfway
      ensures Pending() == Scheduled(old(Pending()), id, closing, now, ticks)
      ensures closing <= now ==>
                && spawned == old(spawned) + [id] && running == old(running)
                && timers == old(timers) && halfway == old(halfway)
      ensures closing > now && Neat(old(Pending())) && Registers(old(made)) !in ticks ==>
                && Neat(Pending()) && id in timers && timers[id] == old(made) && old(spawned) <= spawned
                && if GoesOff(old(made)) in ticks then id in spawned[|old(spawned)|..]
                   else old(made) in running && running[old(made)] == Alarm(id, closing)
    {
      var duration := closing - now;
      if duration <= 0 {
        spawned := spawned + [id];
        return;
      }
      var timer := made;
      running, made, halfway := running[timer := Alarm(id, now + duration)], made + 1, halfway[made := id];
      assert Pending() == Created(old(Pending()), id, closing);
      OtherTimers(ticks);
      ghost var before := Pending();
      if id in timers {
        running := running - {timers[id]};
      }
      timers, halfway := timers[id := timer], halfway - {timer};
      assert Pending() == Registered(before, id, timer);
      ScheduledWell(old(Pending()), id, closing, now, ticks);
    }

    method ClearTimer(id: LotId)
      modifies this`timers, this`running
      ensures Pending() == Cleared(old(Pending()), id)
      ensures timers == old(timers) - {id}
      ensures running == if id in old(timers) then old(running) - {old(timers)[id]} else old(running)
    {
      if id in timers {
        running, timers := running - {timers[id]}, timers - {id};
      }
    }

    static lemma ScheduledWell(s: Alarms, id: LotId, closing: int, now: int, ticks: seq<Tick>)
      ensures closing > now && Neat(s) && Registers(s.made) !in ticks ==>
                var after := Scheduled(s, id, closing, now, ticks);
                && Neat(after) && id in after.timers && after.timers[id] == s.made && s.spawned <= after.spawned
                && if GoesOff(s.made) in ticks then id in after.spawned[|s.spawned|..]
                   else s.made in after.running && after.running[s.made] == Alarm(id, closing)
    {
      if closing > now && Neat(s) && Registers(s.made) !in ticks {
        LastToRegisterWins(s, id, closing, now, ticks);
      }
    }

    /** id is the one the insert returns; an error leaves no row, no count and no timer. */
    method CreateLot(id: LotId, title: string, start: real, step: real, closing: int, broken: bool,
                     now: int, ticks: seq<Tick>)
      returns (r: Result<Lot, Error>)
      requires id !in repo.lots
      modifies this, repo`lots
      ensures var to := CreatedIn(repo.cfg, old(repo.View()), id, title, start, step, closing);
              if !broken && to.Success?
              then
                && r == Success(NewLot(start, step, closing)) && repo.View() == to.value
                && gauge == old(gauge) + 1 && Pending() == Scheduled(old(Pending()), id, closing, now, ticks)
              else
                && r == Failure(if broken then DbError else to.error) && repo.View() == old(repo.View())
                && gauge == old(gauge) && Pending() == old(Pending())
      ensures sent == old(sent) && closures == old(closures)
      ensures r.Success? <==> !broken && IsText(title) && Fits(repo.cfg.column, start) && Fits(repo.cfg.column, step)
      ensures r.Failure? ==> repo.lots == old(repo.lots)
      ensures r.Success? ==>
                && AsAsked(r.value, start, step, closing)
                && id in repo.lots && repo.lots == old(repo.lots)[id := repo.lots[id]] && repo.bids == old(repo.bids)
                && AsAsked(repo.lots[id], Stored(repo.cfg.column, start), Stored(repo.cfg.column, step), closing)
    {
      var lot := Lot(start, step, start, Active, closing, 1, None, 0);
      var err := repo.CreateLot(id, title, lot, broken);
      if err.Some? { return Failure(err.value); }
      gauge := gauge + 1;
      ScheduleClose(id, closing, now, ticks);
      return Success(lot);
    }

    /** The rejections of PlaceBid, in their order. */
    method Check(l: Lot, amount: real, now: int) returns (refused: Option<Error>)
      ensures refused == Validate(l, amount, now)
      ensures refused == None <==> Acceptable(l, amount, now)
      ensures forall e :: refused == Some(e) <==> Applies(e, l, amount, now)
    {
      if l.status != Active { return Some(NotActive); }
      if now > l.closing { return Some(AlreadyClosed); }
      if amount <= l.price { return Some(NotHigher); }
      if amount < l.price + l.step { return Some(BelowStep); }
      return None;
    }

    /** The changes PlaceBid makes to the lot it has read, and whether they extend it. */
    method Raise(row: Lot, amount: real, st: Stamp) returns (l: Lot, late: bool)
      ensures l == Raised(repo.cfg, row, amount, st) && late == Snipes(repo.cfg, row, st.until)
      ensures AfterBid(repo.cfg, row, amount, st, l) && late == LastMinute(repo.cfg, row, st.until)
    {
      l := row.(price := amount, version := row.version + 1);
      late := false;
      if repo.cfg.window > 0 && l.closing - st.until <= repo.cfg.window {
        l := l.(closing := st.next + repo.cfg.extension, extended := l.extended + 1);
        late := true;
      }
    }

    /** One transaction of PlaceBid. */
    method TryBid(id: LotId, user: UserId, amount: real, a: Attempt) returns (t: Try)
      requires repo.tx == None
      modifies repo
      ensures t == TryOnce(repo.cfg, repo.rowLock, old(repo.View()), id, user, amount, a)
      ensures repo.View() == t.db && repo.tx == None
      ensures var before := CommitAll(repo.cfg, old(repo.View()), None, a.before);
              var after := CommitAll(repo.cfg, before, Lock(repo.rowLock, id), a.during);
              && (t.Won? ==> Took(repo.cfg, after, t.db, id, user, amount, a.stamp, t.lot))
              && (t.Conflict? ==> id in before.lots && before.lots[id].version < after.lots[id].version)
              && (t.Lost? && t.error != DbError ==>
                    Refuses(repo.cfg, before, id, amount, a.stamp.check, t.error))
    {
      TryMeans(repo.cfg, repo.rowLock, repo.View(), id, user, amount, a);
      repo.BeginTx();
      repo.Others(a.before);
      var row := repo.GetLotByID(id, true, a.fault.First?);
      if row.Failure? {
        repo.Rollback();
        return Lost(Database(repo.lots, repo.bids), row.error, false);
      }
      var refused := Check(row.value, amount, a.stamp.check);
      if refused.Some? {
        repo.Rollback();
        return Lost(Database(repo.lots, repo.bids), refused.value, false);
      }
      var err := repo.CreateBid(id, user, amount, a.fault.Second?);
      if err.Some? {
        repo.Rollback();
        return Lost(Database(repo.lots, repo.bids), err.value, false);
      }
      t := Finish(id, user, amount, row.value, a);
    }

    /** The transaction from its insert on: update under the version check, and commit or roll back. */
    method Finish(id: LotId, user: UserId, amount: real, row: Lot, a: Attempt) returns (t: Try)
      requires id in repo.lots
      requires repo.tx == Some(Tx(Lock(repo.rowLock, id),
                                  Some(BidRow(id, Bid(user, Stored(repo.cfg.column, amount)))), None))
      modifies repo
      ensures var u := CommitAll(repo.cfg, old(repo.View()), Lock(repo.rowLock, id), a.during);
              t == Updated(repo.cfg, u, id, user, amount, row, a)
      ensures repo.View() == t.db && repo.tx == None
      ensures t.Won? ==>
                && AfterBid(repo.cfg, row, amount, a.stamp, t.lot) && t.late == LastMinute(repo.cfg, row, a.stamp.until)
                && id in repo.lots && AfterBid(repo.cfg, row, Stored(repo.cfg.column, amount), a.stamp, repo.lots[id])
    {
      var l, late := Raise(row, amount, a.stamp);
      repo.Others(a.during);
      var err := repo.UpdateLot(id, l, row.version, a.fault.Third?);
      if err.Some? {
        repo.Rollback();
        var db := Database(repo.lots, repo.bids);
        return if err.value == OptimisticLock then Conflict(db) else Lost(db, err.value, true);
      }
      err := repo.CommitTx(a.fault.AtCommit?);
      if err.Some? { return Lost(Database(repo.lots, repo.bids), err.value, true); }
      return Won(Database(repo.lots, repo.bids), l, late);
    }

    /** What follows a committed bid: the events, and a new timer if it extended the lot. */
    method Tell(id: LotId, user: UserId, amount: real, lot: Lot, late: bool, at: int, ticks: seq<Tick>)
      modifies this`sent, this`timers, this`running, this`made, this`spawned, this`halfway
      ensures sent == old(sent) + [NewBid(id, user, amount)]
                      + if late then [LotExtended(id, lot.closing, lot.extended)] else []
      ensures Pending() == if late then Scheduled(old(Pending()), id, lot.closing, at, ticks) else old(Pending())
    {
      sent := sent + [NewBid(id, user, amount)];
      if late {
        ScheduleClose(id, lot.closing, at, ticks);
        sent := sent + [LotExtended(id, lot.closing, lot.extended)];
      }
    }

    /** With k attempts behind it and these tables, the call ends as whole does. */
    ghost predicate OnCourse(id: LotId, user: UserId, amount: real, schedule: seq<Attempt>, k: nat, whole: Placed)
      requires k <= |schedule|
      reads repo
    {
      if k < |schedule|
      then SameEnd(Place(repo.cfg, repo.rowLock, repo.View(), id, user, amount, schedule[k..]), whole)
      else whole.db == repo.View() && whole.answer == Failure(Exhausted) && !whole.late
    }

    /** Attempt number k. */
    method Try(id: LotId, user: UserId, amount: real, schedule: seq<Attempt>, k: nat, ghost whole: Placed)
      returns (t: Try)
      requires k < |schedule| && repo.tx == None && OnCourse(id, user, amount, schedule, k, whole)
      modifies repo
      ensures repo.tx == None
      ensures match t
              case Won(_, lot, late) => whole.db == repo.View() && whole.answer == Success(lot) && whole.late == late
              case Lost(_, e, _) => whole.db == repo.View() && whole.answer == Failure(e) && !whole.late
              case Conflict(_) => OnCourse(id, user, amount, schedule, k + 1, whole)
    {
      PlaceFirst(repo.cfg, repo.rowLock, repo.View(), id, user, amount, schedule[k..]);
      assert schedule[k..][1..] == schedule[k + 1..];
      t := TryBid(id, user, amount, schedule[k]);
    }

    /** The loop of PlaceBid: the lot and whether it was extended, by the first attempt that wins. */
    method Attempts(id: LotId, user: UserId, amount: real, schedule: seq<Attempt>) returns (r: Result<Win, Error>)
      requires |schedule| == 3 && repo.tx == None
      modifies repo
      ensures repo.tx == None
      ensures var p := Place(repo.cfg, repo.rowLock, old(repo.View()), id, user, amount, schedule);
              && repo.View() == p.db
              && match p.answer
                 case Success(lot) => r == Success(Win(lot, p.late))
                 case Failure(e) => r == Failure(e) && !p.late
    {
      ghost var whole := Place(repo.cfg, repo.rowLock, repo.View(), id, user, amount, schedule);
      assert schedule[0..] == schedule;
      var attempts := 0;
      while attempts < MAX_ATTEMPTS
        invariant 0 <= attempts <= MAX_ATTEMPTS && repo.tx == None
        invariant OnCourse(id, user, amount, schedule, attempts, whole)
      {
        var t := Try(id, user, amount, schedule, attempts, whole);
        match t {
          case Conflict(_) =>
          case Lost(_, e, _) => return Failure(e);
          case Won(_, lot, late) => return Success(Win(lot, late));
        }
        attempts := attempts + 1;
      }
      return Failure(Exhausted);
    }

    /** at is the reading scheduleClose takes after a late bid, and ticks what happens in the middle of it. */
    method PlaceBid(id: LotId, user: UserId, amount: real, schedule: seq<Attempt>, at: int, ticks: seq<Tick>)
      returns (r: Result<Lot, Error>)
      requires |schedule| == 3 && repo.tx == None
      modifies this, repo
      ensures var p := Place(repo.cfg, repo.rowLock, old(repo.View()), id, user, amount, schedule);
              && r == p.answer && repo.View() == p.db
              && sent == (if p.answer.Failure? then old(sent)
                          else if p.late
                          then old(sent) + [NewBid(id, user, amount),
                                            LotExtended(id, p.answer.value.closing, p.answer.value.extended)]
                          else old(sent) + [NewBid(id, user, amount)])
              && Pending() == (if p.answer.Success? && p.late
                               then Scheduled(old(Pending()), id, p.answer.value.closing, at, ticks)
                               else old(Pending()))
      ensures repo.tx == None && gauge == old(gauge) && closures == old(closures)
    {
      var won := Attempts(id, user, amount, schedule);
      if won.Failure? { return Failure(won.error); }
      Tell(id, user, amount, won.value.lot, won.value.late, at, ticks);
      return Success(won.value.lot);
    }

    /** CloseLot of a lot that was due when it was read: the highest bid, then the versioned update. */
    method Shut(id: LotId, row: Lot, first: seq<Foreign>, second: seq<Foreign>, fault: Fault, ghost now: int)
      returns (err: Option<Error>, winner: Option<UserId>)
      requires repo.tx == None && id in repo.lots && row == repo.lots[id] && !fault.First?
      requires row.status == Active && now >= row.closing
      requires Stored(repo.cfg.column, row.price) == row.price
      modifies repo
      ensures Closes(repo.cfg, old(repo.View()), repo.View(), id, first, second, fault, now, err)
      ensures repo.tx == None && (err == None ==> id in repo.lots && winner == repo.lots[id].winner)
    {
      winner := None;
      repo.Others(first);
      if fault.Second? { return Some(DbError), None; }
      var top := repo.GetHighestBid(id);
      var lot := row;
      if top.Some? {
        lot := lot.(winner := Some(top.value.user));
      }
      lot := lot.(status := Closed, version := lot.version + 1);
      repo.Others(second);
      CloseIsAtomic(repo.cfg, old(repo.View()), first, second, id, now, top);
      ghost var u := repo.View();
      assert lot == Sealed(row, top) && Persisted(repo.cfg, lot) == lot;
      err := repo.UpdateLot(id, lot, row.version, fault.Third?);
      assert err == None ==> ClosedBy(repo.cfg, u, repo.View(), id, now, top);
      winner := lot.winner;
    }

    /**
     closeLotByID and CloseLot: the row is read, others commit, the highest bid is read, others commit,
     and the row is updated if its version is still the one read.  now is the clock check, at the
     reading scheduleClose takes if the lot is not due.
     */
    method CloseLotByID(id: LotId, first: seq<Foreign>, second: seq<Foreign>, fault: Fault,
                        now: int, at: int, ticks: seq<Tick>)
      returns (err: Option<Error>)
      requires repo.tx == None
      requires id in repo.lots ==> Stored(repo.cfg.column, repo.lots[id].price) == repo.lots[id].price
      modifies this, repo
      ensures repo.tx == None
      ensures Closes(repo.cfg, old(repo.View()), repo.View(), id, first, second, fault, now, err)
      ensures var l0 := old(repo.lots);
              if err == None && id in l0 && l0[id].status == Active
              then
                if now < l0[id].closing
                then Pending() == Scheduled(old(Pending()), id, l0[id].closing, at, ticks) && sent == old(sent)
                     && gauge == old(gauge) && closures == old(closures)
                else id in repo.lots && Pending() == Cleared(old(Pending()), id)
                     && sent == old(sent) + [LotClosed(id, repo.lots[id].winner, l0[id].price)]
                     && gauge == old(gauge) - 1 && closures == old(closures) + 1
              else Pending() == old(Pending()) && sent == old(sent) && gauge == old(gauge) && closures == old(closures)
    {
      var row := repo.GetLotByID(id, false, fault.First?);
      if row.Failure? { return Some(row.error); }
      var lot := row.value;
      if lot.status != Active { return None; }
      if now < lot.closing {
        ScheduleClose(id, lot.closing, at, ticks);
        return None;
      }
      var winner;
      err, winner := Shut(id, lot, first, second, fault, now);
      if err.Some? { return err; }
      closures := closures + 1;
      gauge := gauge - 1;
      ClearTimer(id);
      sent := sent + [LotClosed(id, winner, lot.price)];
    }
  }
}
