/** What one PlaceBid does to the tables while others commit between its statements. */
module GoCalls {
  import opened Wrappers
  import opened Money
  import opened Auction
  import opened Tables

  const MAX_ATTEMPTS := 3

  /**
   The statement at which the database fails: a bid reads, inserts, updates and commits, a close reads,
   queries and updates.
   */
  datatype Fault = NoFault | First | Second | Third | AtCommit

  /**
   What others commit before the row is read and between the read and the update, the readings of the
   attempt, and where it meets a failure of the database.
   */
  datatype Attempt = Attempt(before: seq<Foreign>, during: seq<Foreign>, stamp: Stamp, fault: Fault)

  function Lock(rowLock: bool, id: LotId): Option<LotId> {
    if rowLock then Some(id) else None
  }

  function Own(id: LotId, user: UserId, amount: real, st: Stamp): Foreign {
    Foreign(id, BidOp(0, user, amount, st))
  }

  datatype Try =
    | Won(db: Database, lot: Lot, late: bool)
    | Conflict(db: Database)
    | Lost(db: Database, error: Error, later: bool)       // later: others got in after the read

  /** Why the transaction ends before its update, if it does. */
  function Refusal(cfg: Config, t: Database, id: LotId, amount: real, a: Attempt): (r: Option<Error>)
    ensures r == None ==> id in t.lots
  {
    if a.fault.First? then Some(DbError)
    else if id !in t.lots then Some(NotFound)
    else
      var refused := Validate(t.lots[id], amount, a.stamp.check);
      if refused.Some? then refused
      else if a.fault.Second? then Some(DbError)
      else if !Fits(cfg.column, amount) then Some(OutOfRange)
      else None
  }

  /** One transaction: a conflict or an error leaves only what the others did. */
  function TryOnce(cfg: Config, rowLock: bool, db: Database, id: LotId, user: UserId, amount: real, a: Attempt): Try {
    var t := CommitAll(cfg, db, None, a.before);
    match Refusal(cfg, t, id, amount, a)
    case Some(e) => Lost(t, e, false)
    case None => Updated(cfg, CommitAll(cfg, t, Lock(rowLock, id), a.during), id, user, amount, t.lots[id], a)
  }

  /** The transaction from its update on, in tables where others may have overtaken it. */
  function Updated(cfg: Config, u: Database, id: LotId, user: UserId, amount: real, row: Lot, a: Attempt): Try
    requires id in u.lots
  {
    if a.fault.Third? then Lost(u, DbError, true)
    else if u.lots[id].version != row.version then Conflict(u)
    else if a.fault.AtCommit? then Lost(u, DbError, true)
    else
      var raised := Raised(cfg, row, amount, a.stamp);
      Won(Database(u.lots[id := Persisted(cfg, raised)],
                   u.bids + [BidRow(id, Bid(user, Stored(cfg.column, amount)))]),
          raised, Snipes(cfg, row, a.stamp.until))
  }

  /** What others got to commit during the attempt. */
  function SeenIn(rowLock: bool, id: LotId, a: Attempt, t: Try): seq<Foreign> {
    if t.Lost? && !t.later then a.before
    else a.before + Unlocked(Lock(rowLock, id), a.during)
  }

  /** others lists what the environment got to commit while the call ran. */
  datatype Placed = Placed(db: Database, answer: Result<Lot, Error>, late: bool, others: seq<Foreign>, stamp: Stamp)

  function Place(cfg: Config, rowLock: bool, db: Database, id: LotId, user: UserId, amount: real,
                 schedule: seq<Attempt>): Placed
    decreases |schedule|
  {
    if schedule == [] then Placed(db, Failure(Exhausted), false, [], Stamp(0, 0, 0))
    else
      var a := schedule[0];
      var t := TryOnce(cfg, rowLock, db, id, user, amount, a);
      var seen := SeenIn(rowLock, id, a, t);
      match t
      case Won(after, lot, late) => Placed(after, Success(lot), late, seen, a.stamp)
      case Lost(after, e, _) => Placed(after, Failure(e), false, seen, a.stamp)
      case Conflict(after) =>
        var rest := Place(cfg, rowLock, after, id, user, amount, schedule[1..]);
        rest.(others := seen + rest.others)
  }

  /** The two calls leave the same tables and give the same answer. */
  predicate SameEnd(p: Placed, q: Placed) {
    p.db == q.db && p.answer == q.answer && p.late == q.late
  }

  /** The first attempt of a call, for a loop over the attempts. */
  lemma PlaceFirst(cfg: Config, rowLock: bool, db: Database, id: LotId, user: UserId, amount: real,
                   schedule: seq<Attempt>)
    requires schedule != []
    ensures var p := Place(cfg, rowLock, db, id, user, amount, schedule);
            var t := TryOnce(cfg, rowLock, db, id, user, amount, schedule[0]);
            if t.Won? then p.db == t.db && p.answer == Success(t.lot) && p.late == t.late
            else if t.Lost? then p.db == t.db && p.answer == Failure(t.error) && !p.late
            else SameEnd(p, Place(cfg, rowLock, t.db, id, user, amount, schedule[1..]))
  {
  }

  lemma SeenTogether(cfg: Config, rowLock: bool, db: Database, id: LotId, a: Attempt)
    ensures CommitAll(cfg, CommitAll(cfg, db, None, a.before), Lock(rowLock, id), a.during)
         == CommitAll(cfg, db, None, a.before + Unlocked(Lock(rowLock, id), a.during))
  {
    LockSkips(cfg, CommitAll(cfg, db, None, a.before), Lock(rowLock, id), a.during);
    CommitConcat(cfg, db, None, a.before, Unlocked(Lock(rowLock, id), a.during));
  }

  lemma WinIsOneCommit(cfg: Config, rowLock: bool, db: Database, id: LotId, user: UserId, amount: real, a: Attempt)
    requires TryOnce(cfg, rowLock, db, id, user, amount, a).Won?
    ensures var others := a.before + Unlocked(Lock(rowLock, id), a.during);
            var before, own := CommitAll(cfg, db, None, others), Own(id, user, amount, a.stamp);
            && own.lot in before.lots && Apply(cfg, Slice(before, id), own.op).Some?
            && TryOnce(cfg, rowLock, db, id, user, amount, a).db == Written(cfg, before, own)
            && TryOnce(cfg, rowLock, db, id, user, amount, a).lot == Raised(cfg, before.lots[id], amount, a.stamp)
            && TryOnce(cfg, rowLock, db, id, user, amount, a).late == Snipes(cfg, before.lots[id], a.stamp.until)
  {
    SeenTogether(cfg, rowLock, db, id, a);
    SameVersionSameLot(cfg, CommitAll(cfg, db, None, a.before), Lock(rowLock, id), a.during, id);
  }

  lemma NoWinLeavesOthers(cfg: Config, rowLock: bool, db: Database, id: LotId, user: UserId, amount: real, a: Attempt)
    ensures var t := TryOnce(cfg, rowLock, db, id, user, amount, a);
            t.Won? || t.db == CommitAll(cfg, db, None, SeenIn(rowLock, id, a, t))
  {
    SeenTogether(cfg, rowLock, db, id, a);
  }

  /** The tables after p are the others' commits, followed by the caller's own bid exactly when it succeeded. */
  predicate Atomic(cfg: Config, db: Database, id: LotId, user: UserId, amount: real, p: Placed) {
    var before, own := CommitAll(cfg, db, None, p.others), Own(id, user, amount, p.stamp);
    if p.answer.Success?
    then
      && id in before.lots && Apply(cfg, Slice(before, id), own.op).Some?
      && p.db == Written(cfg, before, own)
      && p.answer.value == Raised(cfg, before.lots[id], amount, p.stamp)
      && p.late == Snipes(cfg, before.lots[id], p.stamp.until)
    else p.db == before
  }

  /** Put after earlier commits of others, an atomic call stays atomic. */
  lemma AtomicLater(cfg: Config, db: Database, seen: seq<Foreign>, id: LotId, user: UserId, amount: real, p: Placed)
    requires Atomic(cfg, CommitAll(cfg, db, None, seen), id, user, amount, p)
    ensures Atomic(cfg, db, id, user, amount, p.(others := seen + p.others))
  {
    CommitConcat(cfg, db, None, seen, p.others);
  }

  /** Against any environment the call is atomic, at the end of what the others committed while it ran. */
  lemma {:induction false} PlaceIsAtomic(cfg: Config, rowLock: bool, db: Database, id: LotId, user: UserId,
                                         amount: real, schedule: seq<Attempt>)
    ensures Atomic(cfg, db, id, user, amount, Place(cfg, rowLock, db, id, user, amount, schedule))
    decreases |schedule|
  {
    if schedule != [] {
      var a := schedule[0];
      NoWinLeavesOthers(cfg, rowLock, db, id, user, amount, a);
      match TryOnce(cfg, rowLock, db, id, user, amount, a)
      case Won(_, _, _) => WinIsOneCommit(cfg, rowLock, db, id, user, amount, a);
      case Lost(_, _, _) =>
      case Conflict(after) =>
        PlaceIsAtomic(cfg, rowLock, after, id, user, amount, schedule[1..]);
        var seen := SeenIn(rowLock, id, a, Conflict(after));
        AtomicLater(cfg, db, seen, id, user, amount, Place(cfg, rowLock, after, id, user, amount, schedule[1..]));
    }
  }

  /** An error that is not the database's is the answer of the rules, on the tables as the others left them. */
  predicate Explained(cfg: Config, before: Database, id: LotId, user: UserId, amount: real,
                      schedule: seq<Attempt>, st: Stamp, e: Error) {
    match e
    case Exhausted => true
    case DbError => exists i :: 0 <= i < |schedule| && schedule[i].fault != NoFault
    case _ =>
      if id !in before.lots then e == NotFound
      else BidOn(cfg, Slice(before, id), user, amount, st) == Failure(e)
  }

  lemma LossIsExplained(cfg: Config, rowLock: bool, db: Database, id: LotId, user: UserId, amount: real,
                        schedule: seq<Attempt>)
    requires schedule != []
    ensures var a := schedule[0];
            var t := TryOnce(cfg, rowLock, db, id, user, amount, a);
            t.Lost? ==>
              && t.error != Exhausted
              && Explained(cfg, CommitAll(cfg, db, None, SeenIn(rowLock, id, a, t)), id, user, amount, schedule,
                           a.stamp, t.error)
  {
  }

  lemma ExplainedLater(cfg: Config, db: Database, seen: seq<Foreign>, id: LotId, user: UserId, amount: real,
                       schedule: seq<Attempt>, p: Placed)
    requires schedule != [] && p.answer.Failure?
    requires Explained(cfg, CommitAll(cfg, CommitAll(cfg, db, None, seen), None, p.others), id, user, amount,
                       schedule[1..], p.stamp, p.answer.error)
    ensures Explained(cfg, CommitAll(cfg, db, None, seen + p.others), id, user, amount, schedule, p.stamp,
                      p.answer.error)
  {
    CommitConcat(cfg, db, None, seen, p.others);
    if p.answer.error == DbError {
      var i :| 0 <= i < |schedule[1..]| && schedule[1..][i].fault != NoFault;
      assert schedule[i + 1].fault != NoFault;
    }
  }

  /** No bid is refused that the rules accept, unless the database fails or the attempts run out. */
  lemma {:induction false} RefusalIsTheRules(cfg: Config, rowLock: bool, db: Database, id: LotId, user: UserId,
                                             amount: real, schedule: seq<Attempt>)
    ensures var p := Place(cfg, rowLock, db, id, user, amount, schedule);
            p.answer.Failure? ==>
              Explained(cfg, CommitAll(cfg, db, None, p.others), id, user, amount, schedule, p.stamp, p.answer.error)
    decreases |schedule|
  {
    if schedule != [] {
      var a := schedule[0];
      var t := TryOnce(cfg, rowLock, db, id, user, amount, a);
      LossIsExplained(cfg, rowLock, db, id, user, amount, schedule);
      if t.Conflict? {
        NoWinLeavesOthers(cfg, rowLock, db, id, user, amount, a);
        RefusalIsTheRules(cfg, rowLock, t.db, id, user, amount, schedule[1..]);
        var rest := Place(cfg, rowLock, t.db, id, user, amount, schedule[1..]);
        if rest.answer.Failure? {
          ExplainedLater(cfg, db, SeenIn(rowLock, id, a, t), id, user, amount, schedule, rest);
        }
      }
    }
  }

  /** Each attempt passes the checks, meets no failure before the version check, and is overtaken during it. */
  predicate OvertakenEachTime(cfg: Config, rowLock: bool, db: Database, id: LotId, amount: real, schedule: seq<Attempt>)
    decreases |schedule|
  {
    if schedule == [] then true
    else
      var a := schedule[0];
      var t := CommitAll(cfg, db, None, a.before);
      var u := CommitAll(cfg, t, Lock(rowLock, id), a.during);
      && Refusal(cfg, t, id, amount, a) == None && !a.fault.Third?
      && u.lots[id].version > t.lots[id].version
      && OvertakenEachTime(cfg, rowLock, u, id, amount, schedule[1..])
  }

  lemma ConflictMeansOvertaken(cfg: Config, rowLock: bool, db: Database, id: LotId, user: UserId, amount: real,
                               a: Attempt)
    ensures var t := CommitAll(cfg, db, None, a.before);
            var u := CommitAll(cfg, t, Lock(rowLock, id), a.during);
            TryOnce(cfg, rowLock, db, id, user, amount, a) == Conflict(u) <==>
              && Refusal(cfg, t, id, amount, a) == None && !a.fault.Third?
              && u.lots[id].version > t.lots[id].version
    ensures TryOnce(cfg, rowLock, db, id, user, amount, a).Conflict? ==>
              TryOnce(cfg, rowLock, db, id, user, amount, a).db
              == CommitAll(cfg, CommitAll(cfg, db, None, a.before), Lock(rowLock, id), a.during)
  {
    var t := CommitAll(cfg, db, None, a.before);
    if id in t.lots {
      SameVersionSameLot(cfg, t, Lock(rowLock, id), a.during, id);
    }
  }

  /** The attempts run out exactly when others commit on the lot in the middle of every one of them. */
  lemma {:induction false} ExhaustedMeansOvertaken(cfg: Config, rowLock: bool, db: Database, id: LotId, user: UserId,
                                                   amount: real, schedule: seq<Attempt>)
    ensures Place(cfg, rowLock, db, id, user, amount, schedule).answer == Failure(Exhausted)
            <==> OvertakenEachTime(cfg, rowLock, db, id, amount, schedule)
    decreases |schedule|
  {
    if schedule != [] {
      var t := TryOnce(cfg, rowLock, db, id, user, amount, schedule[0]);
      ConflictMeansOvertaken(cfg, rowLock, db, id, user, amount, schedule[0]);
      LossIsExplained(cfg, rowLock, db, id, user, amount, schedule);
      if t.Conflict? {
        ExhaustedMeansOvertaken(cfg, rowLock, t.db, id, user, amount, schedule[1..]);
      }
    }
  }

  /** Left alone, a call answers and writes exactly what the rules say of the lot it finds. */
  lemma QuietPlace(cfg: Config, rowLock: bool, db: Database, id: LotId, user: UserId, amount: real,
                   schedule: seq<Attempt>)
    requires schedule != [] && schedule[0].before == [] && schedule[0].during == [] && schedule[0].fault == NoFault
    ensures var p, st := Place(cfg, rowLock, db, id, user, amount, schedule), schedule[0].stamp;
            if id !in db.lots then p.db == db && p.answer == Failure(NotFound)
            else
              match BidOn(cfg, Slice(db, id), user, amount, st)
              case Failure(e) => p.db == db && p.answer == Failure(e)
              case Success(a) =>
                && p.answer == Success(Raised(cfg, db.lots[id], amount, st))
                && p.db == Database(db.lots[id := a.lot],
                                    db.bids + [BidRow(id, Bid(user, Stored(cfg.column, amount)))])
                && Slice(p.db, id) == a
  {
    var a := schedule[0];
    assert CommitAll(cfg, db, None, a.before) == db == CommitAll(cfg, db, Lock(rowLock, id), a.during);
    OfAppend(db.bids, BidRow(id, Bid(user, Stored(cfg.column, amount))), id);
  }

  // ---- what the answers mean, in the fields of the row ----

  /** The tables have this bid added, on a lot that met the checks, and the answer is its lot as the caller holds it. */
  predicate Took(cfg: Config, db: Database, after: Database, id: LotId, user: UserId, amount: real, st: Stamp, lot: Lot)
  {
    && id in db.lots && Acceptable(db.lots[id], amount, st.check) && Fits(cfg.column, amount)
    && AfterBid(cfg, db.lots[id], amount, st, lot)
    && id in after.lots && AfterBid(cfg, db.lots[id], Stored(cfg.column, amount), st, after.lots[id])
    && after == Database(db.lots[id := after.lots[id]], db.bids + [BidRow(id, Bid(user, Stored(cfg.column, amount)))])
  }

  /** The rules or the column give this error of this bid. */
  predicate Refuses(cfg: Config, db: Database, id: LotId, amount: real, check: int, e: Error) {
    match e
    case NotFound => id !in db.lots
    case OutOfRange => id in db.lots && Acceptable(db.lots[id], amount, check) && !Fits(cfg.column, amount)
    case _ => id in db.lots && Applies(e, db.lots[id], amount, check)
  }

  /** Left alone, a call succeeds exactly on acceptable bids, and gives each error exactly for its own reason. */
  lemma QuietAnswers(cfg: Config, rowLock: bool, db: Database, id: LotId, user: UserId, amount: real,
                     schedule: seq<Attempt>)
    requires schedule != [] && schedule[0].before == [] && schedule[0].during == [] && schedule[0].fault == NoFault
    ensures var p, st := Place(cfg, rowLock, db, id, user, amount, schedule), schedule[0].stamp;
            && (p.answer.Success? <==>
                  id in db.lots && Acceptable(db.lots[id], amount, st.check) && Fits(cfg.column, amount))
            && (p.answer.Success? ==>
                  && Took(cfg, db, p.db, id, user, amount, st, p.answer.value)
                  && p.late == LastMinute(cfg, db.lots[id], st.until))
            && (p.answer.Failure? ==> p.db == db)
            && forall e :: p.answer == Failure(e) <==> Refuses(cfg, db, id, amount, st.check, e)
  {
    var a := schedule[0];
    assert CommitAll(cfg, db, None, a.before) == db == CommitAll(cfg, db, Lock(rowLock, id), a.during);
  }

  lemma AppliedIsTaken(cfg: Config, before: Database, id: LotId, user: UserId, amount: real, st: Stamp)
    requires id in before.lots
    requires var own := Own(id, user, amount, st); Apply(cfg, Slice(before, id), own.op).Some?
    ensures var own := Own(id, user, amount, st);
            Took(cfg, before, Written(cfg, before, own), id, user, amount, st, Raised(cfg, before.lots[id], amount, st))
  {
  }

  lemma ExplainedIsRefused(cfg: Config, before: Database, id: LotId, user: UserId, amount: real,
                           schedule: seq<Attempt>, st: Stamp, e: Error)
    requires Explained(cfg, before, id, user, amount, schedule, st, e)
    ensures e == DbError || e == Exhausted || Refuses(cfg, before, id, amount, st.check, e)
  {
  }

  /** In any environment the same holds on the tables as the others left them, but for failures and lost attempts. */
  lemma AnswersMean(cfg: Config, rowLock: bool, db: Database, id: LotId, user: UserId, amount: real,
                    schedule: seq<Attempt>)
    ensures var p := Place(cfg, rowLock, db, id, user, amount, schedule);
            var before := CommitAll(cfg, db, None, p.others);
            match p.answer
            case Success(lot) =>
              && Took(cfg, before, p.db, id, user, amount, p.stamp, lot)
              && p.late == LastMinute(cfg, before.lots[id], p.stamp.until)
            case Failure(e) =>
              p.db == before
              && (e == DbError || e == Exhausted || Refuses(cfg, before, id, amount, p.stamp.check, e))
  {
    var p := Place(cfg, rowLock, db, id, user, amount, schedule);
    var before := CommitAll(cfg, db, None, p.others);
    PlaceIsAtomic(cfg, rowLock, db, id, user, amount, schedule);
    if p.answer.Success? {
      AppliedIsTaken(cfg, before, id, user, amount, p.stamp);
    } else {
      RefusalIsTheRules(cfg, rowLock, db, id, user, amount, schedule);
      ExplainedIsRefused(cfg, before, id, user, amount, schedule, p.stamp, p.answer.error);
    }
  }

  lemma WinIsTaken(cfg: Config, rowLock: bool, db: Database, id: LotId, user: UserId, amount: real, a: Attempt)
    requires TryOnce(cfg, rowLock, db, id, user, amount, a).Won?
    ensures var x := TryOnce(cfg, rowLock, db, id, user, amount, a);
            var after := CommitAll(cfg, CommitAll(cfg, db, None, a.before), Lock(rowLock, id), a.during);
            && Took(cfg, after, x.db, id, user, amount, a.stamp, x.lot)
            && x.late == LastMinute(cfg, after.lots[id], a.stamp.until)
  {
    WinIsOneCommit(cfg, rowLock, db, id, user, amount, a);
    SeenTogether(cfg, rowLock, db, id, a);
    AppliedIsTaken(cfg, CommitAll(cfg, CommitAll(cfg, db, None, a.before), Lock(rowLock, id), a.during),
                   id, user, amount, a.stamp);
  }

  lemma LossMeans(cfg: Config, rowLock: bool, db: Database, id: LotId, user: UserId, amount: real, a: Attempt)
    requires TryOnce(cfg, rowLock, db, id, user, amount, a).Lost?
    ensures var x, before := TryOnce(cfg, rowLock, db, id, user, amount, a), CommitAll(cfg, db, None, a.before);
            && x.db == (if x.later then CommitAll(cfg, before, Lock(rowLock, id), a.during) else before)
            && if x.error == DbError then a.fault != NoFault
               else Refuses(cfg, before, id, amount, a.stamp.check, x.error)
  {
  }

  /** The same of one attempt. */
  lemma TryMeans(cfg: Config, rowLock: bool, db: Database, id: LotId, user: UserId, amount: real, a: Attempt)
    ensures var x, before := TryOnce(cfg, rowLock, db, id, user, amount, a), CommitAll(cfg, db, None, a.before);
            var after := CommitAll(cfg, before, Lock(rowLock, id), a.during);
            match x
            case Won(u, lot, late) =>
              && Took(cfg, after, u, id, user, amount, a.stamp, lot)
              && late == LastMinute(cfg, after.lots[id], a.stamp.until)
            case Conflict(u) => u == after && id in before.lots && before.lots[id].version < after.lots[id].version
            case Lost(u, e, later) =>
              && u == (if later then after else before)
              && if e == DbError then a.fault != NoFault else Refuses(cfg, before, id, amount, a.stamp.check, e)
  {
    match TryOnce(cfg, rowLock, db, id, user, amount, a)
    case Won(_, _, _) => WinIsTaken(cfg, rowLock, db, id, user, amount, a);
    case Conflict(_) => ConflictMeansOvertaken(cfg, rowLock, db, id, user, amount, a);
    case Lost(_, _, _) => LossMeans(cfg, rowLock, db, id, user, amount, a);
  }

  /** The statements of the first attempt up to its update go through. */
  predicate Passes(cfg: Config, t: Database, id: LotId, amount: real, check: int) {
    id in t.lots && Acceptable(t.lots[id], amount, check) && Fits(cfg.column, amount)
  }

  /**
   A failure of the database ends the call at the statement that meets it; only others who commit on the lot
   between read and update make it try again.
   */
  lemma FirstAttempt(cfg: Config, rowLock: bool, db: Database, id: LotId, user: UserId, amount: real,
                     schedule: seq<Attempt>)
    requires schedule != []
    ensures var p, a := Place(cfg, rowLock, db, id, user, amount, schedule), schedule[0];
            var t := CommitAll(cfg, db, None, a.before);
            var u := CommitAll(cfg, t, Lock(rowLock, id), a.during);
            && (a.fault.First? ==> p.answer == Failure(DbError) && p.db == t)
            && (a.fault.Second? && Passes(cfg, t, id, amount, a.stamp.check) ==>
                  p.answer == Failure(DbError) && p.db == t)
            && (a.fault.Third? && Passes(cfg, t, id, amount, a.stamp.check) ==>
                  p.answer == Failure(DbError) && p.db == u)
            && (!a.fault.First? && !a.fault.Second? && !a.fault.Third? && Passes(cfg, t, id, amount, a.stamp.check) ==>
                  if u.lots[id].version > t.lots[id].version
                  then SameEnd(p, Place(cfg, rowLock, u, id, user, amount, schedule[1..]))
                  else if a.fault.AtCommit? then p.answer == Failure(DbError) && p.db == u
                  else p.answer.Success?)
  {
    var a := schedule[0];
    var t := CommitAll(cfg, db, None, a.before);
    if id in t.lots {
      SameVersionSameLot(cfg, t, Lock(rowLock, id), a.during, id);
    }
  }

  /** A successful call adds exactly one row to the bids of its lot, and touches no other lot. */
  lemma SuccessIsOneRow(cfg: Config, rowLock: bool, db: Database, id: LotId, user: UserId, amount: real,
                        schedule: seq<Attempt>, x: LotId)
    requires Place(cfg, rowLock, db, id, user, amount, schedule).answer.Success?
    ensures var p := Place(cfg, rowLock, db, id, user, amount, schedule);
            var before := CommitAll(cfg, db, None, p.others);
            && Of(p.db.bids, x) == Of(before.bids, x)
                                   + (if x == id then [Bid(user, Stored(cfg.column, amount))] else [])
            && p.db.lots.Keys == before.lots.Keys && (x in before.lots && x != id ==> p.db.lots[x] == before.lots[x])
  {
    PlaceIsAtomic(cfg, rowLock, db, id, user, amount, schedule);
    var p := Place(cfg, rowLock, db, id, user, amount, schedule);
    var before := CommitAll(cfg, db, None, p.others);
    OfAppend(before.bids, BidRow(id, Bid(user, Stored(cfg.column, amount))), x);
  }

  /** With the row locked the first attempt decides: there is no conflict, whatever the others try. */
  lemma LockedCallsTryOnce(cfg: Config, db: Database, id: LotId, user: UserId, amount: real, schedule: seq<Attempt>)
    requires schedule != []
    ensures !TryOnce(cfg, true, db, id, user, amount, schedule[0]).Conflict?
    ensures Place(cfg, true, db, id, user, amount, schedule).answer != Failure(Exhausted)
  {
    var t := CommitAll(cfg, db, None, schedule[0].before);
    if id in t.lots {
      SameVersionSameLot(cfg, t, Some(id), schedule[0].during, id);
    }
  }

  // ---- without the lock ----

  /** An active lot, in no hurry at time c, that can take bids up to limit. */
  ghost predicate Roomy(cfg: Config, db: Database, id: LotId, c: int, limit: real) {
    && id in db.lots && db.lots[id].status == Active && c < db.lots[id].closing - cfg.window && c <= db.lots[id].closing
    && Sound(cfg.column) && Storable(cfg.column, db.lots[id].price) && Storable(cfg.column, db.lots[id].step)
    && db.lots[id].step > 0.0 && db.lots[id].price + db.lots[id].step < limit
    && forall x :: x <= limit ==> Fits(cfg.column, x)
  }

  function NextBid(db: Database, id: LotId): real
    requires id in db.lots
  {
    db.lots[id].price + db.lots[id].step
  }

  /** A rival bids one step between the read and the update. */
  function Overtaking(db: Database, id: LotId, c: int): Attempt
    requires id in db.lots
  {
    Attempt([], [Foreign(id, BidOp(1, "rival", NextBid(db, id), Stamp(c, c, c)))], Stamp(c, c, c), NoFault)
  }

  lemma OvertakingWins(cfg: Config, db: Database, id: LotId, user: UserId, amount: real, c: int)
    requires Roomy(cfg, db, id, c, amount) && NextBid(db, id) + db.lots[id].step <= amount
    ensures var t := TryOnce(cfg, false, db, id, user, amount, Overtaking(db, id, c));
            && t.Conflict? && id in t.db.lots
            && t.db.lots[id] == db.lots[id].(price := NextBid(db, id), version := db.lots[id].version + 1)
            && Storable(cfg.column, t.db.lots[id].price)
  {
    var a := Overtaking(db, id, c);
    var f := a.during[0];
    StoredKeepsStep(cfg.column, NextBid(db, id), db.lots[id].price, db.lots[id].step);
    assert CommitAll(cfg, db, None, []) == db;
    assert a.during[..0] == [];
    assert CommitAll(cfg, db, None, a.during) == Commit(cfg, db, None, f);
    if cfg.column.Decimal? {
      WholeSum(db.lots[id].price, db.lots[id].step);
    }
    assert Stored(cfg.column, NextBid(db, id)) == NextBid(db, id);
  }

  lemma PlaceAfterConflict(cfg: Config, rowLock: bool, db: Database, id: LotId, user: UserId, amount: real,
                           a: Attempt, rest: seq<Attempt>)
    requires TryOnce(cfg, rowLock, db, id, user, amount, a).Conflict?
    ensures var after := TryOnce(cfg, rowLock, db, id, user, amount, a).db;
            Place(cfg, rowLock, db, id, user, amount, [a] + rest).answer
            == Place(cfg, rowLock, after, id, user, amount, rest).answer
  {
    assert ([a] + rest)[1..] == rest;
  }

  /** Rivals who stay one step ahead make n attempts fail, as long as the amount leaves them room. */
  lemma {:induction false} Overtaken(cfg: Config, db: Database, id: LotId, user: UserId, amount: real, c: int, n: nat)
    returns (schedule: seq<Attempt>)
    requires n > 0 ==> Roomy(cfg, db, id, c, amount) && Ladder(db.lots[id].price, db.lots[id].step, n + 1) <= amount
    ensures |schedule| == n && Place(cfg, false, db, id, user, amount, schedule).answer == Failure(Exhausted)
    decreases n
  {
    if n == 0 {
      schedule := [];
    } else {
      var p, q := db.lots[id].price, db.lots[id].step;
      var a := Overtaking(db, id, c);
      LadderShifts(p, q, n);
      LadderShifts(p, q, n - 1);
      LadderClimbs(p + q, q, n - 1);
      LadderClimbs(p + q, q, n);
      OvertakingWins(cfg, db, id, user, amount, c);
      var after := TryOnce(cfg, false, db, id, user, amount, a).db;
      var rest := Overtaken(cfg, after, id, user, amount, c, n - 1);
      PlaceAfterConflict(cfg, false, db, id, user, amount, a, rest);
      schedule := [a] + rest;
    }
  }

  lemma LadderShifts(start: real, step: real, n: nat)
    ensures Ladder(start, step, n + 1) == Ladder(start + step, step, n)
  {
    assert (n + 1) as real * step == n as real * step + step;
  }

  lemma {:induction false} LadderClimbs(start: real, step: real, n: nat)
    requires step > 0.0
    ensures n > 0 ==> start + step <= Ladder(start, step, n)
    ensures start <= Ladder(start, step, n)
  {
    if n > 0 {
      LadderClimbs(start, step, n - 1);
    }
  }

  /** Without FOR UPDATE rivals can overtake a valid bid on every attempt. */
  lemma UnlockedCallsCanExhaust(cfg: Config, db: Database, id: LotId, user: UserId, amount: real, c: int)
    requires id in db.lots && Roomy(cfg, db, id, c, amount)
    requires Ladder(db.lots[id].price, db.lots[id].step, MAX_ATTEMPTS + 1) <= amount
    ensures exists schedule :: |schedule| == MAX_ATTEMPTS
              && Place(cfg, false, db, id, user, amount, schedule).answer == Failure(Exhausted)
  {
    var schedule := Overtaken(cfg, db, id, user, amount, c, MAX_ATTEMPTS);
  }

  // ---- CloseLot ----

  /**
   From db the call leads to after with error err: unknown lots and failures of the database are errors,
   lots not active or not due stay, and a due lot is closed by one operation after what the others
   committed, unless one of those was on it.
   */
  ghost predicate Closes(cfg: Config, db: Database, after: Database, id: LotId,
                         first: seq<Foreign>, second: seq<Foreign>, fault: Fault, now: int, err: Option<Error>) {
    if fault.First? then after == db && err == Some(DbError)
    else if id !in db.lots then after == db && err == Some(NotFound)
    else if db.lots[id].status != Active || now < db.lots[id].closing then after == db && err == None
    else
      var m := CommitAll(cfg, db, None, first);
      if fault.Second? then after == m && err == Some(DbError)
      else ClosesIn(cfg, CommitAll(cfg, m, None, second), after, id, db.lots[id].version, fault, now, err)
  }

  /** The update of a close, of the version first read, in tables u. */
  ghost predicate ClosesIn(cfg: Config, u: Database, after: Database, id: LotId,
                           version: int, fault: Fault, now: int, err: Option<Error>)
    requires id in u.lots
  {
    if fault.Third? then after == u && err == Some(DbError)
    else if u.lots[id].version != version then after == u && err == Some(OptimisticLock)
    else err == None && exists top :: ClosedBy(cfg, u, after, id, now, top)
  }

  predicate ClosedBy(cfg: Config, u: Database, after: Database, id: LotId, now: int, top: Option<Bid>) {
    var f := Foreign(id, CloseOp(0, now, top));
    && id in u.lots && Apply(cfg, Slice(u, id), f.op).Some?
    && after == Written(cfg, u, f)
  }

  /** If the version is still the one read first, then neither the row nor the highest bid has changed since. */
  lemma CloseIsAtomic(cfg: Config, db: Database, first: seq<Foreign>, second: seq<Foreign>, id: LotId, now: int,
                      top: Option<Bid>)
    requires id in db.lots && db.lots[id].status == Active && now >= db.lots[id].closing
    requires IsHighest(top, Of(CommitAll(cfg, db, None, first).bids, id))
    ensures var u := CommitAll(cfg, CommitAll(cfg, db, None, first), None, second);
            u.lots[id].version == db.lots[id].version ==>
              && Slice(u, id) == Slice(db, id)
              && ClosedBy(cfg, u, Database(u.lots[id := Sealed(db.lots[id], top)], u.bids), id, now, top)
  {
    var m := CommitAll(cfg, db, None, first);
    SameVersionSameLot(cfg, db, None, first, id);
    SameVersionSameLot(cfg, m, None, second, id);
  }

  /** Left alone, a close seals a due lot with the one highest bid, and leaves any other lot as it is. */
  lemma QuietClose(cfg: Config, db: Database, after: Database, id: LotId, now: int, err: Option<Error>,
                   top: Option<Bid>)
    requires Closes(cfg, db, after, id, [], [], NoFault, now, err)
    requires LastIsHighest(Of(db.bids, id)) && IsHighest(top, Of(db.bids, id))
    ensures after == if id in db.lots && db.lots[id].status == Active && now >= db.lots[id].closing
                     then Database(db.lots[id := Sealed(db.lots[id], top)], db.bids) else db
    ensures err == if id in db.lots then None else Some(NotFound)
  {
    assert CommitAll(cfg, CommitAll(cfg, db, None, []), None, []) == db;
    if id in db.lots && db.lots[id].status == Active && now >= db.lots[id].closing {
      var best :| ClosedBy(cfg, db, after, id, now, best);
      HighestIsLast(Of(db.bids, id), top);
      HighestIsLast(Of(db.bids, id), best);
    }
  }
}
