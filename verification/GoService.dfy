/** The service handling one request at a time, nobody else being there: the calls of the engine, run in quiet. */
module GoService {
  import opened Wrappers
  import opened Money
  import opened Auction
  import opened Tables
  import C = GoCalls
  import E = GoEngine

  datatype Request =
    | Create(id: LotId, title: string, start: real, step: real, closing: int, check: int, at: int)
    | Place(id: LotId, user: UserId, amount: real, stamp: Stamp, at: int)
    | Close(id: LotId, now: int, at: int)

  /** What the caller gets back; the texts of refused creations are not compared. */
  datatype Answer = Made(title: string, lot: Lot) | CreateFailed | Lotted(lot: Lot) | BidFailed(error: Error) | Nothing

  /** The handler's checks on a new lot; they let one through that closes at this very moment. */
  predicate HandlerAccepts(r: Request)
    requires r.Create?
  {
    r.title != "" && r.start > 0.0 && r.step > 0.0 && r.closing >= r.check
  }

  /** Attempts in which nobody commits and nothing fails. */
  function Undisturbed(st: Stamp): seq<C.Attempt> {
    var a := C.Attempt([], [], st, C.NoFault);
    [a, a, a]
  }

  predicate IsDue(db: Database, id: LotId, now: int) {
    id in db.lots && db.lots[id].status == Active && now >= db.lots[id].closing
  }

  /** pick is the database's way to choose among equal highest bids. */
  function Serve(cfg: Config, rowLock: bool, pick: seq<Bid> -> Option<Bid>, db: Database, r: Request): Database {
    match r
    case Create(id, title, start, step, closing, _, _) =>
      var to := E.CreatedIn(cfg, db, id, title, start, step, closing);
      if HandlerAccepts(r) && to.Success? then to.value else db
    case Place(id, user, amount, st, _) => C.Place(cfg, rowLock, db, id, user, amount, Undisturbed(st)).db
    case Close(id, now, _) =>
      if IsDue(db, id, now) then db.(lots := db.lots[id := Sealed(db.lots[id], pick(Of(db.bids, id)))]) else db
  }

  function Answered(cfg: Config, rowLock: bool, db: Database, r: Request): Answer {
    match r
    case Create(id, title, start, step, closing, _, _) =>
      if HandlerAccepts(r) && E.CreatedIn(cfg, db, id, title, start, step, closing).Success?
      then Made(title, E.NewLot(start, step, closing)) else CreateFailed
    case Place(id, user, amount, st, _) =>
      (match C.Place(cfg, rowLock, db, id, user, amount, Undisturbed(st)).answer
       case Success(lot) => Lotted(lot)
       case Failure(e) => BidFailed(e))
    case Close(_, _, _) => Nothing
  }

  /** What the request does and answers, in the fields of the rows. */
  predicate Handled(cfg: Config, db: Database, after: Database, r: Request, a: Answer) {
    match r
    case Create(id, title, start, step, closing, check, _) =>
      if title != "" && start > 0.0 && step > 0.0 && check <= closing
         && E.IsText(title) && Fits(cfg.column, start) && Fits(cfg.column, step)
      then
        && a.Made? && a.title == title && AsAsked(a.lot, start, step, closing)
        && id in after.lots && after == Database(db.lots[id := after.lots[id]], db.bids)
        && AsAsked(after.lots[id], Stored(cfg.column, start), Stored(cfg.column, step), closing)
      else a == CreateFailed && after == db
    case Place(id, user, amount, st, _) =>
      if id in db.lots && Acceptable(db.lots[id], amount, st.check) && Fits(cfg.column, amount)
      then a.Lotted? && C.Took(cfg, db, after, id, user, amount, st, a.lot)
      else a.BidFailed? && C.Refuses(cfg, db, id, amount, st.check, a.error) && after == db
    case Close(id, now, _) =>
      && a == Nothing
      && if id in db.lots && db.lots[id].status == Active && db.lots[id].closing <= now
         then
           && id in after.lots && after == Database(db.lots[id := after.lots[id]], db.bids)
           && AfterClose(db.lots[id], LastBid(Of(db.bids, id)), after.lots[id])
         else after == db
  }

  lemma ServingIsHandling(cfg: Config, rowLock: bool, pick: seq<Bid> -> Option<Bid>, db: Database, r: Request)
    requires var own := Of(db.bids, r.id); LastIsHighest(own) && IsHighest(pick(own), own)
    ensures Handled(cfg, db, Serve(cfg, rowLock, pick, db, r), r, Answered(cfg, rowLock, db, r))
  {
    match r
    case Create(id, title, start, step, closing, check, at) =>
    case Place(id, user, amount, st, at) =>
      C.QuietAnswers(cfg, rowLock, db, id, user, amount, Undisturbed(st));
    case Close(id, now, at) =>
      HighestIsLast(Of(db.bids, id), pick(Of(db.bids, id)));
  }

  /** The service's objects handle a request as the functions say, which is what the rules promise. */
  method Handle(e: E.Engine, r: Request, ghost pick: seq<Bid> -> Option<Bid>) returns (a: Answer)
    requires e.repo.tx == None
    requires r.Create? ==> r.id !in e.repo.lots
    requires r.Close? && r.id in e.repo.lots ==>
               Stored(e.repo.cfg.column, e.repo.lots[r.id].price) == e.repo.lots[r.id].price
    requires var own := Of(e.repo.bids, r.id); LastIsHighest(own) && IsHighest(pick(own), own)
    modifies e, e.repo
    ensures e.repo.tx == None
    ensures e.repo.View() == Serve(e.repo.cfg, e.repo.rowLock, pick, old(e.repo.View()), r)
    ensures a == Answered(e.repo.cfg, e.repo.rowLock, old(e.repo.View()), r)
    ensures Handled(e.repo.cfg, old(e.repo.View()), e.repo.View(), r, a)
  {
    ghost var db := e.repo.View();
    ServingIsHandling(e.repo.cfg, e.repo.rowLock, pick, db, r);
    match r {
      case Create(id, title, start, step, closing, check, at) =>
        if title == "" || start <= 0.0 || step <= 0.0 || closing < check { return CreateFailed; }
        var made := e.CreateLot(id, title, start, step, closing, false, at, []);
        return if made.Success? then Made(title, made.value) else CreateFailed;
      case Place(id, user, amount, st, at) =>
        var placed := e.PlaceBid(id, user, amount, Undisturbed(st), at, []);
        return if placed.Success? then Lotted(placed.value) else BidFailed(placed.error);
      case Close(id, now, at) =>
        var err := e.CloseLotByID(id, [], [], C.NoFault, now, at, []);
        C.QuietClose(e.repo.cfg, db, e.repo.View(), id, now, err, pick(Of(db.bids, id)));
        return Nothing;
    }
  }

  // ---- runs ----

  function ServeAll(cfg: Config, rowLock: bool, pick: seq<Bid> -> Option<Bid>, rs: seq<Request>): Database {
    if rs == [] then Database(map[], [])
    else Serve(cfg, rowLock, pick, ServeAll(cfg, rowLock, pick, rs[..|rs| - 1]), rs[|rs| - 1])
  }

  function AnsweredAll(cfg: Config, rowLock: bool, pick: seq<Bid> -> Option<Bid>, rs: seq<Request>): seq<Answer> {
    if rs == [] then []
    else
      var front := rs[..|rs| - 1];
      AnsweredAll(cfg, rowLock, pick, front)
      + [Answered(cfg, rowLock, ServeAll(cfg, rowLock, pick, front), rs[|rs| - 1])]
  }
}
