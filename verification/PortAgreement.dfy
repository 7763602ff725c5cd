/** The port keeps the rules on every lot, its store answers as an index, and it agrees with the Go service. */
module PortAgreement {
  import opened Wrappers
  import opened Money
  import opened Auction
  import opened Tables
  import opened Port
  import opened GoService
  import GoCalls
  import GoEngine

  // ---- requests to the port ----

  function Do(p: Port, r: Request): Port {
    match r
    case Create(id, title, start, step, closing, check, at) =>
      if CheckCreate(title, start, step, closing, check).Some? then p else Created(p, id, start, step, closing, at)
    case Place(id, user, amount, st, at) =>
      if CheckBid(p, id, amount, st.check).Some? then p else BidPlaced(p, id, user, amount, st, at)
    case Close(id, now, at) => ClosedOrDeferred(p, id, now, at)
  }

  function Reply(p: Port, r: Request): Answer {
    match r
    case Create(id, title, start, step, closing, check, at) =>
      if CheckCreate(title, start, step, closing, check).Some? then CreateFailed
      else Made(Trim(title), Created(p, id, start, step, closing, at).lots[id])
    case Place(id, user, amount, st, at) =>
      (match CheckBid(p, id, amount, st.check)
       case Some(e) => BidFailed(e)
       case None => Lotted(BidPlaced(p, id, user, amount, st, at).lots[id]))
    case Close(_, _, _) => Nothing
  }

  function DoAll(p: Port, rs: seq<Request>): Port {
    if rs == [] then p else Do(DoAll(p, rs[..|rs| - 1]), rs[|rs| - 1])
  }

  function Replies(p: Port, rs: seq<Request>): seq<Answer> {
    if rs == [] then [] else Replies(p, rs[..|rs| - 1]) + [Reply(DoAll(p, rs[..|rs| - 1]), rs[|rs| - 1])]
  }

  /** uuid() never gives an id twice. */
  predicate NewIds(p: Port, rs: seq<Request>) {
    if rs == [] then true
    else
      var front, r := rs[..|rs| - 1], rs[|rs| - 1];
      NewIds(p, front) && (r.Create? ==> r.id !in DoAll(p, front).lots)
  }

  const EMPTY := Port(map[], [], map[], [])

  // ---- every lot of the port is an auction run by the rules ----

  datatype Book = Book(first: Auction, ops: seq<Op>)

  /** The history of each lot replays, under the shared rules, to what the store holds of it. */
  ghost predicate Ledgered(p: Port, ledger: map<LotId, Book>) {
    && (forall id :: id in p.lots ==> id in ledger && Balanced(p, id, ledger[id]))
    && (forall i :: 0 <= i < |p.bids| ==> p.bids[i].lot in p.lots)
  }

  ghost predicate Balanced(p: Port, id: LotId, book: Book)
    requires id in p.lots
  {
    Sane(RULES, book.first) && Replay(RULES, book.first, book.ops) == Some(AuctionOf(p, id))
  }

  lemma {:induction false} NoBidsOfUnknownLot(bids: seq<BidRow>, id: LotId)
    requires forall i :: 0 <= i < |bids| ==> bids[i].lot != id
    ensures Of(bids, id) == []
  {
    if bids != [] {
      NoBidsOfUnknownLot(bids[..|bids| - 1], id);
    }
  }

  lemma DoSparesOthers(p: Port, r: Request, x: LotId)
    requires x != r.id
    ensures SameLot(p, Do(p, r), x)
  {
    match r
    case Create(id, _, start, step, closing, _, at) => CreateSparesOthers(p, id, start, step, closing, at, x);
    case Place(id, user, amount, st, at) =>
      if id in p.lots {
        BidSparesOthers(p, id, user, amount, st, at, x);
      }
    case Close(id, now, at) => CloseSparesOthers(p, id, now, at, x);
  }

  /** The operation a request adds to the history of its lot, if it is accepted. */
  function Entry(p: Port, r: Request): Option<Op> {
    match r
    case Create(_, _, _, _, _, _, _) => None
    case Place(id, user, amount, st, _) =>
      if CheckBid(p, id, amount, st.check).Some? then None else Some(BidOp(0, user, amount, st))
    case Close(id, now, _) =>
      if id in p.lots && p.lots[id].status == Active && now >= p.lots[id].closing
      then Some(CloseOp(0, now, Best(Of(p.bids, id)))) else None
  }

  function Entered(p: Port, r: Request, ledger: map<LotId, Book>): map<LotId, Book> {
    if r.Create? then ledger[r.id := Book(Auction(NewLot(r.start, r.step, r.closing), []), [])]
    else if r.id in ledger && Entry(p, r).Some?
    then ledger[r.id := Book(ledger[r.id].first, ledger[r.id].ops + [Entry(p, r).value])]
    else ledger
  }

  lemma BidBalances(p: Port, r: Request, book: Book)
    requires r.Place? && r.id in p.lots && Balanced(p, r.id, book)
    ensures r.id in Do(p, r).lots
    ensures Balanced(Do(p, r), r.id,
                     if Entry(p, r).Some? then Book(book.first, book.ops + [Entry(p, r).value]) else book)
  {
    BidFollowsRules(p, r.id, r.user, r.amount, r.stamp, r.at);
    if Entry(p, r).Some? {
      ReplayAppend(RULES, book.first, book.ops, Entry(p, r).value);
    }
  }

  lemma CloseIsApplied(p: Port, r: Request)
    requires r.Close? && r.id in p.lots
    ensures r.id in Do(p, r).lots
    ensures if Entry(p, r).Some?
            then Apply(RULES, AuctionOf(p, r.id), Entry(p, r).value) == Some(AuctionOf(Do(p, r), r.id))
            else AuctionOf(Do(p, r), r.id) == AuctionOf(p, r.id)
  {
    CloseFollowsRules(p, r.id, r.now, r.at);
    BestIsHighest(Of(p.bids, r.id));
  }

  lemma CloseBalances(p: Port, r: Request, book: Book)
    requires r.Close? && r.id in p.lots && Balanced(p, r.id, book)
    ensures r.id in Do(p, r).lots
    ensures Balanced(Do(p, r), r.id,
                     if Entry(p, r).Some? then Book(book.first, book.ops + [Entry(p, r).value]) else book)
  {
    CloseIsApplied(p, r);
    if Entry(p, r).Some? {
      ReplayAppend(RULES, book.first, book.ops, Entry(p, r).value);
    }
  }

  /** The port's checks accept a creation. */
  predicate Accepted(r: Request) {
    r.Create? ==> CheckCreate(r.title, r.start, r.step, r.closing, r.check) == None
  }

  lemma DoKeepsTables(p: Port, r: Request)
    requires Accepted(r)
    requires forall i :: 0 <= i < |p.bids| ==> p.bids[i].lot in p.lots
    ensures var q := Do(p, r);
            && q.lots.Keys == p.lots.Keys + (if r.Create? then {r.id} else {})
            && forall i :: 0 <= i < |q.bids| ==> q.bids[i].lot in q.lots
  {
  }

  lemma CreateBalances(p: Port, r: Request)
    requires r.Create? && Accepted(r) && r.id !in p.lots
    requires forall i :: 0 <= i < |p.bids| ==> p.bids[i].lot in p.lots
    ensures r.id in Do(p, r).lots
    ensures Balanced(Do(p, r), r.id, Book(Auction(NewLot(r.start, r.step, r.closing), []), []))
  {
    NoBidsOfUnknownLot(p.bids, r.id);
  }

  lemma OthersBalance(p: Port, r: Request, x: LotId, book: Book)
    requires x != r.id && x in p.lots && Balanced(p, x, book)
    ensures x in Do(p, r).lots && Balanced(Do(p, r), x, book)
  {
    DoSparesOthers(p, r, x);
  }

  lemma DoKeepsLedger(p: Port, r: Request, ledger: map<LotId, Book>)
    requires Ledgered(p, ledger) && Accepted(r) && (r.Create? ==> r.id !in p.lots)
    ensures Ledgered(Do(p, r), Entered(p, r, ledger))
  {
    var q, longer := Do(p, r), Entered(p, r, ledger);
    DoKeepsTables(p, r);
    forall id | id in q.lots ensures id in longer && Balanced(q, id, longer[id]) {
      if id != r.id {
        OthersBalance(p, r, id, ledger[id]);
      } else if r.Create? {
        CreateBalances(p, r);
      } else if r.Place? {
        BidBalances(p, r, ledger[id]);
      } else {
        CloseBalances(p, r, ledger[id]);
      }
    }
  }

  lemma {:induction false} RunHasLedger(rs: seq<Request>) returns (ledger: map<LotId, Book>)
    requires NewIds(EMPTY, rs)
    ensures Ledgered(DoAll(EMPTY, rs), ledger)
  {
    if rs == [] {
      ledger := map[];
    } else {
      var front, r := rs[..|rs| - 1], rs[|rs| - 1];
      ledger := RunHasLedger(front);
      var p := DoAll(EMPTY, front);
      if !Accepted(r) {
        assert Do(p, r) == p;
      } else {
        DoKeepsLedger(p, r, ledger);
        ledger := Entered(p, r, ledger);
      }
    }
  }

  /**
   The store answers as an index: of all bids in the one array, the highest of a lot is the last one
   placed on it, its amount is the current price, and there is none exactly when the lot has no bids.
   */
  lemma HighestIsLastPlaced(rs: seq<Request>, id: LotId)
    requires NewIds(EMPTY, rs) && id in DoAll(EMPTY, rs).lots
    ensures var p := DoAll(EMPTY, rs);
            var own, top := Of(p.bids, id), Best(Of(p.bids, id));
            && top == LastBid(own)
            && p.lots[id].price == (if top.Some? then top.value.amount else p.lots[id].start)
            && (top == None <==> p.lots[id].version == 1 || (p.lots[id].version == 2 && p.lots[id].status == Closed))
            && (p.lots[id].status == Closed ==> p.lots[id].winner == if top.Some? then Some(top.value.user) else None)
  {
    var ledger := RunHasLedger(rs);
    var p := DoAll(EMPTY, rs);
    var own := Of(p.bids, id);
    var book := ledger[id];
    assert Balanced(p, id, book);
    Accounting(RULES, book.first, book.ops);
    Climbing(RULES, book.first, book.ops);
    SpacedLastIsHighest(book.first.lot.start, book.first.lot.step, own);
    BestIsHighest(own);
    HighestIsLast(own, Best(own));
    if p.lots[id].status == Closed {
      ClosedHasRightWinner(RULES, book.first, book.ops);
    }
  }

  /** The bids of each lot climb, so that a highest one is unique. */
  lemma BidsOfALotClimb(rs: seq<Request>, id: LotId)
    requires NewIds(EMPTY, rs) && id in DoAll(EMPTY, rs).lots
    ensures LastIsHighest(Of(DoAll(EMPTY, rs).bids, id))
  {
    var ledger := RunHasLedger(rs);
    var p, book := DoAll(EMPTY, rs), ledger[id];
    assert Balanced(p, id, book);
    Climbing(RULES, book.first, book.ops);
    SpacedLastIsHighest(book.first.lot.start, book.first.lot.step, Of(p.bids, id));
  }

  // ---- the Go service ----

  /** The same window and extension as the port, and decimal columns. */
  ghost predicate SameRules(cfg: Config) {
    cfg.window == SNIPING_WINDOW_MS && cfg.extension == SNIPING_EXTENSION_MS && cfg.column.Decimal? && Sound(cfg.column)
  }

  ghost predicate Picks(pick: seq<Bid> -> Option<Bid>) {
    forall bids :: IsHighest(pick(bids), bids)
  }

  /** The lots and bids of the port, as tables. */
  function TablesOf(p: Port): Database {
    Database(p.lots, p.bids)
  }

  /** The columns of a new lot can hold these values. */
  predicate Taken(cfg: Config, title: string, start: real, step: real) {
    GoEngine.IsText(title) && Fits(cfg.column, start) && Fits(cfg.column, step)
  }

  /**
   The amounts of a request that the port accepts are whole cents that fit the columns, its title has no
   blanks around it, and a creation it refuses the service refuses too.  Of refused bids nothing is asked.
   */
  ghost predicate Common(cfg: Config, p: Port, r: Request) {
    match r
    case Create(_, title, start, step, _, _, _) =>
      if Accepted(r)
      then Trim(title) == title && Whole(start) && Whole(step) && Taken(cfg, title, start, step)
      else !HandlerAccepts(r) || !Taken(cfg, title, start, step)
    case Place(id, _, amount, st, _) =>
      CheckBid(p, id, amount, st.check) == None ==> Whole(amount) && Fits(cfg.column, amount)
    case Close(_, _, _) => true
  }

  ghost predicate AllCommon(cfg: Config, rs: seq<Request>) {
    forall i :: 0 <= i < |rs| ==> Common(cfg, DoAll(EMPTY, rs[..i]), rs[i])
  }

  /** From the same tables, a request gets the same answer from both and leads both to the same tables. */
  ghost predicate Agrees(cfg: Config, rowLock: bool, pick: seq<Bid> -> Option<Bid>, p: Port, r: Request) {
    && Reply(p, r) == Answered(cfg, rowLock, TablesOf(p), r)
    && TablesOf(Do(p, r)) == Serve(cfg, rowLock, pick, TablesOf(p), r)
  }

  /** A valid bid leads both sides to the same auction exactly when its amount is a whole number of cents. */
  lemma AgreeExactlyOnWholeCents(cfg: Config, a: Auction, user: UserId, amount: real, st: Stamp)
    requires SameRules(cfg) && Fits(cfg.column, amount) && Validate(a.lot, amount, st.check) == None
    ensures BidOn(cfg, a, user, amount, st) == BidOn(RULES, a, user, amount, st) <==> Whole(amount)
  {
    var x := Stored(cfg.column, amount);
    assert x == amount <==> Whole(amount);
    var go, port := BidOn(cfg, a, user, amount, st).value, BidOn(RULES, a, user, amount, st).value;
    assert go.lot.price == x && port.lot.price == amount;
    if Whole(amount) {
      assert go.bids == port.bids;
    }
  }

  lemma CreateAgrees(cfg: Config, rowLock: bool, pick: seq<Bid> -> Option<Bid>, p: Port, r: Request)
    requires SameRules(cfg) && r.Create? && r.id !in p.lots
    ensures Agrees(cfg, rowLock, pick, p, r) <==> Common(cfg, p, r)
  {
    var q, h := TablesOf(Do(p, r)), Serve(cfg, rowLock, pick, TablesOf(p), r);
    if Accepted(r) && Taken(cfg, r.title, r.start, r.step) {
      assert q.lots[r.id] == NewLot(r.start, r.step, r.closing);
      assert h.lots[r.id] == NewLot(Stored(cfg.column, r.start), Stored(cfg.column, r.step), r.closing);
    }
  }

  lemma BidAgrees(cfg: Config, rowLock: bool, pick: seq<Bid> -> Option<Bid>, p: Port, r: Request)
    requires SameRules(cfg) && r.Place?
    ensures Agrees(cfg, rowLock, pick, p, r) <==> Common(cfg, p, r)
  {
    GoCalls.QuietPlace(cfg, rowLock, TablesOf(p), r.id, r.user, r.amount, Undisturbed(r.stamp));
    if CheckBid(p, r.id, r.amount, r.stamp.check) == None && Fits(cfg.column, r.amount) {
      var q, h := TablesOf(Do(p, r)), Serve(cfg, rowLock, pick, TablesOf(p), r);
      assert q.lots[r.id].price == r.amount && h.lots[r.id].price == Stored(cfg.column, r.amount);
      assert Stored(cfg.column, r.amount) == r.amount <==> Whole(r.amount);
    }
  }

  lemma CloseAgrees(cfg: Config, rowLock: bool, pick: seq<Bid> -> Option<Bid>, p: Port, r: Request)
    requires r.Close?
    requires r.id in p.lots ==> Best(Of(p.bids, r.id)) == pick(Of(p.bids, r.id))
    ensures Agrees(cfg, rowLock, pick, p, r)
  {
  }

  /** One request: both sides agree exactly when it is common. */
  lemma StepAgrees(cfg: Config, rowLock: bool, pick: seq<Bid> -> Option<Bid>, p: Port, r: Request)
    requires SameRules(cfg) && (r.Create? ==> r.id !in p.lots)
    requires r.id in p.lots ==> Best(Of(p.bids, r.id)) == pick(Of(p.bids, r.id))
    ensures Agrees(cfg, rowLock, pick, p, r) <==> Common(cfg, p, r)
  {
    if r.Create? {
      CreateAgrees(cfg, rowLock, pick, p, r);
    } else if r.Place? {
      BidAgrees(cfg, rowLock, pick, p, r);
    } else {
      CloseAgrees(cfg, rowLock, pick, p, r);
    }
  }

  /** Ties being impossible, the port's first best bid is the one any database picks. */
  lemma PickIsBest(pick: seq<Bid> -> Option<Bid>, rs: seq<Request>, id: LotId)
    requires NewIds(EMPTY, rs) && Picks(pick)
    ensures var p := DoAll(EMPTY, rs);
            && LastIsHighest(Of(p.bids, id)) && Best(Of(p.bids, id)) == pick(Of(p.bids, id))
  {
    var p := DoAll(EMPTY, rs);
    var own := Of(p.bids, id);
    if id in p.lots {
      BidsOfALotClimb(rs, id);
    } else {
      var ledger := RunHasLedger(rs);
      NoBidsOfUnknownLot(p.bids, id);
    }
    BestIsHighest(own);
    HighestIsLast(own, Best(own));
    HighestIsLast(own, pick(own));
  }

  // ---- whole runs ----

  /** After these requests both sides have given the same answers and hold the same tables. */
  ghost predicate AgreeAfter(cfg: Config, rowLock: bool, pick: seq<Bid> -> Option<Bid>, rs: seq<Request>) {
    && Replies(EMPTY, rs) == AnsweredAll(cfg, rowLock, pick, rs)
    && TablesOf(DoAll(EMPTY, rs)) == ServeAll(cfg, rowLock, pick, rs)
  }

  ghost predicate AgreeAllAlong(cfg: Config, rowLock: bool, pick: seq<Bid> -> Option<Bid>, rs: seq<Request>) {
    forall n :: 0 <= n <= |rs| ==> AgreeAfter(cfg, rowLock, pick, rs[..n])
  }

  /** Answers and tables after one more request are those before it and one step. */
  lemma OneMore(cfg: Config, rowLock: bool, pick: seq<Bid> -> Option<Bid>, rs: seq<Request>)
    requires rs != [] && AgreeAfter(cfg, rowLock, pick, rs[..|rs| - 1])
    ensures var p, r := DoAll(EMPTY, rs[..|rs| - 1]), rs[|rs| - 1];
            AgreeAfter(cfg, rowLock, pick, rs) <==> Agrees(cfg, rowLock, pick, p, r)
  {
    var front, r := rs[..|rs| - 1], rs[|rs| - 1];
    var p := DoAll(EMPTY, front);
    var before := Replies(EMPTY, front);
    assert Replies(EMPTY, rs) == before + [Reply(p, r)];
    assert AnsweredAll(cfg, rowLock, pick, rs) == before + [Answered(cfg, rowLock, TablesOf(p), r)];
    LastDecides(before, Reply(p, r), Answered(cfg, rowLock, TablesOf(p), r));
  }

  lemma LastDecides(xs: seq<Answer>, x: Answer, y: Answer)
    ensures xs + [x] == xs + [y] <==> x == y
  {
    assert (xs + [x])[|xs|] == x && (xs + [y])[|xs|] == y;
  }

  lemma AgreeOnceMore(cfg: Config, rowLock: bool, pick: seq<Bid> -> Option<Bid>, rs: seq<Request>)
    requires rs != [] && SameRules(cfg) && NewIds(EMPTY, rs) && Picks(pick)
    requires AgreeAfter(cfg, rowLock, pick, rs[..|rs| - 1])
    ensures AgreeAfter(cfg, rowLock, pick, rs) <==> Common(cfg, DoAll(EMPTY, rs[..|rs| - 1]), rs[|rs| - 1])
  {
    var front, r := rs[..|rs| - 1], rs[|rs| - 1];
    PickIsBest(pick, front, r.id);
    OneMore(cfg, rowLock, pick, rs);
    StepAgrees(cfg, rowLock, pick, DoAll(EMPTY, front), r);
  }

  lemma AllCommonSplits(cfg: Config, rs: seq<Request>)
    requires rs != []
    ensures AllCommon(cfg, rs) <==>
            AllCommon(cfg, rs[..|rs| - 1]) && Common(cfg, DoAll(EMPTY, rs[..|rs| - 1]), rs[|rs| - 1])
  {
    var front := rs[..|rs| - 1];
    assert forall i :: 0 <= i < |front| ==> front[..i] == rs[..i] && front[i] == rs[i];
    if AllCommon(cfg, front) && Common(cfg, DoAll(EMPTY, front), rs[|rs| - 1]) {
      forall i | 0 <= i < |rs| ensures Common(cfg, DoAll(EMPTY, rs[..i]), rs[i]) {
        assert i < |front| ==> front[..i] == rs[..i];
      }
    }
  }

  lemma AgreeAllAlongSplits(cfg: Config, rowLock: bool, pick: seq<Bid> -> Option<Bid>, rs: seq<Request>)
    requires rs != []
    ensures AgreeAllAlong(cfg, rowLock, pick, rs) <==>
            AgreeAllAlong(cfg, rowLock, pick, rs[..|rs| - 1]) && AgreeAfter(cfg, rowLock, pick, rs)
  {
    var front := rs[..|rs| - 1];
    assert rs[..|rs|] == rs;
    forall n | 0 <= n <= |front| ensures front[..n] == rs[..n] {
    }
    if AgreeAllAlong(cfg, rowLock, pick, rs) {
      forall n | 0 <= n <= |front| ensures AgreeAfter(cfg, rowLock, pick, front[..n]) {
        assert AgreeAfter(cfg, rowLock, pick, rs[..n]);
      }
    } else if AgreeAllAlong(cfg, rowLock, pick, front) && AgreeAfter(cfg, rowLock, pick, rs) {
      forall n | 0 <= n <= |rs| ensures AgreeAfter(cfg, rowLock, pick, rs[..n]) {
        if n < |rs| {
          assert AgreeAfter(cfg, rowLock, pick, front[..n]);
        }
      }
    }
  }

  /**
   Whatever the requests, port and service give the same answers and hold the same lots, bids and winners
   all along the run exactly when the amounts of every accepted request are whole cents that fit, no title
   has blanks around it, and the service refuses each creation that the port refuses.
   */
  lemma {:induction false} PortAgreesExactlyWhen(cfg: Config, rowLock: bool, pick: seq<Bid> -> Option<Bid>,
                                                 rs: seq<Request>)
    requires SameRules(cfg) && NewIds(EMPTY, rs) && Picks(pick)
    ensures AgreeAllAlong(cfg, rowLock, pick, rs) <==> AllCommon(cfg, rs)
  {
    if rs == [] {
      assert AgreeAfter(cfg, rowLock, pick, []);
      assert rs[..0] == [];
    } else {
      var front := rs[..|rs| - 1];
      PortAgreesExactlyWhen(cfg, rowLock, pick, front);
      AllCommonSplits(cfg, rs);
      AgreeAllAlongSplits(cfg, rowLock, pick, rs);
      if AllCommon(cfg, front) {
        assert front[..|front|] == front;
        assert AgreeAfter(cfg, rowLock, pick, front);
        AgreeOnceMore(cfg, rowLock, pick, rs);
      }
    }
  }

  /**
   The two create checks differ exactly on a lot that would close at the moment of the check, and on a
   title of blanks.
   */
  lemma CreateChecksDiffer(r: Request)
    requires r.Create?
    ensures HandlerAccepts(r) && !Accepted(r) <==>
            && r.title != "" && r.start > 0.0 && r.step > 0.0 && r.closing >= r.check
            && (r.closing == r.check || Blank(r.title))
    ensures Accepted(r) ==> HandlerAccepts(r)
  {
    TrimLeavesNothing(r.title);
  }

  /** A lot with a title of one blank: the service creates it and the port does not. */
  lemma BlankTitleDiffers(cfg: Config, rowLock: bool, pick: seq<Bid> -> Option<Bid>, id: LotId, closing: int,
                          check: int, at: int)
    requires SameRules(cfg) && Fits(cfg.column, 100.0) && closing > check
    ensures !AgreeAfter(cfg, rowLock, pick, [Create(id, " ", 100.0, 100.0, closing, check, at)])
  {
    var rs := [Create(id, " ", 100.0, 100.0, closing, check, at)];
    TrimLeavesNothing(" ");
    FirstAnswers(cfg, rowLock, pick, rs[0]);
  }

  /** With a blank in front of a title both create the lot, under different titles. */
  lemma PaddedTitleDiffers(cfg: Config, rowLock: bool, pick: seq<Bid> -> Option<Bid>, id: LotId, closing: int,
                           check: int, at: int)
    requires SameRules(cfg) && Fits(cfg.column, 100.0) && closing > check
    ensures !AgreeAfter(cfg, rowLock, pick, [Create(id, " a", 100.0, 100.0, closing, check, at)])
  {
    var rs := [Create(id, " a", 100.0, 100.0, closing, check, at)];
    assert " a"[1..] == "a" == TrimStart("a");
    FirstAnswers(cfg, rowLock, pick, rs[0]);
  }

  lemma FirstAnswers(cfg: Config, rowLock: bool, pick: seq<Bid> -> Option<Bid>, r: Request)
    ensures Replies(EMPTY, [r]) == [Reply(EMPTY, r)]
    ensures AnsweredAll(cfg, rowLock, pick, [r]) == [Answered(cfg, rowLock, TablesOf(EMPTY), r)]
  {
    assert [r][..0] == [];
  }

  lemma {:induction false} NewIdsPrefix(rs: seq<Request>, n: nat)
    requires NewIds(EMPTY, rs) && n <= |rs|
    ensures NewIds(EMPTY, rs[..n])
  {
    if n == |rs| {
      assert rs[..n] == rs;
    } else {
      NewIdsPrefix(rs[..|rs| - 1], n);
      assert rs[..|rs| - 1][..n] == rs[..n];
    }
  }

  /** Prices of the port's run are values of the service's column. */
  lemma {:induction false} PricesAreWhole(cfg: Config, rs: seq<Request>, id: LotId)
    requires NewIds(EMPTY, rs) && AllCommon(cfg, rs) && id in DoAll(EMPTY, rs).lots
    ensures Whole(DoAll(EMPTY, rs).lots[id].price)
  {
    var front, r := rs[..|rs| - 1], rs[|rs| - 1];
    AllCommonSplits(cfg, rs);
    if id in DoAll(EMPTY, front).lots {
      PricesAreWhole(cfg, front, id);
    }
  }

  lemma AllCommonPrefix(cfg: Config, rs: seq<Request>, n: nat)
    requires AllCommon(cfg, rs) && n <= |rs|
    ensures AllCommon(cfg, rs[..n])
  {
    forall i | 0 <= i < n ensures Common(cfg, DoAll(EMPTY, rs[..n][..i]), rs[..n][i]) {
      assert rs[..n][..i] == rs[..i];
    }
  }

  lemma RunGoesOn(rs: seq<Request>, i: nat)
    requires NewIds(EMPTY, rs) && i < |rs|
    ensures var p, r := DoAll(EMPTY, rs[..i]), rs[i];
            && (r.Create? ==> r.id !in p.lots)
            && DoAll(EMPTY, rs[..i + 1]) == Do(p, r)
            && Replies(EMPTY, rs[..i + 1]) == Replies(EMPTY, rs[..i]) + [Reply(p, r)]
  {
    NewIdsPrefix(rs, i + 1);
    assert rs[..i + 1][..i] == rs[..i];
  }

  /** What the service may rely on before request number i. */
  lemma NextIsReady(cfg: Config, pick: seq<Bid> -> Option<Bid>, rs: seq<Request>, i: nat)
    requires SameRules(cfg) && NewIds(EMPTY, rs) && AllCommon(cfg, rs) && Picks(pick) && i < |rs|
    ensures var p, r := DoAll(EMPTY, rs[..i]), rs[i];
            && (r.id in p.lots ==> Stored(cfg.column, p.lots[r.id].price) == p.lots[r.id].price)
            && LastIsHighest(Of(p.bids, r.id)) && Best(Of(p.bids, r.id)) == pick(Of(p.bids, r.id))
  {
    NewIdsPrefix(rs, i);
    AllCommonPrefix(cfg, rs, i);
    PickIsBest(pick, rs[..i], rs[i].id);
    if rs[i].id in DoAll(EMPTY, rs[..i]).lots {
      PricesAreWhole(cfg, rs[..i], rs[i].id);
    }
  }

  lemma NextRequest(cfg: Config, rowLock: bool, pick: seq<Bid> -> Option<Bid>, rs: seq<Request>, i: nat)
    requires SameRules(cfg) && NewIds(EMPTY, rs) && AllCommon(cfg, rs) && Picks(pick) && i < |rs|
    ensures Agrees(cfg, rowLock, pick, DoAll(EMPTY, rs[..i]), rs[i])
  {
    NextIsReady(cfg, pick, rs, i);
    RunGoesOn(rs, i);
    StepAgrees(cfg, rowLock, pick, DoAll(EMPTY, rs[..i]), rs[i]);
  }

  /** The service's objects, handling the requests one by one, end with the port's tables and give its answers. */
  method ServeLikeThePort(e: GoEngine.Engine, rs: seq<Request>, ghost pick: seq<Bid> -> Option<Bid>)
    returns (answers: seq<Answer>)
    requires e.repo.tx == None && e.repo.View() == Database(map[], [])
    requires SameRules(e.repo.cfg) && NewIds(EMPTY, rs) && AllCommon(e.repo.cfg, rs) && Picks(pick)
    modifies e, e.repo
    ensures e.repo.tx == None && e.repo.View() == TablesOf(DoAll(EMPTY, rs)) && answers == Replies(EMPTY, rs)
  {
    answers := [];
    var i := 0;
    while i < |rs|
      invariant 0 <= i <= |rs| && e.repo.tx == None
      invariant e.repo.View() == TablesOf(DoAll(EMPTY, rs[..i])) && answers == Replies(EMPTY, rs[..i])
    {
      NextIsReady(e.repo.cfg, pick, rs, i);
      RunGoesOn(rs, i);
      NextRequest(e.repo.cfg, e.repo.rowLock, pick, rs, i);
      var a := Handle(e, rs[i], pick);
      answers := answers + [a];
      i := i + 1;
    }
    assert rs[..i] == rs;
  }
}
