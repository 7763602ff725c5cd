/**
 The auction run one operation at a time.  These functions are the rules shared by the Go service
 and the browser port; a history is a sequence of operations that were accepted one after another.
 */
module Auction {
  import opened Wrappers
  import opened Money

  type UserId = string

  datatype Status = Active | Closed | Canceled

  /** The columns of a lot that the engine reads or writes.  Times are integers in one unit. */
  datatype Lot = Lot(
    start: real, step: real, price: real, status: Status,
    closing: int, version: int, winner: Option<UserId>, extended: nat)

  datatype Bid = Bid(user: UserId, amount: real)

  datatype Auction = Auction(lot: Lot, bids: seq<Bid>)

  datatype Config = Config(window: int, extension: int, column: Column)

  datatype Error =
    | NotFound | NotActive | AlreadyClosed | NotHigher | BelowStep   // the answers of the rules
    | OutOfRange | OptimisticLock | DbError                          // the answers of the database
    | Exhausted                                                      // no attempt left

  /** The three clock readings of one bid: against closing, against the window, and for the new closing. */
  datatype Stamp = Stamp(check: int, until: int, next: int)

  predicate Ordered(st: Stamp) {
    st.check <= st.until <= st.next
  }

  // ---- one bid ----

  function Validate(lot: Lot, amount: real, check: int): Option<Error> {
    if lot.status != Active then Some(NotActive)
    else if check > lot.closing then Some(AlreadyClosed)
    else if amount <= lot.price then Some(NotHigher)
    else if amount < lot.price + lot.step then Some(BelowStep)
    else None
  }

  predicate Snipes(cfg: Config, lot: Lot, until: int) {
    cfg.window > 0 && lot.closing - until <= cfg.window
  }

  /** The lot as the bidding call holds it in memory, and returns it: its price is not rounded. */
  function Raised(cfg: Config, lot: Lot, amount: real, st: Stamp): Lot {
    var l := lot.(price := amount, version := lot.version + 1);
    if Snipes(cfg, lot, st.until)
    then l.(closing := st.next + cfg.extension, extended := lot.extended + 1)
    else l
  }

  /** The row after the update of that lot. */
  function Persisted(cfg: Config, lot: Lot): Lot {
    lot.(price := Stored(cfg.column, lot.price))
  }

  function BidOn(cfg: Config, a: Auction, user: UserId, amount: real, st: Stamp): Result<Auction, Error> {
    match Validate(a.lot, amount, st.check)
    case Some(e) => Failure(e)
    case None =>
      if !Fits(cfg.column, amount) then Failure(OutOfRange)
      else Success(Auction(Persisted(cfg, Raised(cfg, a.lot, amount, st)),
                           a.bids + [Bid(user, Stored(cfg.column, amount))]))
  }

  // ---- one close ----

  /** top answers "order by amount descending, first row only": any largest bid, or nothing. */
  predicate IsHighest(top: Option<Bid>, bids: seq<Bid>) {
    match top
    case None => bids == []
    case Some(b) => b in bids && forall x :: x in bids ==> x.amount <= b.amount
  }

  function Sealed(lot: Lot, top: Option<Bid>): Lot {
    lot.(winner := if top.Some? then Some(top.value.user) else lot.winner,
         status := Closed, version := lot.version + 1)
  }

  // ---- histories ----

  datatype Op =
    | BidOp(call: nat, user: UserId, amount: real, stamp: Stamp)
    | CloseOp(call: nat, now: int, top: Option<Bid>)

  function Apply(cfg: Config, a: Auction, op: Op): Option<Auction> {
    match op
    case BidOp(_, user, amount, st) =>
      (match BidOn(cfg, a, user, amount, st)
       case Success(b) => Some(b)
       case Failure(_) => None)
    case CloseOp(_, now, top) =>
      if a.lot.status == Active && now >= a.lot.closing && IsHighest(top, a.bids)
      then Some(Auction(Sealed(a.lot, top), a.bids))
      else None
  }

  /** The auction after all of ops, or None when one of them would have been refused. */
  function Replay(cfg: Config, a: Auction, ops: seq<Op>): Option<Auction> {
    if ops == [] then Some(a)
    else
      match Replay(cfg, a, ops[..|ops| - 1])
      case None => None
      case Some(b) => Apply(cfg, b, ops[|ops| - 1])
  }

  lemma ReplayAppend(cfg: Config, a: Auction, ops: seq<Op>, op: Op)
    requires Replay(cfg, a, ops).Some?
    ensures Replay(cfg, a, ops + [op]) == Apply(cfg, Replay(cfg, a, ops).value, op)
  {
    assert (ops + [op])[..|ops|] == ops;
  }

  /** A history that replays has only prefixes that replay. */
  lemma {:induction false} ReplayPrefix(cfg: Config, a: Auction, ops: seq<Op>, n: nat)
    requires n <= |ops|
    requires Replay(cfg, a, ops).Some?
    ensures Replay(cfg, a, ops[..n]).Some?
  {
    if n == |ops| {
      assert ops[..n] == ops;
    } else {
      var front := ops[..|ops| - 1];
      ReplayPrefix(cfg, a, front, n);
      assert front[..n] == ops[..n];
    }
  }

  /** Two histories one after the other replay as their concatenation. */
  lemma {:induction false} ReplayConcat(cfg: Config, a: Auction, p: seq<Op>, q: seq<Op>)
    requires Replay(cfg, a, p).Some?
    ensures Replay(cfg, a, p + q) == Replay(cfg, Replay(cfg, a, p).value, q)
  {
    if q == [] {
      assert p + q == p;
    } else {
      var front := q[..|q| - 1];
      ReplayConcat(cfg, a, p, front);
      assert (p + q)[..|p + q| - 1] == p + front;
    }
  }

  /** The auction after the first n operations. */
  function At(cfg: Config, a: Auction, ops: seq<Op>, n: nat): Auction
    requires n <= |ops| && Replay(cfg, a, ops).Some?
  {
    ReplayPrefix(cfg, a, ops, n);
    Replay(cfg, a, ops[..n]).value
  }

  lemma AtStep(cfg: Config, a: Auction, ops: seq<Op>, n: nat)
    requires n < |ops| && Replay(cfg, a, ops).Some?
    ensures Apply(cfg, At(cfg, a, ops, n), ops[n]) == Some(At(cfg, a, ops, n + 1))
  {
    ReplayPrefix(cfg, a, ops, n);
    ReplayPrefix(cfg, a, ops, n + 1);
    assert ops[..n + 1][..n] == ops[..n];
  }

  // ---- what the rules promise, in the fields of a lot ----

  /** A new lot, of these amounts. */
  predicate AsAsked(lot: Lot, start: real, step: real, closing: int) {
    && lot.start == start && lot.price == start && lot.step == step && lot.closing == closing
    && lot.status == Active && lot.version == 1 && lot.winner == None && lot.extended == 0
  }

  /** The bids that are accepted, if the column can hold them. */
  predicate Acceptable(lot: Lot, amount: real, check: int) {
    lot.status == Active && check <= lot.closing && lot.price < amount && lot.price + lot.step <= amount
  }

  /** When each error is the answer. */
  predicate Applies(e: Error, lot: Lot, amount: real, check: int) {
    match e
    case NotActive => lot.status != Active
    case AlreadyClosed => lot.status == Active && lot.closing < check
    case NotHigher => lot.status == Active && check <= lot.closing && amount <= lot.price
    case BelowStep => lot.status == Active && check <= lot.closing && lot.price < amount < lot.price + lot.step
    case _ => false
  }

  /** The bid comes in the last window before the closing time. */
  predicate LastMinute(cfg: Config, lot: Lot, until: int) {
    cfg.window > 0 && lot.closing <= until + cfg.window
  }

  /** What an accepted bid makes of a lot whose price becomes the given one. */
  predicate AfterBid(cfg: Config, lot: Lot, price: real, st: Stamp, after: Lot) {
    && after.price == price && after.version == lot.version + 1
    && after.extended == lot.extended + (if LastMinute(cfg, lot, st.until) then 1 else 0)
    && after.closing == (if LastMinute(cfg, lot, st.until) then st.next + cfg.extension else lot.closing)
    && after.start == lot.start && after.step == lot.step
    && after.status == lot.status && after.winner == lot.winner
  }

  /** What a close makes of a lot. */
  predicate AfterClose(lot: Lot, top: Option<Bid>, after: Lot) {
    && after.status == Closed && after.version == lot.version + 1
    && (top.Some? ==> after.winner == Some(top.value.user)) && (top.None? ==> after.winner == lot.winner)
    && after.price == lot.price && after.closing == lot.closing && after.extended == lot.extended
    && after.start == lot.start && after.step == lot.step
  }

  /** A history goes on with these operations and with no others. */
  lemma AcceptedExactlyWhen(cfg: Config, init: Auction, ops: seq<Op>, op: Op)
    requires Replay(cfg, init, ops).Some?
    ensures var a := Replay(cfg, init, ops).value;
            Replay(cfg, init, ops + [op]).Some? <==>
              match op
              case BidOp(_, _, amount, st) => Acceptable(a.lot, amount, st.check) && Fits(cfg.column, amount)
              case CloseOp(_, now, top) => a.lot.status == Active && a.lot.closing <= now && IsHighest(top, a.bids)
  {
    ReplayAppend(cfg, init, ops, op);
  }

  /** What the operations of a history change: a bid its row and the bid table, a close the row only. */
  lemma OperationsFollowRules(cfg: Config, init: Auction, ops: seq<Op>, i: nat)
    requires i < |ops| && Replay(cfg, init, ops).Some?
    ensures var a, b := At(cfg, init, ops, i), At(cfg, init, ops, i + 1);
            match ops[i]
            case BidOp(_, user, amount, st) =>
              && Acceptable(a.lot, amount, st.check)
              && AfterBid(cfg, a.lot, Stored(cfg.column, amount), st, b.lot)
              && b.bids == a.bids + [Bid(user, Stored(cfg.column, amount))]
            case CloseOp(_, _, top) => AfterClose(a.lot, top, b.lot) && b.bids == a.bids
  {
    AtStep(cfg, init, ops, i);
  }

  // ---- extensions ----

  /** Operation i is a late bid, measured against the closing time it met. */
  predicate IsLateBid(cfg: Config, init: Auction, ops: seq<Op>, i: nat)
    requires i < |ops| && Replay(cfg, init, ops).Some?
  {
    ops[i].BidOp? && LastMinute(cfg, At(cfg, init, ops, i).lot, ops[i].stamp.until)
  }

  function LateBids(cfg: Config, init: Auction, ops: seq<Op>): set<nat>
    requires Replay(cfg, init, ops).Some?
  {
    set i: nat | i < |ops| && IsLateBid(cfg, init, ops, i)
  }

  lemma SamePrefix(cfg: Config, init: Auction, ops: seq<Op>, n: nat, i: nat)
    requires i <= n <= |ops| && Replay(cfg, init, ops).Some?
    ensures Replay(cfg, init, ops[..n]).Some?
    ensures At(cfg, init, ops[..n], i) == At(cfg, init, ops, i)
  {
    ReplayPrefix(cfg, init, ops, n);
    assert ops[..n][..i] == ops[..i];
  }

  lemma SameLateBid(cfg: Config, init: Auction, ops: seq<Op>, n: nat, i: nat)
    requires i < n <= |ops| && Replay(cfg, init, ops).Some?
    ensures Replay(cfg, init, ops[..n]).Some?
    ensures IsLateBid(cfg, init, ops[..n], i) <==> IsLateBid(cfg, init, ops, i)
  {
    SamePrefix(cfg, init, ops, n, i);
  }

  lemma LateBidsGrow(cfg: Config, init: Auction, ops: seq<Op>)
    requires ops != [] && Replay(cfg, init, ops).Some? && Replay(cfg, init, ops[..|ops| - 1]).Some?
    ensures LateBids(cfg, init, ops) == LateBids(cfg, init, ops[..|ops| - 1])
                                        + if IsLateBid(cfg, init, ops, |ops| - 1) then {|ops| - 1} else {}
  {
    var n := |ops| - 1;
    forall i: nat | i < n ensures IsLateBid(cfg, init, ops[..n], i) <==> IsLateBid(cfg, init, ops, i) {
      SameLateBid(cfg, init, ops, n, i);
    }
  }

  predicate IsLast(late: set<nat>, k: nat) {
    k in late && forall j :: j in late ==> j <= k
  }

  /** The closing time is the one the last late bid has set, or the original one. */
  predicate SetByLast(cfg: Config, first: Lot, ops: seq<Op>, late: set<nat>, lot: Lot) {
    && (late == {} ==> lot.closing == first.closing)
    && forall k: nat :: k < |ops| && ops[k].BidOp? && IsLast(late, k)
         ==> lot.closing == ops[k].stamp.next + cfg.extension
  }

  lemma LastBidOrClose(cfg: Config, init: Auction, ops: seq<Op>)
    requires ops != [] && Replay(cfg, init, ops).Some?
    ensures Replay(cfg, init, ops[..|ops| - 1]).Some?
    ensures var lot, op := Replay(cfg, init, ops[..|ops| - 1]).value.lot, ops[|ops| - 1];
            var after := Replay(cfg, init, ops).value.lot;
            if IsLateBid(cfg, init, ops, |ops| - 1)
            then after.extended == lot.extended + 1 && op.BidOp? && after.closing == op.stamp.next + cfg.extension
            else after.extended == lot.extended && after.closing == lot.closing
  {
    OperationsFollowRules(cfg, init, ops, |ops| - 1);
    assert ops[..|ops|] == ops;
  }

  /** One more operation, which is late or not. */
  lemma SetByLastGrows(cfg: Config, first: Lot, ops: seq<Op>, late: set<nat>, more: set<nat>, lot: Lot, after: Lot)
    requires ops != [] && (forall k :: k in late ==> k < |ops| - 1)
    requires SetByLast(cfg, first, ops[..|ops| - 1], late, lot)
    requires if more == late then after.closing == lot.closing
             else
               && more == late + {|ops| - 1}
               && ops[|ops| - 1].BidOp? && after.closing == ops[|ops| - 1].stamp.next + cfg.extension
    ensures SetByLast(cfg, first, ops, more, after)
  {
    var n, front := |ops| - 1, ops[..|ops| - 1];
    forall k: nat | k < |ops| && ops[k].BidOp? && IsLast(more, k)
      ensures after.closing == ops[k].stamp.next + cfg.extension
    {
      if more == late {
        assert front[k] == ops[k];
      } else {
        assert n in more;
      }
    }
  }

  lemma {:induction false} LateBidsAreCounted(cfg: Config, init: Auction, ops: seq<Op>)
    requires Fresh(init) && Replay(cfg, init, ops).Some?
    ensures Replay(cfg, init, ops).value.lot.extended == |LateBids(cfg, init, ops)|
  {
    if ops != [] {
      LastBidOrClose(cfg, init, ops);
      LateBidsAreCounted(cfg, init, ops[..|ops| - 1]);
      LateBidsGrow(cfg, init, ops);
    }
  }

  lemma LateBidsAreBids(cfg: Config, init: Auction, ops: seq<Op>)
    requires Replay(cfg, init, ops).Some?
    ensures forall k :: k in LateBids(cfg, init, ops) ==> k < |ops|
  {
  }

  lemma {:induction false} LastLateBidSets(cfg: Config, init: Auction, ops: seq<Op>)
    requires Replay(cfg, init, ops).Some?
    ensures SetByLast(cfg, init.lot, ops, LateBids(cfg, init, ops), Replay(cfg, init, ops).value.lot)
  {
    if ops == [] {
      LateBidsAreBids(cfg, init, ops);
    } else {
      var front := ops[..|ops| - 1];
      LastBidOrClose(cfg, init, ops);
      LastLateBidSets(cfg, init, front);
      LateBidsAreBids(cfg, init, front);
      LateBidsGrow(cfg, init, ops);
      SetByLastGrows(cfg, init.lot, ops, LateBids(cfg, init, front), LateBids(cfg, init, ops),
                     Replay(cfg, init, front).value.lot, Replay(cfg, init, ops).value.lot);
    }
  }

  /** The extension count is the number of late bids, and the last of them has set the closing time. */
  lemma ExtensionsAreLateBids(cfg: Config, init: Auction, ops: seq<Op>)
    requires Fresh(init) && Replay(cfg, init, ops).Some?
    ensures var lot, late := Replay(cfg, init, ops).value.lot, LateBids(cfg, init, ops);
            lot.extended == |late| && SetByLast(cfg, init.lot, ops, late, lot)
  {
    LateBidsAreCounted(cfg, init, ops);
    LastLateBidSets(cfg, init, ops);
  }

  // ---- where a lot starts ----

  /** A row just inserted by CreateLot, with an empty bid table. */
  predicate Fresh(a: Auction) {
    && a.bids == []
    && a.lot.status == Active && a.lot.version == 1 && a.lot.winner == None
    && a.lot.extended == 0 && a.lot.price == a.lot.start
  }

  /** The stored start price and step fit the column, and the step is at least one cent (or positive). */
  ghost predicate Sane(cfg: Config, a: Auction) {
    && Fresh(a)
    && Sound(cfg.column)
    && Storable(cfg.column, a.lot.start) && Storable(cfg.column, a.lot.step)
    && a.lot.step > 0.0
  }

  // ---- accounting ----

  /** The price that bid number i had to beat. */
  function PriceBefore(start: real, bids: seq<Bid>, i: nat): real
    requires i <= |bids|
  {
    if i == 0 then start else bids[i - 1].amount
  }

  /** Every bid is at least one step above the one before it, the first one above the start price. */
  predicate Spaced(start: real, step: real, bids: seq<Bid>) {
    forall i :: 0 <= i < |bids| ==> bids[i].amount >= PriceBefore(start, bids, i) + step
  }

  predicate Accounts(first: Lot, a: Auction, ops: seq<Op>) {
    && a.lot.start == first.start && a.lot.step == first.step
    && (a.lot.status == Active || a.lot.status == Closed)
    && a.lot.version == 1 + |ops|
    && |ops| == |a.bids| + (if a.lot.status == Closed then 1 else 0)
    && a.lot.price == PriceBefore(first.start, a.bids, |a.bids|)
    && a.lot.extended <= |a.bids|
    && (a.lot.status == Active ==> a.lot.winner == None)
  }

  /** Version, price, extension count and bid table agree after every history. */
  lemma {:induction false} Accounting(cfg: Config, init: Auction, ops: seq<Op>)
    requires Fresh(init) && Replay(cfg, init, ops).Some?
    ensures Accounts(init.lot, Replay(cfg, init, ops).value, ops)
  {
    if ops != [] {
      Accounting(cfg, init, ops[..|ops| - 1]);
    }
  }

  lemma SpacedAppend(start: real, step: real, bids: seq<Bid>, bid: Bid)
    requires Spaced(start, step, bids)
    requires bid.amount >= PriceBefore(start, bids, |bids|) + step
    ensures Spaced(start, step, bids + [bid])
  {
    var longer := bids + [bid];
    forall i | 0 <= i < |longer|
      ensures longer[i].amount >= PriceBefore(start, longer, i) + step
    {
      assert PriceBefore(start, longer, i) == PriceBefore(start, bids, i);
      assert i < |bids| ==> longer[i] == bids[i];
    }
  }

  /** The start price and n steps on top of it. */
  function Ladder(start: real, step: real, n: nat): (r: real)
    ensures r == start + n as real * step
  {
    if n == 0 then start
    else
      assert n as real * step == (n - 1) as real * step + step;
      Ladder(start, step, n - 1) + step
  }

  /** The stored prices climb by steps and stay values of the column. */
  ghost predicate Climbs(column: Column, first: Lot, a: Auction) {
    && Spaced(first.start, first.step, a.bids)
    && a.lot.price >= Ladder(first.start, first.step, |a.bids|)
    && Storable(column, a.lot.price)
  }

  lemma BidKeepsClimbing(cfg: Config, first: Lot, b: Auction, op: Op)
    requires Sound(cfg.column) && Storable(cfg.column, first.step)
    requires op.BidOp? && Apply(cfg, b, op).Some?
    requires b.lot.step == first.step && b.lot.price == PriceBefore(first.start, b.bids, |b.bids|)
    requires Climbs(cfg.column, first, b)
    ensures Climbs(cfg.column, first, Apply(cfg, b, op).value)
  {
    StoredKeepsStep(cfg.column, op.amount, b.lot.price, b.lot.step);
    SpacedAppend(first.start, first.step, b.bids, Bid(op.user, Stored(cfg.column, op.amount)));
  }

  /** The stored price never falls below the start price plus one step a bid. */
  lemma {:induction false} Climbing(cfg: Config, init: Auction, ops: seq<Op>)
    requires Sane(cfg, init) && Replay(cfg, init, ops).Some?
    ensures Climbs(cfg.column, init.lot, Replay(cfg, init, ops).value)
  {
    if ops != [] {
      var front, op := ops[..|ops| - 1], ops[|ops| - 1];
      Climbing(cfg, init, front);
      Accounting(cfg, init, front);
      if op.BidOp? {
        BidKeepsClimbing(cfg, init.lot, Replay(cfg, init, front).value, op);
      }
    }
  }

  lemma {:induction false} SpacedIncreases(start: real, step: real, bids: seq<Bid>, i: nat, j: nat)
    requires Spaced(start, step, bids) && step > 0.0
    requires i < j < |bids|
    ensures bids[i].amount < bids[j].amount
    decreases j
  {
    if i < j - 1 {
      SpacedIncreases(start, step, bids, i, j - 1);
    }
  }

  /** The last bid is the one highest bid. */
  predicate LastIsHighest(bids: seq<Bid>) {
    forall i :: 0 <= i < |bids| - 1 ==> bids[i].amount < bids[|bids| - 1].amount
  }

  lemma SpacedLastIsHighest(start: real, step: real, bids: seq<Bid>)
    requires Spaced(start, step, bids) && step > 0.0
    ensures LastIsHighest(bids)
  {
    forall i | 0 <= i < |bids| - 1 ensures bids[i].amount < bids[|bids| - 1].amount {
      SpacedIncreases(start, step, bids, i, |bids| - 1);
    }
  }

  function LastBid(bids: seq<Bid>): Option<Bid> {
    if bids == [] then None else Some(bids[|bids| - 1])
  }

  /** Then the query for the highest bid has no choice. */
  lemma HighestIsLast(bids: seq<Bid>, top: Option<Bid>)
    requires LastIsHighest(bids)
    ensures IsHighest(top, bids) <==> top == LastBid(bids)
  {
    if bids != [] {
      var last := bids[|bids| - 1];
      assert last in bids;
      forall x | x in bids ensures x == last || x.amount < last.amount {
        var i :| 0 <= i < |bids| && bids[i] == x;
      }
    }
  }

  /**
   On cents rounded as PostgreSQL does, accepted bids raise the stored price exactly when the stored step is
   not zero.
   */
  lemma StoredStepKeepsBidsApart(cfg: Config, lot: Lot)
    requires cfg.column.Decimal? && cfg.column.round == HalfAwayFromZero
    requires Storable(cfg.column, lot.price) && Storable(cfg.column, lot.step) && lot.step >= 0.0
    requires lot.status == Active
    ensures lot.step > 0.0 <==>
            forall amount: real, check: int ::
              Validate(lot, amount, check) == None ==> Stored(cfg.column, amount) > lot.price
  {
    HalfAwayFromZeroIsRounding();
    if lot.step > 0.0 {
      forall amount: real, check: int | Validate(lot, amount, check) == None
        ensures Stored(cfg.column, amount) > lot.price
      {
        StoredKeepsStep(cfg.column, amount, lot.price, lot.step);
      }
    } else {
      var amount := lot.price + 0.25;
      assert Validate(lot, amount, lot.closing) == None;
      if lot.price >= 0.0 {
        FloorIs(amount + 0.5, lot.price.Floor);
      } else {
        FloorIs(0.5 - amount, -lot.price.Floor);
      }
    }
  }

  // ---- the winner ----

  /** No bids, no winner and the start price; or the bidder of the one highest bid, at its amount. */
  predicate RightWinner(first: Lot, a: Auction) {
    && a.lot.winner == (if a.bids == [] then None else Some(a.bids[|a.bids| - 1].user))
    && a.lot.price == PriceBefore(first.start, a.bids, |a.bids|)
    && LastIsHighest(a.bids)
  }

  lemma ClosedHasRightWinner(cfg: Config, init: Auction, ops: seq<Op>)
    requires Sane(cfg, init) && Replay(cfg, init, ops).Some?
    requires Replay(cfg, init, ops).value.lot.status == Closed
    ensures RightWinner(init.lot, Replay(cfg, init, ops).value)
  {
    var front, a := ops[..|ops| - 1], Replay(cfg, init, ops).value;
    Accounting(cfg, init, front);
    Accounting(cfg, init, ops);
    Climbing(cfg, init, ops);
    SpacedLastIsHighest(init.lot.start, init.lot.step, a.bids);
    HighestIsLast(a.bids, ops[|ops| - 1].top);
  }

  /** A lot closes at most once, by the last operation of its history. */
  lemma {:induction false} OnlyTheLastCloses(cfg: Config, init: Auction, ops: seq<Op>, i: nat)
    requires Fresh(init) && Replay(cfg, init, ops).Some?
    requires i < |ops|
    ensures ops[i].CloseOp? <==> i == |ops| - 1 && Replay(cfg, init, ops).value.lot.status == Closed
  {
    var front := ops[..|ops| - 1];
    Accounting(cfg, init, front);
    if i < |ops| - 1 {
      OnlyTheLastCloses(cfg, init, front, i);
    }
  }

  // ---- the closing time ----

  /** Every clock of the process runs forward within one call. */
  predicate AllOrdered(ops: seq<Op>) {
    forall i :: 0 <= i < |ops| && ops[i].BidOp? ==> Ordered(ops[i].stamp)
  }

  /** Extending from now never shortens the auction: the window is off, or the extension covers it. */
  predicate Covers(cfg: Config) {
    cfg.window > 0 ==> cfg.extension >= cfg.window
  }

  /** An accepted bid moves closing_at back for no stamp and no lot exactly when the extension covers the window. */
  lemma ExtensionCoversWindow(cfg: Config)
    ensures Covers(cfg) <==>
            forall lot: Lot, amount: real, st: Stamp ::
              Ordered(st) && Validate(lot, amount, st.check) == None
              ==> Raised(cfg, lot, amount, st).closing >= lot.closing
  {
    if !Covers(cfg) {
      var lot := Lot(100.0, 10.0, 100.0, Active, cfg.window, 1, None, 0);
      var st := Stamp(0, 0, 0);
      assert Validate(lot, 110.0, 0) == None;
      assert Raised(cfg, lot, 110.0, st).closing == cfg.extension < lot.closing;
    }
  }

  lemma ClosingStep(cfg: Config, a: Auction, op: Op)
    requires Covers(cfg) && Apply(cfg, a, op).Some? && (op.BidOp? ==> Ordered(op.stamp))
    ensures var lot := Apply(cfg, a, op).value.lot;
            && a.lot.closing <= lot.closing && a.lot.extended <= lot.extended
            && (a.lot.extended == lot.extended ==> a.lot.closing == lot.closing)
  {
  }

  /** The closing time only gets later, and only by extensions that are counted. */
  lemma {:induction false} ClosingNeverDecreases(cfg: Config, init: Auction, ops: seq<Op>, i: nat, j: nat)
    requires Covers(cfg) && AllOrdered(ops) && Replay(cfg, init, ops).Some?
    requires i <= j <= |ops|
    ensures var a, b := At(cfg, init, ops, i).lot, At(cfg, init, ops, j).lot;
            && a.closing <= b.closing && a.extended <= b.extended
            && (a.extended == b.extended ==> a.closing == b.closing)
    decreases j
  {
    if i < j {
      ClosingNeverDecreases(cfg, init, ops, i, j - 1);
      AtStep(cfg, init, ops, j - 1);
      ClosingStep(cfg, At(cfg, init, ops, j - 1), ops[j - 1]);
    }
  }

  /** Anti-sniping: a lot closes at least one full window after the clock reading of every accepted bid. */
  lemma {:induction false} ClosesAWindowAfterEveryBid(cfg: Config, init: Auction, ops: seq<Op>, i: nat, j: nat)
    requires cfg.extension >= cfg.window > 0 && AllOrdered(ops) && Replay(cfg, init, ops).Some?
    requires i < j <= |ops| && ops[i].BidOp?
    ensures At(cfg, init, ops, j).lot.closing >= ops[i].stamp.until + cfg.window
    ensures j < |ops| && ops[j].CloseOp? ==> ops[j].now >= ops[i].stamp.until + cfg.window
  {
    AtStep(cfg, init, ops, i);
    ClosingNeverDecreases(cfg, init, ops, i + 1, j);
    if j < |ops| {
      AtStep(cfg, init, ops, j);
    }
  }

  /** Time spent between the check against closing_at and the reading that sets the new one. */
  function Lateness(ops: seq<Op>): int {
    if ops == [] then 0
    else
      var op := ops[|ops| - 1];
      Lateness(ops[..|ops| - 1]) + if op.BidOp? then op.stamp.next - op.stamp.check else 0
  }

  /** How far anti-sniping can stretch an auction: one extension a late bid, plus the time calls took. */
  lemma {:induction false} LengthIsBounded(cfg: Config, init: Auction, ops: seq<Op>)
    requires AllOrdered(ops) && Replay(cfg, init, ops).Some?
    requires Fresh(init) && cfg.extension >= 0
    ensures var lot := Replay(cfg, init, ops).value.lot;
            lot.closing <= init.lot.closing + lot.extended * cfg.extension + Lateness(ops)
  {
    if ops != [] {
      var front := ops[..|ops| - 1];
      LengthIsBounded(cfg, init, front);
      var op, b := ops[|ops| - 1], Replay(cfg, init, front).value;
      if op.BidOp? {
        assert Ordered(op.stamp);
        assert (b.lot.extended + 1) * cfg.extension == b.lot.extended * cfg.extension + cfg.extension;
      }
    }
  }

  lemma {:induction false} PriceFits(cfg: Config, init: Auction, ops: seq<Op>)
    requires Fresh(init) && Fits(cfg.column, init.lot.start) && Stored(cfg.column, init.lot.start) == init.lot.start
    requires Replay(cfg, init, ops).Some?
    requires cfg.column.Decimal?
    ensures Replay(cfg, init, ops).value.lot.price <= cfg.column.max
  {
    if ops != [] {
      PriceFits(cfg, init, ops[..|ops| - 1]);
    }
  }

  /** The decimal column leaves room for only so many bids, and so for so many extensions. */
  lemma BidsAreBounded(cfg: Config, init: Auction, ops: seq<Op>)
    requires Sane(cfg, init) && Replay(cfg, init, ops).Some?
    requires cfg.column.Decimal? && init.lot.start <= cfg.column.max
    ensures var a := Replay(cfg, init, ops).value;
            && a.lot.extended <= |a.bids|
            && Ladder(init.lot.start, init.lot.step, |a.bids|) <= cfg.column.max
  {
    Accounting(cfg, init, ops);
    Climbing(cfg, init, ops);
    assert Stored(cfg.column, init.lot.start) == init.lot.start;
    PriceFits(cfg, init, ops);
  }

  /** The bound without that time: original closing plus one extension for each that was granted. */
  predicate WithinExtensions(cfg: Config, first: Lot, lot: Lot) {
    lot.closing <= first.closing + lot.extended * cfg.extension
  }

  /** Every reading that sets a new closing time is taken before the old one. */
  predicate Punctual(cfg: Config, init: Auction, ops: seq<Op>)
    requires Replay(cfg, init, ops).Some?
  {
    forall i :: 0 <= i < |ops| && ops[i].BidOp? && Snipes(cfg, At(cfg, init, ops, i).lot, ops[i].stamp.until)
      ==> ops[i].stamp.next <= At(cfg, init, ops, i).lot.closing
  }

  lemma PunctualStep(cfg: Config, first: Lot, a: Auction, op: Op)
    requires Apply(cfg, a, op).Some? && WithinExtensions(cfg, first, a.lot)
    requires op.BidOp? && Snipes(cfg, a.lot, op.stamp.until) ==> op.stamp.next <= a.lot.closing
    ensures WithinExtensions(cfg, first, Apply(cfg, a, op).value.lot)
  {
    assert (a.lot.extended + 1) * cfg.extension == a.lot.extended * cfg.extension + cfg.extension;
  }

  /** Of punctual histories it holds. */
  lemma {:induction false} PunctualLength(cfg: Config, init: Auction, ops: seq<Op>, n: nat)
    requires Replay(cfg, init, ops).Some? && Punctual(cfg, init, ops)
    requires Fresh(init) && n <= |ops|
    ensures WithinExtensions(cfg, init.lot, At(cfg, init, ops, n).lot)
  {
    if n == 0 {
      assert ops[..0] == [];
    } else {
      PunctualLength(cfg, init, ops, n - 1);
      AtStep(cfg, init, ops, n - 1);
      PunctualStep(cfg, init.lot, At(cfg, init, ops, n - 1), ops[n - 1]);
    }
  }

  /** Without punctuality it fails, by as much as the call was late: one bid checked in time, but set late. */
  lemma LateBidOvershoots(cfg: Config, init: Auction, late: nat)
    requires Sane(cfg, init) && cfg.window > 0 && late > 0
    requires Fits(cfg.column, init.lot.start + init.lot.step)
    ensures var c := init.lot.closing;
            var ops := [BidOp(0, "late", init.lot.start + init.lot.step, Stamp(c, c, c + late))];
            && Replay(cfg, init, ops).Some? && !Punctual(cfg, init, ops)
            && Replay(cfg, init, ops).value.lot.closing == c + 1 * cfg.extension + late
            && Replay(cfg, init, ops).value.lot.extended == 1
  {
    var c := init.lot.closing;
    var ops := [BidOp(0, "late", init.lot.start + init.lot.step, Stamp(c, c, c + late))];
    assert ops[..0] == [];
    assert At(cfg, init, ops, 0) == init;
    assert Replay(cfg, init, ops) == Apply(cfg, init, ops[0]);
  }

  /** No call takes longer than delay from its check against closing_at to the reading that sets the new one. */
  predicate Delayed(ops: seq<Op>, delay: nat) {
    forall i :: 0 <= i < |ops| && ops[i].BidOp? ==> ops[i].stamp.next - ops[i].stamp.check <= delay
  }

  lemma PromptIsPunctual(cfg: Config, init: Auction, ops: seq<Op>)
    requires Replay(cfg, init, ops).Some? && Delayed(ops, 0)
    ensures Punctual(cfg, init, ops)
  {
    forall i | 0 <= i < |ops| && ops[i].BidOp? ensures ops[i].stamp.next <= At(cfg, init, ops, i).lot.closing {
      AtStep(cfg, init, ops, i);
    }
  }

  /** In every history of calls within the delay, each granted extension accounts for the time it added. */
  ghost predicate AlwaysWithinExtensions(cfg: Config, init: Auction, delay: nat) {
    forall ops :: Replay(cfg, init, ops).Some? && AllOrdered(ops) && Delayed(ops, delay)
      ==> WithinExtensions(cfg, init.lot, Replay(cfg, init, ops).value.lot)
  }

  /** The plain bound on the length of an auction holds exactly when a bid takes no time between its two readings. */
  lemma PlainBoundExactlyWhen(cfg: Config, init: Auction, delay: nat)
    requires Sane(cfg, init) && cfg.window > 0
    requires Fits(cfg.column, init.lot.start + init.lot.step)
    ensures AlwaysWithinExtensions(cfg, init, delay) <==> delay == 0
  {
    if delay == 0 {
      forall ops | Replay(cfg, init, ops).Some? && AllOrdered(ops) && Delayed(ops, delay)
        ensures WithinExtensions(cfg, init.lot, Replay(cfg, init, ops).value.lot)
      {
        PromptIsPunctual(cfg, init, ops);
        PunctualLength(cfg, init, ops, |ops|);
        assert ops[..|ops|] == ops;
      }
    } else {
      var c := init.lot.closing;
      var ops := [BidOp(0, "late", init.lot.start + init.lot.step, Stamp(c, c, c + delay))];
      LateBidOvershoots(cfg, init, delay);
      assert AllOrdered(ops) && Delayed(ops, delay);
    }
  }
}
