/** The browser port as a state machine on values: lots, one array of bids for all of them, and capped timers. */
module Port {
  import opened Wrappers
  import opened Money
  import opened Auction
  import opened Tables

  const SNIPING_WINDOW_MS := 30_000
  const SNIPING_EXTENSION_MS := 30_000

  /** The longest delay setTimeout takes. */
  const MAX_DELAY_MS := 2_147_483_000

  /** The port keeps amounts as they are. */
  const RULES := Config(SNIPING_WINDOW_MS, SNIPING_EXTENSION_MS, Exact)

  datatype Timer = Timer(armedAt: int, deadline: int)

  /** queue holds the lots whose close is waiting as a microtask. */
  datatype Port = Port(lots: map<LotId, Lot>, bids: seq<BidRow>, timers: map<LotId, Timer>, queue: seq<LotId>)

  // ---- the store ----

  /** Keep the best so far, and replace it by a strictly larger amount. */
  function Best(bids: seq<Bid>): Option<Bid> {
    if bids == [] then None
    else
      var rest, last := Best(bids[..|bids| - 1]), bids[|bids| - 1];
      if rest.Some? && last.amount <= rest.value.amount then rest else Some(last)
  }

  lemma {:induction false} BestIsHighest(bids: seq<Bid>)
    ensures IsHighest(Best(bids), bids)
  {
    if bids != [] {
      var front, last := bids[..|bids| - 1], bids[|bids| - 1];
      BestIsHighest(front);
      assert forall x :: x in bids ==> x in front || x == last;
      assert last in bids && forall x :: x in front ==> x in bids;
    }
  }

  /** Of equal highest bids it is the first. */
  lemma {:induction false} BestIsFirst(bids: seq<Bid>) returns (i: nat)
    requires bids != []
    ensures i < |bids| && Best(bids) == Some(bids[i])
    ensures forall j :: 0 <= j < i ==> bids[j].amount < bids[i].amount
    ensures forall j :: i < j < |bids| ==> bids[j].amount <= bids[i].amount
  {
    var front := bids[..|bids| - 1];
    if front == [] {
      i := 0;
    } else {
      i := BestIsFirst(front);
      if front[i].amount < bids[|bids| - 1].amount {
        i := |bids| - 1;
      }
    }
  }

  function AuctionOf(p: Port, id: LotId): Auction
    requires id in p.lots
  {
    Auction(p.lots[id], Of(p.bids, id))
  }

  // ---- the engine ----

  function Min(x: int, y: int): int {
    if x <= y then x else y
  }

  function Cleared(p: Port, id: LotId): Port {
    p.(timers := p.timers - {id})
  }

  function Scheduled(p: Port, id: LotId, now: int): Port
    requires id in p.lots
  {
    var q, ms := Cleared(p, id), p.lots[id].closing - now;
    if ms <= 0 then q.(queue := q.queue + [id])
    else q.(timers := q.timers[id := Timer(now, now + Min(ms, MAX_DELAY_MS))])
  }

  // ---- titles ----

  /** The characters that trim() of ECMAScript removes: WhiteSpace and LineTerminator, ECMA-262 section 22.1.3.32. */
  predicate White(c: char) {
    || '\U{0009}' <= c <= '\U{000D}' || c == ' ' || c == '\U{00A0}' || c == '\U{1680}' || '\U{2000}' <= c <= '\U{200A}'
    || c == '\U{2028}' || c == '\U{2029}' || c == '\U{202F}' || c == '\U{205F}' || c == '\U{3000}' || c == '\U{FEFF}'
  }

  function TrimStart(s: string): string {
    if s != [] && White(s[0]) then TrimStart(s[1..]) else s
  }

  function TrimEnd(s: string): string {
    if s != [] && White(s[|s| - 1]) then TrimEnd(s[..|s| - 1]) else s
  }

  function Trim(s: string): string {
    TrimEnd(TrimStart(s))
  }

  /** Nothing but blanks. */
  predicate Blank(s: string) {
    forall i :: 0 <= i < |s| ==> White(s[i])
  }

  lemma {:induction false} TrimStartStops(s: string)
    ensures TrimStart(s) == [] <==> Blank(s)
    ensures TrimStart(s) != [] ==> !White(TrimStart(s)[0])
  {
    if s != [] && White(s[0]) {
      TrimStartStops(s[1..]);
      assert s == [s[0]] + s[1..];
    }
  }

  lemma {:induction false} TrimEndStops(s: string)
    requires s != [] && !White(s[0])
    ensures TrimEnd(s) != [] && TrimEnd(s)[0] == s[0]
  {
    if White(s[|s| - 1]) {
      TrimEndStops(s[..|s| - 1]);
    }
  }

  /** trim() leaves nothing of a title exactly when it is blank. */
  lemma TrimLeavesNothing(s: string)
    ensures Trim(s) == [] <==> Blank(s)
  {
    TrimStartStops(s);
    if !Blank(s) {
      TrimEndStops(TrimStart(s));
    }
  }

  lemma {:induction false} TrimStartDrops(s: string) returns (i: nat)
    ensures i <= |s| && TrimStart(s) == s[i..] && Blank(s[..i]) && (i < |s| ==> !White(s[i]))
  {
    i := 0;
    if s != [] && White(s[0]) {
      var t := s[1..];
      var k := TrimStartDrops(t);
      i := k + 1;
      assert t[k..] == s[i..];
      assert forall x :: 0 < x < i ==> s[x] == t[..k][x - 1];
    }
  }

  lemma {:induction false} TrimEndDrops(s: string) returns (j: nat)
    ensures j <= |s| && TrimEnd(s) == s[..j] && Blank(s[j..]) && (j > 0 ==> !White(s[j - 1]))
  {
    j := |s|;
    if s != [] && White(s[|s| - 1]) {
      var t := s[..|s| - 1];
      j := TrimEndDrops(t);
      assert t[..j] == s[..j];
      assert s[j..] == t[j..] + [s[|s| - 1]];
    }
  }

  /** trim() takes nothing but blanks, all those at both ends, and leaves what is between them. */
  lemma TrimsBothEnds(s: string) returns (i: nat, j: nat)
    ensures i <= j <= |s| && Trim(s) == s[i..j] && Blank(s[..i]) && Blank(s[j..])
    ensures i < j ==> !White(s[i]) && !White(s[j - 1])
  {
    i := TrimStartDrops(s);
    var t := s[i..];
    j := TrimEndDrops(t);
    assert t[..j] == s[i..i + j] && t[j..] == s[i + j..];
    if j > 0 {
      assert t[j - 1] == s[i + j - 1];
    }
    j := i + j;
  }

  // ---- creation ----

  datatype CreateError = NoTitle | NoStart | NoStep | PastClosing

  function CheckCreate(title: string, start: real, step: real, closing: int, now: int): Option<CreateError> {
    if Trim(title) == [] then Some(NoTitle)
    else if start <= 0.0 then Some(NoStart)
    else if step <= 0.0 then Some(NoStep)
    else if closing <= now then Some(PastClosing)
    else None
  }

  function NewLot(start: real, step: real, closing: int): Lot {
    Lot(start, step, start, Active, closing, 1, None, 0)
  }

  /** createLot after its checks; at is the reading scheduleClose takes. */
  function Created(p: Port, id: LotId, start: real, step: real, closing: int, at: int): Port {
    Scheduled(p.(lots := p.lots[id := NewLot(start, step, closing)]), id, at)
  }

  function CheckBid(p: Port, id: LotId, amount: real, check: int): Option<Error> {
    if id !in p.lots then Some(NotFound) else Validate(p.lots[id], amount, check)
  }

  /** placeBid after its checks. */
  function BidPlaced(p: Port, id: LotId, user: UserId, amount: real, st: Stamp, at: int): Port
    requires id in p.lots
  {
    var q := p.(lots := p.lots[id := Raised(RULES, p.lots[id], amount, st)],
                bids := p.bids + [BidRow(id, Bid(user, amount))]);
    if Snipes(RULES, p.lots[id], st.until) then Scheduled(q, id, at) else q
  }

  /** closeLot; at is the reading scheduleClose takes if the lot is not due. */
  function ClosedOrDeferred(p: Port, id: LotId, now: int, at: int): Port {
    if id !in p.lots || p.lots[id].status != Active then p
    else if now < p.lots[id].closing then Scheduled(p, id, at)
    else Cleared(p.(lots := p.lots[id := Sealed(p.lots[id], Best(Of(p.bids, id)))]), id)
  }

  // ---- other lots ----

  /** Nothing of lot x differs between p and q: its object, its bids, its highest bid and its timer. */
  predicate SameLot(p: Port, q: Port, x: LotId) {
    && (x in p.lots <==> x in q.lots) && (x in p.lots ==> p.lots[x] == q.lots[x])
    && Of(p.bids, x) == Of(q.bids, x)
    && (x in p.timers <==> x in q.timers) && (x in p.timers ==> p.timers[x] == q.timers[x])
  }

  lemma SchedulingSparesOthers(p: Port, id: LotId, x: LotId, at: int)
    requires x != id && id in p.lots
    ensures SameLot(p, Scheduled(p, id, at), x)
  {
  }

  lemma CreateSparesOthers(p: Port, id: LotId, start: real, step: real, closing: int, at: int, x: LotId)
    requires x != id
    ensures SameLot(p, Created(p, id, start, step, closing, at), x)
  {
    SchedulingSparesOthers(p.(lots := p.lots[id := NewLot(start, step, closing)]), id, x, at);
  }

  lemma BidSparesOthers(p: Port, id: LotId, user: UserId, amount: real, st: Stamp, at: int, x: LotId)
    requires x != id && id in p.lots
    ensures SameLot(p, BidPlaced(p, id, user, amount, st, at), x)
  {
    OfAppend(p.bids, BidRow(id, Bid(user, amount)), x);
    SchedulingSparesOthers(p.(lots := p.lots[id := Raised(RULES, p.lots[id], amount, st)],
                              bids := p.bids + [BidRow(id, Bid(user, amount))]), id, x, at);
  }

  lemma CloseSparesOthers(p: Port, id: LotId, now: int, at: int, x: LotId)
    requires x != id
    ensures SameLot(p, ClosedOrDeferred(p, id, now, at), x)
  {
  }

  // ---- one lot of the port is one auction ----

  /** An accepted bid does to the lot what the sequential rules say. */
  lemma BidFollowsRules(p: Port, id: LotId, user: UserId, amount: real, st: Stamp, at: int)
    requires id in p.lots
    ensures BidOn(RULES, AuctionOf(p, id), user, amount, st) ==
            match CheckBid(p, id, amount, st.check)
            case Some(e) => Failure(e)
            case None => Success(AuctionOf(BidPlaced(p, id, user, amount, st, at), id))
  {
    OfAppend(p.bids, BidRow(id, Bid(user, amount)), id);
  }

  lemma CloseFollowsRules(p: Port, id: LotId, now: int, at: int)
    requires id in p.lots
    ensures var a := AuctionOf(p, id);
            var q := ClosedOrDeferred(p, id, now, at);
            id in q.lots && AuctionOf(q, id) ==
              if a.lot.status == Active && now >= a.lot.closing then Auction(Sealed(a.lot, Best(a.bids)), a.bids) else a
  {
  }
}
