/** Runs that strand a lot, one for each limit the wake-up theorem asks for, and so its exact conditions. */
module Stranding {
  import opened Wrappers
  import opened Money
  import opened Auction
  import opened Protocol
  import opened Safety
  import opened Timers
  import opened Wakeup

  lemma {:induction false} PlayConcat(d: Deployment, l: Limits, w: World, p: seq<Move>, v: World, q: seq<Move>,
                                      x: World)
    requires Plays(d, l, w, p, v) && Plays(d, l, v, q, x)
    ensures Plays(d, l, w, p + q, x)
    decreases |p|
  {
    if p == [] {
      assert p + q == q;
    } else {
      PlayConcat(d, l, Moved(d, w, p[0]), p[1..], v, q, x);
      assert (p + q)[1..] == p[1..] + q;
    }
  }

  /** One more move, whose result is known. */
  lemma Then(d: Deployment, l: Limits, w: World, moves: seq<Move>, v: World, m: Move, x: World)
    returns (more: seq<Move>)
    requires Plays(d, l, w, moves, v) && Possible(d, v, m) && Prompt(l, v, m) && Moved(d, v, m) == x
    ensures Plays(d, l, w, more, x)
  {
    PlayOn(d, l, w, moves, v, m);
    more := moves + [m];
  }

  const BIDDER: CallId := 1
  const CLOSER: CallId := 2
  const RIVAL: CallId := 3

  /** A world with one lot counted and nothing else committed. */
  function Scene(lot: Lot, calls: map<CallId, Call>, timers: map<CallId, int>,
                 registered: Option<CallId>, arming: set<CallId>, clock: int): World {
    World(State(lot, [], None, calls, [], [], 1, 0), timers, registered, arming, clock, {})
  }

  /** CreateLot at time 0 has counted the lot and created its timer, but not registered it. */
  function Halfway(lot: Lot): World {
    Scene(lot, map[CREATOR := Creating(Arming(lot))], map[CREATOR := lot.closing], None, {CREATOR}, 0)
  }

  function Armed(lot: Lot): World {
    Scene(lot, map[CREATOR := Creating(Created)], map[CREATOR := lot.closing], Some(CREATOR), {}, 0)
  }

  lemma CreateHalfway(d: Deployment, l: Limits, lot: Lot) returns (moves: seq<Move>)
    requires lot.closing > 0
    ensures Plays(d, l, Start(lot, 0), moves, Halfway(lot))
  {
    var w := Start(lot, 0);
    var v := Scene(lot, map[CREATOR := Creating(Arming(lot))], map[], None, {}, 0);
    assert Moved(d, w, Go(CREATOR, 0, None)).s.calls == v.s.calls;
    assert Plays(d, l, w, [], w);
    moves := Then(d, l, w, [], w, Go(CREATOR, 0, None), v);
    assert Moved(d, v, SetTimer(CREATOR, 0)).timers == Halfway(lot).timers;
    moves := Then(d, l, w, moves, v, SetTimer(CREATOR, 0), Halfway(lot));
  }

  lemma CreateAndArm(d: Deployment, l: Limits, lot: Lot) returns (moves: seq<Move>)
    requires lot.closing > 0
    ensures Plays(d, l, Start(lot, 0), moves, Armed(lot))
  {
    moves := CreateHalfway(d, l, lot);
    assert Moved(d, Halfway(lot), Register(CREATOR)).s.calls == Armed(lot).s.calls;
    assert Moved(d, Halfway(lot), Register(CREATOR)).arming == {};
    moves := Then(d, l, Start(lot, 0), moves, Halfway(lot), Register(CREATOR), Armed(lot));
  }

  // ---- a bid that meets no obstacle ----

  /** Call c can run a bid at time t. */
  predicate Open(w: World, c: CallId, lot: Lot, t: int) {
    w.s.owner == None && c !in w.s.calls && c !in w.gone && w.s.row == lot && w.clock <= t
  }

  /** The world base with a bid in it, so far, every reading of which is t. */
  function Bidding(d: Deployment, base: World, c: CallId, user: UserId, amount: real, pc: BidPc, t: int): World {
    var owner := if !pc.Begin? && (d.rowLock || pc.Written?) then Some(c) else None;
    base.(s := base.s.(owner := owner, calls := base.s.calls[c := Placing(user, amount, 0, |base.s.log|, pc)]),
          clock := if pc.Begin? then base.clock else t)
  }

  function Smooth(lot: Lot, pc: BidPc, t: int): BidPc {
    match pc
    case Begin => Fetched(lot)
    case Fetched(_) => Checked(lot, t)
    case Checked(_, _) => Inserted(lot, t)
    case Inserted(_, _) => Decided(lot, t, t)
    case _ => Written(lot, Stamp(t, t, t))
  }

  predicate Early(lot: Lot, pc: BidPc, t: int) {
    pc == Begin || pc == Fetched(lot) || pc == Checked(lot, t) || pc == Inserted(lot, t) || pc == Decided(lot, t, t)
  }

  lemma SmoothMove(d: Deployment, l: Limits, base: World, c: CallId, lot: Lot, user: UserId, amount: real, pc: BidPc,
                   t: int)
    requires Open(base, c, lot, t) && Early(lot, pc, t)
    requires Validate(lot, amount, t) == None && Fits(d.rules.column, amount)
    ensures var v, m := Bidding(d, base, c, user, amount, pc, t), Go(c, t, None);
            && Possible(d, v, m) && Prompt(l, v, m)
            && Moved(d, v, m) == Bidding(d, base, c, user, amount, Smooth(lot, pc, t), t)
  {
    var v, m := Bidding(d, base, c, user, amount, pc, t), Go(c, t, None);
    assert v.s.calls[c] == Placing(user, amount, 0, |base.s.log|, pc);
    assert Moved(d, v, m).s.calls == Bidding(d, base, c, user, amount, Smooth(lot, pc, t), t).s.calls;
  }

  /** A bid enters and, all at time t, gets as far as updating the row in its transaction. */
  lemma BidUntilWritten(d: Deployment, l: Limits, base: World, c: CallId, lot: Lot, user: UserId, amount: real, t: int)
    returns (moves: seq<Move>)
    requires Open(base, c, lot, t)
    requires Validate(lot, amount, t) == None && Fits(d.rules.column, amount)
    ensures Plays(d, l, base, moves, Bidding(d, base, c, user, amount, Written(lot, Stamp(t, t, t)), t))
  {
    var pc := Begin;
    var v := Bidding(d, base, c, user, amount, pc, t);
    assert Plays(d, l, base, [], base);
    moves := Then(d, l, base, [], base, Enter(c, user, amount), v);
    var k := 0;
    while k < 5
      invariant 0 <= k <= 5
      invariant v == Bidding(d, base, c, user, amount, pc, t) && Plays(d, l, base, moves, v)
      invariant k < 5 ==> pc == [Begin, Fetched(lot), Checked(lot, t), Inserted(lot, t), Decided(lot, t, t)][k]
      invariant k == 5 ==> pc == Written(lot, Stamp(t, t, t))
    {
      SmoothMove(d, l, base, c, lot, user, amount, pc, t);
      pc := Smooth(lot, pc, t);
      moves := Then(d, l, base, moves, v, Go(c, t, None), Bidding(d, base, c, user, amount, pc, t));
      v := Bidding(d, base, c, user, amount, pc, t);
      k := k + 1;
    }
  }

  // ---- how every such run ends ----

  /**
   The last guard is a closer.  It will read the row at time at, when bid b is about to commit without
   extending, and check its clock at time now, when the lot is due.
   */
  predicate Endgame(d: Deployment, l: Limits, v: World, b: CallId, at: int, now: int) {
    && v.timers == map[] && v.arming == {} && v.gone == {} && v.s.row.status == Active
    && b != CLOSER && b in v.s.calls && v.s.calls[b].Placing? && v.s.calls[b].pc.Written?
    && v.s.calls[b].pc.snap == v.s.row && v.s.owner == Some(b)
    && !Snipes(d.rules, v.s.row, v.s.calls[b].pc.stamp.until)
    && CLOSER in v.s.calls && v.s.calls[CLOSER] == Closing(Spawned)
    && (forall c :: c in v.s.calls && c != b && c != CLOSER ==> Rank(v.s.calls[c]) == 0)
    && v.clock <= at <= v.s.calls[b].pc.stamp.until + l.tx
    && at <= now <= at + l.read && v.s.row.closing <= now
  }

  /** The same after the closer has read the row. */
  function Seen(v: World, at: int): World {
    v.(s := v.s.(calls := v.s.calls[CLOSER := Closing(Loaded(v.s.row, at))]), clock := at)
  }

  /** The same after the commit. */
  function Ended(d: Deployment, v: World, b: CallId, answered: bool, closer: ClosePc, clock: int): World
    requires b in v.s.calls && v.s.calls[b].Placing? && v.s.calls[b].pc.Written?
  {
    var call := v.s.calls[b];
    var lot := Raised(d.rules, call.pc.snap, call.amount, call.pc.stamp);
    var pc := if answered then Accepted(lot, false) else Landed(lot, false);
    v.(s := v.s.(row := Persisted(d.rules, lot), owner := None,
                 bids := v.s.bids + [Bid(call.user, Stored(d.rules.column, call.amount))],
                 log := v.s.log + [BidOp(b, call.user, call.amount, call.pc.stamp)],
                 events := if answered then v.s.events + [NewBid(b, call.user, call.amount)] else v.s.events,
                 calls := v.s.calls[b := call.(pc := pc)][CLOSER := Closing(closer)]),
       clock := clock)
  }

  lemma CloserReads(d: Deployment, l: Limits, v: World, b: CallId, at: int, now: int) returns (moves: seq<Move>)
    requires Endgame(d, l, v, b, at, now)
    ensures Plays(d, l, v, moves, Seen(v, at))
  {
    assert Moved(d, v, Go(CLOSER, at, None)) == Seen(v, at);
    assert Plays(d, l, v, [], v);
    moves := Then(d, l, v, [], v, Go(CLOSER, at, None), Seen(v, at));
  }

  /** The bid commits, in time for the limit. */
  lemma BidLands(d: Deployment, l: Limits, v: World, b: CallId, at: int, now: int)
    requires Endgame(d, l, v, b, at, now)
    ensures var w, m := Seen(v, at), Go(b, at, None);
            Possible(d, w, m) && Prompt(l, w, m)
            && Moved(d, w, m) == Ended(d, v, b, false, Loaded(v.s.row, at), at)
  {
    var w, m := Seen(v, at), Go(b, at, None);
    assert w.s.calls[b] == v.s.calls[b];
    assert Moved(d, w, m).s.calls == Ended(d, v, b, false, Loaded(v.s.row, at), at).s.calls;
  }

  /** Then it is answered. */
  lemma BidAnswers(d: Deployment, l: Limits, v: World, b: CallId, at: int, now: int)
    requires Endgame(d, l, v, b, at, now)
    ensures var w, m := Ended(d, v, b, false, Loaded(v.s.row, at), at), Go(b, at, None);
            Possible(d, w, m) && Prompt(l, w, m)
            && Moved(d, w, m) == Ended(d, v, b, true, Loaded(v.s.row, at), at)
  {
    var w, m := Ended(d, v, b, false, Loaded(v.s.row, at), at), Go(b, at, None);
    assert Moved(d, w, m).s.calls == Ended(d, v, b, true, Loaded(v.s.row, at), at).s.calls;
  }

  lemma BidCommits(d: Deployment, l: Limits, v: World, b: CallId, at: int, now: int) returns (moves: seq<Move>)
    requires Endgame(d, l, v, b, at, now)
    ensures Plays(d, l, Seen(v, at), moves, Ended(d, v, b, true, Loaded(v.s.row, at), at))
  {
    var v0, m := Seen(v, at), Go(b, at, None);
    var v1, v2 := Ended(d, v, b, false, Loaded(v.s.row, at), at), Ended(d, v, b, true, Loaded(v.s.row, at), at);
    assert Plays(d, l, v0, [], v0);
    BidLands(d, l, v, b, at, now);
    moves := Then(d, l, v0, [], v0, m, v1);
    BidAnswers(d, l, v, b, at, now);
    moves := Then(d, l, v0, moves, v1, m, v2);
  }

  lemma CloserStep(d: Deployment, v: World, b: CallId, closer: ClosePc, clock: int,
                   now: int, top: Option<Bid>, next: ClosePc)
    requires b != CLOSER && b in v.s.calls && v.s.calls[b].Placing? && v.s.calls[b].pc.Written?
    requires var w, m := Ended(d, v, b, true, closer, clock), Go(CLOSER, now, top);
             && Possible(d, w, m) && !closer.Shut?
             && CloseStep(w.s, CLOSER, closer, now, top) == Put(w.s, CLOSER, Closing(next))
    ensures var w, m := Ended(d, v, b, true, closer, clock), Go(CLOSER, now, top);
            Moved(d, w, m) == Ended(d, v, b, true, next, now)
  {
    var w := Ended(d, v, b, true, closer, clock);
    assert w.s.calls[CLOSER := Closing(next)] == Ended(d, v, b, true, next, now).s.calls;
  }

  /** The closer finds the lot due and reads the highest bid. */
  lemma CloserReadsTop(d: Deployment, l: Limits, v: World, b: CallId, at: int, now: int)
    returns (moves: seq<Move>, top: Option<Bid>)
    requires Endgame(d, l, v, b, at, now)
    ensures Plays(d, l, Ended(d, v, b, true, Loaded(v.s.row, at), at), moves,
                  Ended(d, v, b, true, Topped(v.s.row, now, top), now))
  {
    var row := v.s.row;
    var v0, v1 := Ended(d, v, b, true, Loaded(row, at), at), Ended(d, v, b, true, Due(row, now), now);
    assert Plays(d, l, v0, [], v0);
    CloserStep(d, v, b, Loaded(row, at), at, now, None, Due(row, now));
    moves := Then(d, l, v0, [], v0, Go(CLOSER, now, None), v1);
    top := PickHighest(v1.s.bids);
    CloserStep(d, v, b, Due(row, now), now, now, top, Topped(row, now, top));
    moves := Then(d, l, v0, moves, v1, Go(CLOSER, now, top), Ended(d, v, b, true, Topped(row, now, top), now));
  }

  /** Then it finds the version gone. */
  lemma CloserLoses(d: Deployment, l: Limits, v: World, b: CallId, at: int, now: int) returns (moves: seq<Move>)
    requires Endgame(d, l, v, b, at, now)
    ensures Plays(d, l, Ended(d, v, b, true, Loaded(v.s.row, at), at), moves,
                  Ended(d, v, b, true, Finished(LostRace), now + 1))
  {
    var row := v.s.row;
    var loses, top := CloserReadsTop(d, l, v, b, at, now);
    CloserStep(d, v, b, Topped(row, now, top), now, now + 1, None, Finished(LostRace));
    moves := Then(d, l, Ended(d, v, b, true, Loaded(row, at), at), loses,
                  Ended(d, v, b, true, Topped(row, now, top), now),
                  Go(CLOSER, now + 1, None), Ended(d, v, b, true, Finished(LostRace), now + 1));
  }

  lemma EndIsStranded(d: Deployment, l: Limits, v: World, b: CallId, at: int, now: int)
    requires Endgame(d, l, v, b, at, now)
    ensures var w := Ended(d, v, b, true, Finished(LostRace), now + 1);
            Stranded(w) && Dead(w.s.row, w)
  {
    var w := Ended(d, v, b, true, Finished(LostRace), now + 1);
    assert w.s.row.closing == v.s.row.closing;
    forall c | c in w.s.calls ensures Rank(w.s.calls[c]) == 0 {
      if c != b && c != CLOSER {
        assert w.s.calls[c] == v.s.calls[c];
      }
    }
  }

  lemma EndgamePlays(d: Deployment, l: Limits, v: World, b: CallId, at: int, now: int) returns (moves: seq<Move>)
    requires Endgame(d, l, v, b, at, now)
    ensures Plays(d, l, v, moves, Ended(d, v, b, true, Finished(LostRace), now + 1))
  {
    var loads := CloserReads(d, l, v, b, at, now);
    var commits := BidCommits(d, l, v, b, at, now);
    var loses := CloserLoses(d, l, v, b, at, now);
    var v2, w := Ended(d, v, b, true, Loaded(v.s.row, at), at), Ended(d, v, b, true, Finished(LostRace), now + 1);
    PlayConcat(d, l, v, loads, Seen(v, at), commits, v2);
    PlayConcat(d, l, v, loads + commits, v2, loses, w);
    moves := loads + commits + loses;
  }

  lemma EndgameStrands(d: Deployment, l: Limits, v: World, b: CallId, at: int, now: int)
    returns (moves: seq<Move>, w: World)
    requires Endgame(d, l, v, b, at, now)
    ensures Plays(d, l, v, moves, w) && Stranded(w) && Dead(w.s.row, w)
  {
    moves := EndgamePlays(d, l, v, b, at, now);
    w := Ended(d, v, b, true, Finished(LostRace), now + 1);
    EndIsStranded(d, l, v, b, at, now);
  }

  // ---- a slow transaction ----

  predicate SlowCase(d: Deployment, l: Limits, lot: Lot, amount: real) {
    && Fresh(Auction(lot, [])) && d.rules.window > 0 && lot.closing == d.rules.window + 1
    && l.tx > d.rules.window
    && Validate(lot, amount, 0) == None && Fits(d.rules.column, amount)
  }

  /** The timer goes off at closing time, the bid not having committed yet. */
  lemma SlowRace(d: Deployment, l: Limits, lot: Lot, user: UserId, amount: real) returns (moves: seq<Move>, w: World)
    requires SlowCase(d, l, lot, amount)
    ensures Plays(d, l, Start(lot, 0), moves, w) && Endgame(d, l, w, BIDDER, lot.closing, lot.closing)
  {
    var creates := CreateAndArm(d, l, lot);
    var bids := BidUntilWritten(d, l, Armed(lot), BIDDER, lot, user, amount, 0);
    var v := Bidding(d, Armed(lot), BIDDER, user, amount, Written(lot, Stamp(0, 0, 0)), 0);
    PlayConcat(d, l, Start(lot, 0), creates, Armed(lot), bids, v);
    w := Moved(d, v, Fire(CREATOR, lot.closing, CLOSER));
    assert w.timers == map[];
    moves := Then(d, l, Start(lot, 0), creates + bids, v, Fire(CREATOR, lot.closing, CLOSER), w);
  }

  /**
   A bid transaction longer than the window strands the lot: it commits without extending, after the
   closer has read the row, and nobody takes the closer's conflict up.
   */
  lemma SlowTransactionStrands(d: Deployment, l: Limits, lot: Lot, user: UserId, amount: real)
    returns (moves: seq<Move>, w: World)
    requires SlowCase(d, l, lot, amount)
    ensures Plays(d, l, Start(lot, 0), moves, w) && Stranded(w) && Dead(w.s.row, w)
  {
    var race, v := SlowRace(d, l, lot, user, amount);
    var ends, x := EndgameStrands(d, l, v, BIDDER, lot.closing, lot.closing);
    PlayConcat(d, l, Start(lot, 0), race, v, ends, x);
    moves, w := race + ends, x;
  }

  // ---- a late bid, before the creator has registered its timer ----

  /** The lot closes at 1, and a bid at that time extends it. */
  predicate LateCase(d: Deployment, lot: Lot, amount: real) {
    && Fresh(Auction(lot, [])) && lot.closing == 1
    && d.rules.extension >= d.rules.window > 0
    && Validate(lot, amount, 1) == None && Fits(d.rules.column, amount)
  }

  /** The lot after its bid at time 1. */
  function Late(d: Deployment, lot: Lot, amount: real): Lot {
    Raised(d.rules, lot, amount, Stamp(1, 1, 1))
  }

  /** The scene after that bid has committed and said so; what differs between its moments is listed. */
  function LateScene(d: Deployment, lot: Lot, user: UserId, amount: real,
                     creator: CreatePc, bid: BidPc, closer: Option<ClosePc>, more: seq<Event>,
                     timers: map<CallId, int>, registered: Option<CallId>, arming: set<CallId>, clock: int): World {
    var calls := map[CREATOR := Creating(creator), BIDDER := Placing(user, amount, 0, 0, bid)];
    World(State(Persisted(d.rules, Late(d, lot, amount)), [Bid(user, Stored(d.rules.column, amount))], None,
                if closer.Some? then calls[CLOSER := Closing(closer.value)] else calls,
                [BidOp(BIDDER, user, amount, Stamp(1, 1, 1))], [NewBid(BIDDER, user, amount)] + more, 1, 0),
          timers, registered, arming, clock, {})
  }

  /** The late bid has committed. */
  function Landing(d: Deployment, lot: Lot, user: UserId, amount: real): World {
    var u := LateScene(d, lot, user, amount, Arming(lot), Landed(Late(d, lot, amount), true), None, [],
                       map[CREATOR := 1], None, {CREATOR}, 1);
    u.(s := u.s.(events := []))
  }

  lemma LateBidLands(d: Deployment, l: Limits, lot: Lot, user: UserId, amount: real)
    requires LateCase(d, lot, amount)
    ensures var v := Bidding(d, Halfway(lot), BIDDER, user, amount, Written(lot, Stamp(1, 1, 1)), 1);
            var m := Go(BIDDER, 1, None);
            Possible(d, v, m) && Prompt(l, v, m) && Moved(d, v, m) == Landing(d, lot, user, amount)
  {
    var v, m := Bidding(d, Halfway(lot), BIDDER, user, amount, Written(lot, Stamp(1, 1, 1)), 1), Go(BIDDER, 1, None);
    assert v.s.calls[BIDDER] == Placing(user, amount, 0, 0, Written(lot, Stamp(1, 1, 1)));
    assert Moved(d, v, m).s.calls == Landing(d, lot, user, amount).s.calls;
  }

  /** Having announced itself, it is about to arm a timer, or half way through that. */
  function Rearms(d: Deployment, lot: Lot, user: UserId, amount: real, half: bool): World {
    var late := Late(d, lot, amount);
    if half
    then LateScene(d, lot, user, amount, Arming(lot), Rearming(late), None, [],
                   map[CREATOR := 1, BIDDER := late.closing], None, {CREATOR, BIDDER}, 1)
    else LateScene(d, lot, user, amount, Arming(lot), Rearming(late), None, [], map[CREATOR := 1], None, {CREATOR}, 1)
  }

  lemma LateBidTells(d: Deployment, l: Limits, lot: Lot, user: UserId, amount: real)
    requires LateCase(d, lot, amount)
    ensures var v, m := Landing(d, lot, user, amount), Go(BIDDER, 1, None);
            Possible(d, v, m) && Prompt(l, v, m) && Moved(d, v, m) == Rearms(d, lot, user, amount, false)
  {
    var v, x := Landing(d, lot, user, amount), Rearms(d, lot, user, amount, false);
    assert Moved(d, v, Go(BIDDER, 1, None)).s.calls == x.s.calls;
  }

  /** The bid has registered its timer, the creator has not. */
  function Overlap(d: Deployment, lot: Lot, user: UserId, amount: real): World {
    var late := Late(d, lot, amount);
    LateScene(d, lot, user, amount, Arming(lot), Rearmed(late), None, [],
              map[CREATOR := 1, BIDDER := late.closing], Some(BIDDER), {CREATOR}, 1)
  }

  lemma LateBidSets(d: Deployment, l: Limits, lot: Lot, user: UserId, amount: real)
    requires LateCase(d, lot, amount)
    ensures var v, m := Rearms(d, lot, user, amount, false), SetTimer(BIDDER, 1);
            Possible(d, v, m) && Prompt(l, v, m) && Moved(d, v, m) == Rearms(d, lot, user, amount, true)
  {
    var v, x := Rearms(d, lot, user, amount, false), Rearms(d, lot, user, amount, true);
    assert Moved(d, v, SetTimer(BIDDER, 1)).timers == x.timers;
    assert Moved(d, v, SetTimer(BIDDER, 1)).arming == x.arming;
  }

  lemma LateBidRegisters(d: Deployment, l: Limits, lot: Lot, user: UserId, amount: real)
    requires LateCase(d, lot, amount)
    ensures var v, m := Rearms(d, lot, user, amount, true), Register(BIDDER);
            Possible(d, v, m) && Prompt(l, v, m) && Moved(d, v, m) == Overlap(d, lot, user, amount)
  {
    var v, x := Rearms(d, lot, user, amount, true), Overlap(d, lot, user, amount);
    assert Moved(d, v, Register(BIDDER)).s.calls == x.s.calls;
    assert Moved(d, v, Register(BIDDER)).arming == x.arming;
  }

  lemma LateBidOverlaps(d: Deployment, l: Limits, lot: Lot, user: UserId, amount: real) returns (moves: seq<Move>)
    requires LateCase(d, lot, amount)
    ensures Plays(d, l, Start(lot, 0), moves, Overlap(d, lot, user, amount))
  {
    var creates := CreateHalfway(d, l, lot);
    var bids := BidUntilWritten(d, l, Halfway(lot), BIDDER, lot, user, amount, 1);
    var v1 := Bidding(d, Halfway(lot), BIDDER, user, amount, Written(lot, Stamp(1, 1, 1)), 1);
    PlayConcat(d, l, Start(lot, 0), creates, Halfway(lot), bids, v1);
    var v2, v3 := Landing(d, lot, user, amount), Rearms(d, lot, user, amount, false);
    var v4, v5 := Rearms(d, lot, user, amount, true), Overlap(d, lot, user, amount);
    LateBidLands(d, l, lot, user, amount);
    moves := Then(d, l, Start(lot, 0), creates + bids, v1, Go(BIDDER, 1, None), v2);
    LateBidTells(d, l, lot, user, amount);
    moves := Then(d, l, Start(lot, 0), moves, v2, Go(BIDDER, 1, None), v3);
    LateBidSets(d, l, lot, user, amount);
    moves := Then(d, l, Start(lot, 0), moves, v3, SetTimer(BIDDER, 1), v4);
    LateBidRegisters(d, l, lot, user, amount);
    moves := Then(d, l, Start(lot, 0), moves, v4, Register(BIDDER), v5);
  }

  // ---- a closer that reads slowly ----

  /** The extension is longer than the window, and a second bid, not late, is still to come. */
  predicate SlowReadCase(d: Deployment, l: Limits, lot: Lot, amount: real, more: real) {
    && LateCase(d, lot, amount) && l.tx <= d.rules.window < d.rules.extension && l.tx + l.read > d.rules.window
    && Validate(Persisted(d.rules, Late(d, lot, amount)), more, d.rules.extension - d.rules.window) == None
    && Fits(d.rules.column, more)
  }

  /** The creator registers its timer, stopping the bid's, and it goes off: its closer is the last guard. */
  function LastGuard(d: Deployment, lot: Lot, user: UserId, amount: real): World {
    var late := Late(d, lot, amount);
    LateScene(d, lot, user, amount, Created, Accepted(late, true), Some(Spawned),
              [LotExtended(BIDDER, late.closing, late.extended)], map[], Some(CREATOR), {}, 1)
  }

  /** The creator has registered its timer. */
  function Replaced(d: Deployment, lot: Lot, user: UserId, amount: real): World {
    LateScene(d, lot, user, amount, Created, Rearmed(Late(d, lot, amount)), None, [], map[CREATOR := 1],
              Some(CREATOR), {}, 1)
  }

  lemma CreatorReplaces(d: Deployment, l: Limits, lot: Lot, user: UserId, amount: real) returns (moves: seq<Move>)
    requires LateCase(d, lot, amount)
    ensures Plays(d, l, Overlap(d, lot, user, amount), moves, Replaced(d, lot, user, amount))
  {
    var v0, v1, m := Overlap(d, lot, user, amount), Replaced(d, lot, user, amount), Register(CREATOR);
    assert Moved(d, v0, m).s.calls == v1.s.calls;
    assert Moved(d, v0, m).timers == v1.timers;
    assert Moved(d, v0, m).arming == {};
    assert Plays(d, l, v0, [], v0);
    moves := Then(d, l, v0, [], v0, m, v1);
  }

  lemma OnlyTheCloserIsLeft(d: Deployment, l: Limits, lot: Lot, user: UserId, amount: real) returns (moves: seq<Move>)
    requires LateCase(d, lot, amount)
    ensures Plays(d, l, Replaced(d, lot, user, amount), moves, LastGuard(d, lot, user, amount))
  {
    var v1, v3 := Replaced(d, lot, user, amount), LastGuard(d, lot, user, amount);
    var v2 := LateScene(d, lot, user, amount, Created, Rearmed(Late(d, lot, amount)), Some(Spawned), [], map[],
                        Some(CREATOR), {}, 1);
    assert Moved(d, v1, Fire(CREATOR, 1, CLOSER)).timers == map[];
    assert Plays(d, l, v1, [], v1);
    moves := Then(d, l, v1, [], v1, Fire(CREATOR, 1, CLOSER), v2);
    assert Moved(d, v2, Go(BIDDER, 1, None)).s.calls == v3.s.calls;
    moves := Then(d, l, v1, moves, v2, Go(BIDDER, 1, None), v3);
  }

  lemma CloserAlone(d: Deployment, l: Limits, lot: Lot, user: UserId, amount: real) returns (moves: seq<Move>)
    requires LateCase(d, lot, amount)
    ensures Plays(d, l, Start(lot, 0), moves, LastGuard(d, lot, user, amount))
  {
    var overlap := LateBidOverlaps(d, l, lot, user, amount);
    var swaps := CreatorReplaces(d, l, lot, user, amount);
    var left := OnlyTheCloserIsLeft(d, l, lot, user, amount);
    PlayConcat(d, l, Start(lot, 0), overlap, Overlap(d, lot, user, amount), swaps, Replaced(d, lot, user, amount));
    PlayConcat(d, l, Start(lot, 0), overlap + swaps, Replaced(d, lot, user, amount), left,
               LastGuard(d, lot, user, amount));
    moves := overlap + swaps + left;
  }

  /** The second bid, with the closer waiting. */
  function Rivalry(d: Deployment, lot: Lot, user: UserId, amount: real, rival: UserId, more: real): World {
    var base, u := LastGuard(d, lot, user, amount), d.rules.extension - d.rules.window;
    Bidding(d, base, RIVAL, rival, more, Written(base.s.row, Stamp(u, u, u)), u)
  }

  lemma RivalryIsEndgame(d: Deployment, l: Limits, lot: Lot, user: UserId, amount: real, rival: UserId, more: real)
    requires SlowReadCase(d, l, lot, amount, more)
    ensures var v := Rivalry(d, lot, user, amount, rival, more);
            Endgame(d, l, v, RIVAL, d.rules.extension - d.rules.window + l.tx, v.s.row.closing)
  {
    var v := Rivalry(d, lot, user, amount, rival, more);
    assert v.s.row.closing == 1 + d.rules.extension;
  }

  /**
   With an extension longer than the window, a closer whose read and clock check are far apart strands
   the lot: it comes early, reads the row, and finds it due only after a bid that extends nothing.
   */
  lemma SlowReadStrands(d: Deployment, l: Limits, lot: Lot, user: UserId, amount: real, rival: UserId, more: real)
    returns (moves: seq<Move>, w: World)
    requires SlowReadCase(d, l, lot, amount, more)
    ensures Plays(d, l, Start(lot, 0), moves, w) && Stranded(w) && Dead(w.s.row, w)
  {
    var alone := CloserAlone(d, l, lot, user, amount);
    var base, v := LastGuard(d, lot, user, amount), Rivalry(d, lot, user, amount, rival, more);
    var u := d.rules.extension - d.rules.window;
    var bids := BidUntilWritten(d, l, base, RIVAL, base.s.row, rival, more, u);
    PlayConcat(d, l, Start(lot, 0), alone, base, bids, v);
    RivalryIsEndgame(d, l, lot, user, amount, rival, more);
    var ends, x := EndgameStrands(d, l, v, RIVAL, u + l.tx, v.s.row.closing);
    PlayConcat(d, l, Start(lot, 0), alone + bids, v, ends, x);
    moves, w := alone + bids + ends, x;
  }

  // ---- a slow registration ----

  /** The creator's timer fires before it is registered. */
  function EarlyScene(d: Deployment, lot: Lot, user: UserId, amount: real, closer: ClosePc): World {
    var late := Late(d, lot, amount);
    LateScene(d, lot, user, amount, Arming(lot), Rearmed(late), Some(closer), [],
              map[BIDDER := late.closing], Some(BIDDER), {CREATOR}, 1)
  }

  lemma EarlyFire(d: Deployment, l: Limits, lot: Lot, user: UserId, amount: real) returns (moves: seq<Move>)
    requires LateCase(d, lot, amount) && !l.registers
    ensures Plays(d, l, Overlap(d, lot, user, amount), moves, EarlyScene(d, lot, user, amount, Spawned))
  {
    var v0, v1 := Overlap(d, lot, user, amount), EarlyScene(d, lot, user, amount, Spawned);
    assert Moved(d, v0, Fire(CREATOR, 1, CLOSER)).timers == v1.timers;
    assert Plays(d, l, v0, [], v0);
    moves := Then(d, l, v0, [], v0, Fire(CREATOR, 1, CLOSER), v1);
  }

  /** Its closer reads the row and finds the lot not due. */
  lemma EarlyCloserDefers(d: Deployment, l: Limits, lot: Lot, user: UserId, amount: real) returns (moves: seq<Move>)
    requires LateCase(d, lot, amount)
    ensures Plays(d, l, EarlyScene(d, lot, user, amount, Spawned), moves,
                  EarlyScene(d, lot, user, amount, Deferred(Persisted(d.rules, Late(d, lot, amount)))))
  {
    var row := Persisted(d.rules, Late(d, lot, amount));
    var v1, v2 := EarlyScene(d, lot, user, amount, Spawned), EarlyScene(d, lot, user, amount, Loaded(row, 1));
    assert Moved(d, v1, Go(CLOSER, 1, None)).s.calls == v2.s.calls;
    assert Plays(d, l, v1, [], v1);
    moves := Then(d, l, v1, [], v1, Go(CLOSER, 1, None), v2);
    var v3 := EarlyScene(d, lot, user, amount, Deferred(row));
    assert Moved(d, v2, Go(CLOSER, 1, None)).s.calls == v3.s.calls;
    moves := Then(d, l, v1, moves, v2, Go(CLOSER, 1, None), v3);
  }

  /** The closer is half way through arming again. */
  function HalfRearmed(d: Deployment, lot: Lot, user: UserId, amount: real): World {
    var late := Late(d, lot, amount);
    LateScene(d, lot, user, amount, Arming(lot), Rearmed(late), Some(Deferred(Persisted(d.rules, late))), [],
              map[BIDDER := late.closing, CLOSER := late.closing], Some(BIDDER), {CREATOR, CLOSER}, 1)
  }

  /** It has armed again, stopping the bid's timer. */
  function ClosersTurn(d: Deployment, lot: Lot, user: UserId, amount: real): World {
    var late := Late(d, lot, amount);
    LateScene(d, lot, user, amount, Arming(lot), Rearmed(late), Some(Finished(NotDue)), [],
              map[CLOSER := late.closing], Some(CLOSER), {CREATOR}, 1)
  }

  lemma CloserSets(d: Deployment, l: Limits, lot: Lot, user: UserId, amount: real)
    requires LateCase(d, lot, amount)
    ensures var v := EarlyScene(d, lot, user, amount, Deferred(Persisted(d.rules, Late(d, lot, amount))));
            var m := SetTimer(CLOSER, 1);
            Possible(d, v, m) && Prompt(l, v, m) && Moved(d, v, m) == HalfRearmed(d, lot, user, amount)
  {
    var v := EarlyScene(d, lot, user, amount, Deferred(Persisted(d.rules, Late(d, lot, amount))));
    var x := HalfRearmed(d, lot, user, amount);
    assert Moved(d, v, SetTimer(CLOSER, 1)).timers == x.timers;
    assert Moved(d, v, SetTimer(CLOSER, 1)).arming == x.arming;
  }

  lemma CloserRegisters(d: Deployment, l: Limits, lot: Lot, user: UserId, amount: real)
    requires LateCase(d, lot, amount)
    ensures var v, m := HalfRearmed(d, lot, user, amount), Register(CLOSER);
            Possible(d, v, m) && Prompt(l, v, m) && Moved(d, v, m) == ClosersTurn(d, lot, user, amount)
  {
    var v, x := HalfRearmed(d, lot, user, amount), ClosersTurn(d, lot, user, amount);
    assert Moved(d, v, Register(CLOSER)).s.calls == x.s.calls;
    assert Moved(d, v, Register(CLOSER)).arming == x.arming;
    assert Moved(d, v, Register(CLOSER)).timers == x.timers;
  }

  lemma CloserRearms(d: Deployment, l: Limits, lot: Lot, user: UserId, amount: real) returns (moves: seq<Move>)
    requires LateCase(d, lot, amount)
    ensures Plays(d, l, EarlyScene(d, lot, user, amount, Deferred(Persisted(d.rules, Late(d, lot, amount)))), moves,
                  ClosersTurn(d, lot, user, amount))
  {
    var v0 := EarlyScene(d, lot, user, amount, Deferred(Persisted(d.rules, Late(d, lot, amount))));
    var v1, v2 := HalfRearmed(d, lot, user, amount), ClosersTurn(d, lot, user, amount);
    assert Plays(d, l, v0, [], v0);
    CloserSets(d, l, lot, user, amount);
    moves := Then(d, l, v0, [], v0, SetTimer(CLOSER, 1), v1);
    CloserRegisters(d, l, lot, user, amount);
    moves := Then(d, l, v0, moves, v1, Register(CLOSER), v2);
  }

  /** What is left when the bid has got its answer. */
  function Aftermath(d: Deployment, lot: Lot, user: UserId, amount: real): World {
    var late := Late(d, lot, amount);
    LateScene(d, lot, user, amount, Created, Accepted(late, true), Some(Finished(NotDue)),
              [LotExtended(BIDDER, late.closing, late.extended)], map[], Some(CREATOR), {}, late.closing + 1)
  }

  lemma AftermathIsStranded(d: Deployment, lot: Lot, user: UserId, amount: real)
    requires lot.status == Active
    ensures Stranded(Aftermath(d, lot, user, amount))
    ensures Dead(Aftermath(d, lot, user, amount).s.row, Aftermath(d, lot, user, amount))
  {
  }

  function Stopped(d: Deployment, lot: Lot, user: UserId, amount: real): World {
    LateScene(d, lot, user, amount, Created, Rearmed(Late(d, lot, amount)), Some(Finished(NotDue)), [], map[],
              Some(CREATOR), {}, 1)
  }

  /** Last the creator registers its own timer, which is gone, and stops the only one left. */
  lemma CreatorStopsTheRest(d: Deployment, l: Limits, lot: Lot, user: UserId, amount: real) returns (moves: seq<Move>)
    requires LateCase(d, lot, amount)
    ensures Plays(d, l, ClosersTurn(d, lot, user, amount), moves, Stopped(d, lot, user, amount))
  {
    var v0 := ClosersTurn(d, lot, user, amount);
    var v1 := Stopped(d, lot, user, amount);
    assert Moved(d, v0, Register(CREATOR)).s.calls == v1.s.calls;
    assert Moved(d, v0, Register(CREATOR)).arming == {};
    assert Moved(d, v0, Register(CREATOR)).timers == map[];
    assert Plays(d, l, v0, [], v0);
    moves := Then(d, l, v0, [], v0, Register(CREATOR), v1);
  }

  lemma LateBidIsAnswered(d: Deployment, l: Limits, lot: Lot, user: UserId, amount: real) returns (moves: seq<Move>)
    requires LateCase(d, lot, amount)
    ensures Plays(d, l, Stopped(d, lot, user, amount), moves, Aftermath(d, lot, user, amount))
  {
    var v, w := Stopped(d, lot, user, amount), Aftermath(d, lot, user, amount);
    var m := Go(BIDDER, Late(d, lot, amount).closing + 1, None);
    assert v.s.calls[BIDDER].pc == Rearmed(Late(d, lot, amount));
    assert Moved(d, v, m).s.calls == w.s.calls;
    assert Plays(d, l, v, [], v);
    moves := Then(d, l, v, [], v, m, w);
  }

  /** A timer that fires between its creation and its registration can strand the lot, with no delay anywhere else. */
  lemma SlowRegistrationStrands(d: Deployment, l: Limits, lot: Lot, user: UserId, amount: real)
    returns (moves: seq<Move>, w: World)
    requires LateCase(d, lot, amount) && !l.registers
    ensures Plays(d, l, Start(lot, 0), moves, w) && Stranded(w) && Dead(w.s.row, w)
  {
    var late := Late(d, lot, amount);
    var overlap := LateBidOverlaps(d, l, lot, user, amount);
    var fires := EarlyFire(d, l, lot, user, amount);
    var fired := EarlyScene(d, lot, user, amount, Spawned);
    PlayConcat(d, l, Start(lot, 0), overlap, Overlap(d, lot, user, amount), fires, fired);
    var defers := EarlyCloserDefers(d, l, lot, user, amount);
    var v1 := EarlyScene(d, lot, user, amount, Deferred(Persisted(d.rules, late)));
    PlayConcat(d, l, Start(lot, 0), overlap + fires, fired, defers, v1);
    var rearms := CloserRearms(d, l, lot, user, amount);
    var v2 := ClosersTurn(d, lot, user, amount);
    PlayConcat(d, l, Start(lot, 0), overlap + fires + defers, v1, rearms, v2);
    var stops := CreatorStopsTheRest(d, l, lot, user, amount);
    PlayConcat(d, l, Start(lot, 0), overlap + fires + defers + rearms, v2, stops, Stopped(d, lot, user, amount));
    var answer := LateBidIsAnswered(d, l, lot, user, amount);
    w := Aftermath(d, lot, user, amount);
    PlayConcat(d, l, Start(lot, 0), overlap + fires + defers + rearms + stops, Stopped(d, lot, user, amount),
               answer, w);
    moves := overlap + fires + defers + rearms + stops + answer;
    AftermathIsStranded(d, lot, user, amount);
  }

  // ---- a late restart ----

  /** A process that comes back after the lot was due does not take it up. */
  lemma LateRestartStrands(d: Deployment, l: Limits, lot: Lot) returns (moves: seq<Move>, w: World)
    requires Fresh(Auction(lot, [])) && lot.closing > 0 && !l.reboots
    ensures Plays(d, l, Start(lot, 0), moves, w) && Stranded(w) && Dead(w.s.row, w)
  {
    var v, m := Armed(lot), Reboot(lot.closing + 1, CLOSER, true);
    moves := CreateAndArm(d, l, lot);
    w := Moved(d, v, m);
    moves := Then(d, l, Start(lot, 0), moves, v, m, w);
  }

  // ---- a query that fails at start-up ----

  /** The process has crashed at once and is back, without its timer. */
  function Forgotten(lot: Lot): World {
    Scene(lot, map[CREATOR := Creating(Created)], map[], None, {}, 0).(gone := {CREATOR})
  }

  lemma LoadFails(d: Deployment, l: Limits, lot: Lot)
    requires lot.closing > 0 && !l.loads
    ensures var v, m := Armed(lot), Reboot(0, CLOSER, false);
            Possible(d, v, m) && Prompt(l, v, m) && Moved(d, v, m) == Forgotten(lot)
  {
    var v := Moved(d, Armed(lot), Reboot(0, CLOSER, false));
    assert v.s.calls == Forgotten(lot).s.calls;
    assert v.gone == {CREATOR};
  }

  /** A bid that comes when the lot is due. */
  function LateCall(d: Deployment, lot: Lot, user: UserId, amount: real, pc: BidPc): World {
    Bidding(d, Forgotten(lot), BIDDER, user, amount, pc, lot.closing + 1)
  }

  lemma LateCallReads(d: Deployment, l: Limits, lot: Lot, user: UserId, amount: real)
    requires lot.closing > 0
    ensures var v, m := LateCall(d, lot, user, amount, Begin), Go(BIDDER, lot.closing + 1, None);
            Possible(d, v, m) && Prompt(l, v, m) && Moved(d, v, m) == LateCall(d, lot, user, amount, Fetched(lot))
  {
    var v, m := LateCall(d, lot, user, amount, Begin), Go(BIDDER, lot.closing + 1, None);
    assert v.s.calls[BIDDER] == Placing(user, amount, 0, 0, Begin);
    assert Moved(d, v, m).s.calls == LateCall(d, lot, user, amount, Fetched(lot)).s.calls;
  }

  lemma LateCallIsRefused(d: Deployment, l: Limits, lot: Lot, user: UserId, amount: real) returns (w: World)
    requires lot.status == Active && lot.closing > 0
    ensures var v, m := LateCall(d, lot, user, amount, Fetched(lot)), Go(BIDDER, lot.closing + 1, None);
            Possible(d, v, m) && Prompt(l, v, m) && Moved(d, v, m) == w
    ensures Stranded(w) && Dead(w.s.row, w)
  {
    var v, m := LateCall(d, lot, user, amount, Fetched(lot)), Go(BIDDER, lot.closing + 1, None);
    assert v.s.calls[BIDDER] == Placing(user, amount, 0, 0, Fetched(lot));
    w := Moved(d, v, m);
  }

  /** A query that fails at start-up is only logged: nobody closes the lot, and late bids are refused. */
  lemma FailedLoadStrands(d: Deployment, l: Limits, lot: Lot, user: UserId, amount: real)
    returns (moves: seq<Move>, w: World)
    requires Fresh(Auction(lot, [])) && lot.closing > 0 && !l.loads
    ensures Plays(d, l, Start(lot, 0), moves, w) && Stranded(w) && Dead(w.s.row, w)
  {
    var begun, read := LateCall(d, lot, user, amount, Begin), LateCall(d, lot, user, amount, Fetched(lot));
    var m := Go(BIDDER, lot.closing + 1, None);
    moves := CreateAndArm(d, l, lot);
    LoadFails(d, l, lot);
    moves := Then(d, l, Start(lot, 0), moves, Armed(lot), Reboot(0, CLOSER, false), Forgotten(lot));
    moves := Then(d, l, Start(lot, 0), moves, Forgotten(lot), Enter(BIDDER, user, amount), begun);
    LateCallReads(d, l, lot, user, amount);
    moves := Then(d, l, Start(lot, 0), moves, begun, m, read);
    w := LateCallIsRefused(d, l, lot, user, amount);
    moves := Then(d, l, Start(lot, 0), moves, read, m, w);
  }

  // ---- an error of the database ----

  /** The timer has gone off, late, and its closer is there. */
  function GoneOff(lot: Lot, pc: ClosePc): World {
    Scene(lot, map[CREATOR := Creating(Created), CLOSER := Closing(pc)], map[], Some(CREATOR), {}, lot.closing + 1)
  }

  lemma GoesOffLate(d: Deployment, l: Limits, lot: Lot)
    requires lot.closing > 0
    ensures var v, m := Armed(lot), Fire(CREATOR, lot.closing + 1, CLOSER);
            Possible(d, v, m) && Prompt(l, v, m) && Moved(d, v, m) == GoneOff(lot, Spawned)
  {
    var v, m := Armed(lot), Fire(CREATOR, lot.closing + 1, CLOSER);
    assert Moved(d, v, m).timers == map[];
    assert Moved(d, v, m).s.calls == GoneOff(lot, Spawned).s.calls;
  }

  lemma CloserBreaks(d: Deployment, l: Limits, lot: Lot)
    requires !l.steady
    ensures var v, m := GoneOff(lot, Spawned), Drop(CLOSER);
            Possible(d, v, m) && Prompt(l, v, m) && Moved(d, v, m) == GoneOff(lot, Finished(Broken))
  {
    var v, m := GoneOff(lot, Spawned), Drop(CLOSER);
    assert Moved(d, v, m).s.calls == GoneOff(lot, Finished(Broken)).s.calls;
  }

  /** A closer that meets an error only logs it. */
  lemma FailedCloserStrands(d: Deployment, l: Limits, lot: Lot) returns (moves: seq<Move>, w: World)
    requires Fresh(Auction(lot, [])) && lot.closing > 0 && !l.steady
    ensures Plays(d, l, Start(lot, 0), moves, w) && Stranded(w) && Dead(w.s.row, w)
  {
    var v := GoneOff(lot, Spawned);
    moves := CreateAndArm(d, l, lot);
    GoesOffLate(d, l, lot);
    moves := Then(d, l, Start(lot, 0), moves, Armed(lot), Fire(CREATOR, lot.closing + 1, CLOSER), v);
    CloserBreaks(d, l, lot);
    w := GoneOff(lot, Finished(Broken));
    moves := Then(d, l, Start(lot, 0), moves, v, Drop(CLOSER), w);
  }

  // ---- exactly when ----

  /** In no run, prompt within the limits, is an active lot left without a guard. */
  ghost predicate AlwaysGuarded(d: Deployment, l: Limits) {
    forall lot, clock, moves, w ::
      Fresh(Auction(lot, [])) && Plays(d, l, Start(lot, clock), moves, w) && w.s.row.status == Active
      ==> Guarded(l, w)
  }

  lemma StrandedIsUnguarded(l: Limits, w: World)
    requires Stranded(w)
    ensures !Guarded(l, w)
  {
    forall c | c in w.s.calls ensures !Watches(l, w.s.row, w.s.calls[c]) {
      assert Rank(w.s.calls[c]) == 0;
    }
  }

  /** The run that tells, when one of the limits is not kept. */
  lemma SomeRunStrands(d: Deployment, l: Limits) returns (lot: Lot, moves: seq<Move>, w: World)
    requires d.rules.extension >= d.rules.window > 0 && !Timely(d, l)
    requires Sound(d.rules.column) && Fits(d.rules.column, 2.0) && Fits(d.rules.column, 3.0)
    ensures Fresh(Auction(lot, [])) && Plays(d, l, Start(lot, 0), moves, w) && Stranded(w)
  {
    lot := Lot(1.0, 1.0, 1.0, Active, 1, 1, None, 0);
    if !l.steady {
      moves, w := FailedCloserStrands(d, l, lot);
    } else if !l.reboots {
      moves, w := LateRestartStrands(d, l, lot);
    } else if !l.loads {
      moves, w := FailedLoadStrands(d, l, lot, "bidder", 2.0);
    } else if !l.registers {
      moves, w := SlowRegistrationStrands(d, l, lot, "bidder", 2.0);
    } else if l.tx > d.rules.window {
      lot := lot.(closing := d.rules.window + 1);
      moves, w := SlowTransactionStrands(d, l, lot, "bidder", 2.0);
    } else {
      assert Stored(d.rules.column, 2.0) == 2.0;
      moves, w := SlowReadStrands(d, l, lot, "bidder", 2.0, "rival", 3.0);
    }
  }

  /**
   With an extension that covers the window, lots are never stranded exactly when timers are registered
   before they fire, the database does not fail for closers, the process is back from every crash before a
   lot is due and its query for active lots then succeeds, no bid transaction lasts longer than the window and,
   only if the extension is longer than the window, no bid transaction and closer's read do together.
   */
  lemma WakeUpsExactlyWhen(d: Deployment, l: Limits)
    requires d.rules.extension >= d.rules.window > 0
    requires Sound(d.rules.column) && Fits(d.rules.column, 2.0) && Fits(d.rules.column, 3.0)
    ensures AlwaysGuarded(d, l) <==>
            && l.registers && l.steady && l.reboots && l.loads && l.tx <= d.rules.window
            && (d.rules.extension > d.rules.window ==> l.tx + l.read <= d.rules.window)
  {
    if Timely(d, l) {
      forall lot, clock, moves, w |
        Fresh(Auction(lot, [])) && Plays(d, l, Start(lot, clock), moves, w) && w.s.row.status == Active
        ensures Guarded(l, w)
      {
        NeverStranded(d, l, lot, clock, moves, w);
      }
    } else {
      var lot, moves, w := SomeRunStrands(d, l);
      StrandedIsUnguarded(l, w);
    }
  }
}
