/** What holds in every state that any interleaving of calls can reach. */
module Safety {
  import opened Wrappers
  import opened Money
  import opened Auction
  import opened Protocol
  import opened Invariant
  import opened Steps

  predicate Run(d: Deployment, lot: Lot, actions: seq<Action>, s: State) {
    Fresh(Auction(lot, [])) && Reaches(d, Init(lot), actions, s)
  }

  lemma RunHasInv(d: Deployment, lot: Lot, actions: seq<Action>, s: State)
    requires Run(d, lot, actions, s)
    ensures Inv(d, Auction(lot, []), s)
  {
    InitKeeps(d, lot);
    RunKeeps(d, Auction(lot, []), Init(lot), actions, s);
  }

  /** The history of a run, without the rest of the invariant. */
  lemma RunHasHistory(d: Deployment, lot: Lot, actions: seq<Action>, s: State)
    requires Run(d, lot, actions, s)
    ensures Replay(d.rules, Auction(lot, []), s.log) == Some(Auction(s.row, s.bids))
    ensures AllOrdered(s.log)
  {
    RunHasInv(d, lot, actions, s);
  }

  // ---- every interleaving is a sequential run ----

  /** The call was served at a point of the sequential run between its start and its end, and got that answer. */
  predicate Served(d: Deployment, init: Auction, log: seq<Op>, c: CallId, call: Call)
    requires Replay(d.rules, init, log).Some?
  {
    match call
    case Placing(user, amount, attempt, began, Accepted(lot, late)) =>
      var i := Index(lot);
      && began <= i < |log| && log[i].BidOp? && log[i].call == c
      && BidOn(d.rules, At(d.rules, init, log, i), user, amount, log[i].stamp)
         == Success(At(d.rules, init, log, i + 1))
      && lot.(price := Stored(d.rules.column, amount)) == At(d.rules, init, log, i + 1).lot && lot.price == amount
      && late == (lot.extended > At(d.rules, init, log, i).lot.extended)
    case Placing(user, amount, attempt, began, Refused(e, snap, check)) =>
      (e == Exhausted && attempt == ATTEMPTS && !d.rowLock) || e == DbError
      || var i := snap.version - 1;
         && began <= i <= |log|
         && BidOn(d.rules, At(d.rules, init, log, i), user, amount, Stamp(check, check, check)) == Failure(e)
    case Closing(Finished(DidClose(lot))) =>
      var i := Index(lot);
      && 0 <= i < |log| && log[i].CloseOp? && log[i].call == c
      && lot == At(d.rules, init, log, i + 1).lot
    case _ => true
  }

  lemma AcceptedIsServed(d: Deployment, init: Auction, log: seq<Op>, c: CallId, call: Call)
    requires Replay(d.rules, init, log).Some? && call.Placing? && call.pc.Accepted?
    requires OwnBid(d, init, log, c, call, call.pc.lot, call.pc.late)
    ensures Served(d, init, log, c, call)
  {
    var i := Index(call.pc.lot);
    AtStep(d.rules, init, log, i);
    assert At(d.rules, init, log, i) == Replay(d.rules, init, log[..i]).value;
  }

  lemma CloserIsServed(d: Deployment, init: Auction, log: seq<Op>, c: CallId, call: Call)
    requires Replay(d.rules, init, log).Some?
    requires call.Closing? && call.closer.Finished? && call.closer.outcome.DidClose?
    requires OwnClose(d, init, log, c, call.closer.outcome.lot)
    ensures Served(d, init, log, c, call)
  {
    var i := Index(call.closer.outcome.lot);
    AtStep(d.rules, init, log, i);
    assert At(d.rules, init, log, i) == Replay(d.rules, init, log[..i]).value;
  }

  lemma CallIsServed(d: Deployment, init: Auction, s: State, c: CallId)
    requires Inv(d, init, s) && c in s.calls
    ensures Served(d, init, s.log, c, s.calls[c])
  {
    var call := s.calls[c];
    assert CallOk(d, init, s, c, call);
    if call.Placing? && call.pc.Accepted? {
      AcceptedIsServed(d, init, s.log, c, call);
    } else if call.Closing? && call.closer.Finished? && call.closer.outcome.DidClose? {
      CloserIsServed(d, init, s.log, c, call);
    }
  }

  /** Replaying the committed operations in version order, one at a time, gives the tables and every answer. */
  lemma Serializable(d: Deployment, lot: Lot, actions: seq<Action>, s: State)
    requires Run(d, lot, actions, s)
    ensures Replay(d.rules, Auction(lot, []), s.log) == Some(Auction(s.row, s.bids))
    ensures forall c :: c in s.calls ==> Served(d, Auction(lot, []), s.log, c, s.calls[c])
  {
    RunHasInv(d, lot, actions, s);
    forall c | c in s.calls ensures Served(d, Auction(lot, []), s.log, c, s.calls[c]) {
      CallIsServed(d, Auction(lot, []), s, c);
    }
  }

  // ---- the winner ----

  /** Although CloseLot reads lot and highest bid in two steps outside a transaction, the stored winner is right. */
  lemma WinnerIsRight(d: Deployment, lot: Lot, actions: seq<Action>, s: State)
    requires Run(d, lot, actions, s) && Sane(d.rules, Auction(lot, []))
    requires s.row.status == Closed
    ensures RightWinner(lot, Auction(s.row, s.bids))
  {
    RunHasHistory(d, lot, actions, s);
    ClosedHasRightWinner(d.rules, Auction(lot, []), s.log);
  }

  // ---- accounting ----

  lemma BooksBalance(d: Deployment, lot: Lot, actions: seq<Action>, s: State)
    requires Run(d, lot, actions, s) && Sane(d.rules, Auction(lot, []))
    ensures s.row.version == 1 + |s.bids| + (if s.row.status == Closed then 1 else 0)
    ensures s.row.price == PriceBefore(lot.start, s.bids, |s.bids|) >= Ladder(lot.start, lot.step, |s.bids|)
    ensures Spaced(lot.start, lot.step, s.bids)
    ensures s.row.extended <= |s.bids|
  {
    RunHasHistory(d, lot, actions, s);
    Accounting(d.rules, Auction(lot, []), s.log);
    Climbing(d.rules, Auction(lot, []), s.log);
  }

  // ---- closing is final ----

  lemma StepExtendsHistory(d: Deployment, s: State, a: Action)
    requires Enabled(d, s, a)
    ensures var log := Next(d, s, a).log;
            |s.log| <= |log| && log[..|s.log|] == s.log
  {
    assert Next(d, s, a).log == s.log || exists op :: Next(d, s, a).log == s.log + [op];
  }

  lemma {:induction false} HistoryGrows(d: Deployment, s: State, actions: seq<Action>, t: State)
    requires Reaches(d, s, actions, t)
    ensures |s.log| <= |t.log| && t.log[..|s.log|] == s.log
    decreases |actions|
  {
    if actions != [] {
      var n := Next(d, s, actions[0]);
      StepExtendsHistory(d, s, actions[0]);
      HistoryGrows(d, n, actions[1..], t);
      assert t.log[..|n.log|][..|s.log|] == t.log[..|s.log|];
    }
  }

  /** A history that goes on after one that closed the lot is that one. */
  lemma NothingFollowsAClose(cfg: Config, init: Auction, p: seq<Op>, q: seq<Op>)
    requires Fresh(init) && Replay(cfg, init, p).Some? && Replay(cfg, init, q).Some?
    requires Replay(cfg, init, p).value.lot.status == Closed
    requires |p| <= |q| && q[..|p|] == p
    ensures p == q
  {
    Accounting(cfg, init, p);
    OnlyTheLastCloses(cfg, init, p, |p| - 1);
    assert q[|p| - 1] == p[|p| - 1];
    OnlyTheLastCloses(cfg, init, q, |p| - 1);
  }

  /** Once the lot is closed no later step of any call touches the row or the bids. */
  lemma ClosingIsFinal(d: Deployment, init: Auction, s: State, actions: seq<Action>, t: State)
    requires Inv(d, init, s) && Reaches(d, s, actions, t) && s.row.status == Closed
    ensures t.row == s.row && t.bids == s.bids && t.log == s.log
  {
    HistoryGrows(d, s, actions, t);
    RunKeeps(d, init, s, actions, t);
    NothingFollowsAClose(d.rules, init, s.log, t.log);
  }

  lemma {:induction false} SentHas(events: seq<Event>, i: nat)
    requires i < |events|
    ensures events[i] in Sent(events, events[i].call)
  {
    if i < |events| - 1 {
      SentHas(events[..|events| - 1], i);
    }
  }

  lemma {:induction false} SentHasBoth(events: seq<Event>, i: nat, j: nat)
    requires i < j < |events| && events[i].call == events[j].call
    ensures |Sent(events, events[i].call)| >= 2
  {
    var front := events[..|events| - 1];
    if j < |events| - 1 {
      SentHasBoth(front, i, j);
    } else {
      SentHas(front, i);
    }
  }

  /** lot_closed is sent at most once, by the call that closed the lot, with the stored winner and price. */
  lemma ClosedIsAnnouncedOnce(d: Deployment, init: Auction, s: State, i: nat)
    requires Inv(d, init, s) && i < |s.events| && s.events[i].LotClosed?
    ensures s.row.status == Closed
    ensures s.events[i].winner == s.row.winner && s.events[i].price == s.row.price
    ensures forall j :: 0 <= j < |s.events| && s.events[j].LotClosed? ==> j == i
  {
    var c := s.events[i].call;
    ClosedEventIsTheCloser(d, init, s, i);
    forall j | 0 <= j < |s.events| && s.events[j].LotClosed? ensures j == i {
      ClosedEventIsTheCloser(d, init, s, j);
      if i < j {
        SentHasBoth(s.events, i, j);
      } else if j < i {
        SentHasBoth(s.events, j, i);
      }
    }
  }

  /** A lot_closed event is the only event of a call that has finished by closing the lot it names. */
  lemma ClosedEventIsSentByCloser(s: State, i: nat)
    requires EventsOk(s) && i < |s.events| && s.events[i].LotClosed?
    ensures var c := s.events[i].call;
            && |Sent(s.events, c)| == 1
            && c in s.calls && s.calls[c].Closing? && Product(s.calls[c]).Some?
            && s.events[i].winner == Product(s.calls[c]).value.winner
            && s.events[i].price == Product(s.calls[c]).value.price
  {
    var c := s.events[i].call;
    SentHas(s.events, i);
    assert Sent(s.events, c) == if c in s.calls then Announced(c, s.calls[c]) else [];
  }

  lemma ClosedEventIsTheCloser(d: Deployment, init: Auction, s: State, i: nat)
    requires Inv(d, init, s) && i < |s.events| && s.events[i].LotClosed?
    ensures |s.log| > 0 && s.events[i].call == s.log[|s.log| - 1].call
    ensures |Sent(s.events, s.events[i].call)| == 1
    ensures s.row.status == Closed
    ensures s.events[i].winner == s.row.winner && s.events[i].price == s.row.price
  {
    ClosedEventIsSentByCloser(s, i);
    ShutIsLast(d, init, s, s.events[i].call);
  }

  // ---- PlaceBid is all or nothing ----

  /** How many committed operations carry the name of c. */
  function Commits(log: seq<Op>, c: CallId): nat {
    if log == [] then 0
    else Commits(log[..|log| - 1], c) + if log[|log| - 1].call == c then 1 else 0
  }

  lemma {:induction false} NoCommits(log: seq<Op>, c: CallId)
    requires forall i :: 0 <= i < |log| ==> log[i].call != c
    ensures Commits(log, c) == 0
  {
    if log != [] {
      NoCommits(log[..|log| - 1], c);
    }
  }

  lemma {:induction false} OneCommit(log: seq<Op>, c: CallId, k: nat)
    requires k < |log| && log[k].call == c
    requires forall i :: 0 <= i < |log| && log[i].call == c ==> i == k
    ensures Commits(log, c) == 1
  {
    var front := log[..|log| - 1];
    if k == |log| - 1 {
      NoCommits(front, c);
    } else {
      OneCommit(front, c, k);
    }
  }

  /** The bid table has one row for each bid operation, in the order of commit. */
  lemma {:induction false} BidRows(cfg: Config, init: Auction, ops: seq<Op>, i: nat)
    requires Fresh(init) && Replay(cfg, init, ops).Some?
    requires i < |ops| && ops[i].BidOp?
    ensures var bids := Replay(cfg, init, ops).value.bids;
            i < |bids| && bids[i] == Bid(ops[i].user, Stored(cfg.column, ops[i].amount))
  {
    var front := ops[..|ops| - 1];
    Accounting(cfg, init, front);
    if i < |ops| - 1 {
      BidRows(cfg, init, front, i);
    }
  }

  /** Success is exactly one committed bid, which the answer and the events describe; an error is none and silence. */
  lemma AllOrNothing(d: Deployment, lot: Lot, actions: seq<Action>, s: State, c: CallId)
    requires Run(d, lot, actions, s) && c in s.calls && s.calls[c].Placing?
    ensures var call := s.calls[c];
            Commits(s.log, c) == (if Product(call).Some? then 1 else 0)
    ensures var call := s.calls[c];
            call.pc.Accepted? ==>
              var l := call.pc.lot;
              && 0 <= Index(l) < |s.bids|
              && s.bids[Index(l)] == Bid(call.user, Stored(d.rules.column, call.amount))
              && Sent(s.events, c) ==
                 [NewBid(c, call.user, call.amount)]
                 + if call.pc.late then [LotExtended(c, l.closing, l.extended)] else []
    ensures s.calls[c].pc.Refused? ==> Commits(s.log, c) == 0 && Sent(s.events, c) == []
  {
    var init := Auction(lot, []);
    RunHasInv(d, lot, actions, s);
    var call := s.calls[c];
    assert CallOk(d, init, s, c, call);
    assert Sent(s.events, c) == Announced(c, call);
    forall i | 0 <= i < |s.log| && s.log[i].call == c
      ensures Product(call).Some? && i == Index(Product(call).value)
    {
      assert Owned(s, i);
    }
    if Product(call).Some? {
      OneCommit(s.log, c, Index(Product(call).value));
      BidRows(d.rules, init, s.log, Index(Product(call).value));
    } else {
      NoCommits(s.log, c);
    }
  }

  // ---- every call ends ----

  /** An upper bound on the steps a call still takes, whatever the others do. */
  function Rank(call: Call): nat {
    match call
    case Placing(_, _, attempt, _, pc) =>
      var more := if attempt + 1 < ATTEMPTS then (ATTEMPTS - 1 - attempt) * 5 else 0;
      (match pc
       case Begin => more + 9
       case Fetched(_) => more + 8
       case Checked(_, _) => more + 7
       case Inserted(_, _) => more + 6
       case Decided(_, _, _) => more + 5
       case Written(_, _) => 4
       case Landed(_, _) => 3
       case Rearming(_) => 2
       case Rearmed(_) => 1
       case Accepted(_, _) => 0
       case Refused(_, _, _) => 0)
    case Closing(pc) =>
      (match pc
       case Spawned => 5
       case Loaded(_, _) => 4
       case Due(_, _) => 3
       case Topped(_, _, _) => 2
       case Shut(_) => 1
       case Deferred(_) => 1
       case Finished(_) => 0)
    case Creating(pc) => if pc.Counting? then 2 else if pc.Arming? then 1 else 0
  }

  lemma StepsRankDown(d: Deployment, s: State, a: Action, c: CallId)
    requires Enabled(d, s, a) && c in s.calls
    ensures c in Next(d, s, a).calls
    ensures Rank(Next(d, s, a).calls[c]) <= Rank(s.calls[c]) - (if a.call == c then 1 else 0)
  {
    if a.Advance? && a.call == c && s.calls[c].Placing? {
      BidRankDown(d, s, c, s.calls[c], a.now);
    }
  }

  lemma BidRankDown(d: Deployment, s: State, c: CallId, call: Call, now: int)
    requires call.Placing? && BidReady(d, s, c, call.pc, now)
    ensures Rank(BidStep(d, s, c, call, now).calls[c]) < Rank(call)
  {
    match call.pc
    case Begin =>
    case Fetched(_) =>
    case Checked(_, _) =>
    case Inserted(_, _) =>
    case Decided(_, _, _) =>
    case Written(_, _) =>
    case Landed(_, _) =>
    case Rearming(_) =>
    case Rearmed(_) =>
  }

  function StepsOf(actions: seq<Action>, c: CallId): nat {
    if actions == [] then 0
    else (if actions[0].call == c then 1 else 0) + StepsOf(actions[1..], c)
  }

  lemma {:induction false} CallsAreBounded(d: Deployment, s: State, actions: seq<Action>, t: State, c: CallId)
    requires Reaches(d, s, actions, t)
    ensures StepsOf(actions, c) <= if c in s.calls then Rank(s.calls[c]) else 20
    decreases |actions|
  {
    if actions != [] {
      var a := actions[0];
      var n := Next(d, s, a);
      if c in s.calls {
        StepsRankDown(d, s, a, c);
      }
      CallsAreBounded(d, n, actions[1..], t, c);
    }
  }

  /** Nobody waits for ever: an unfinished call can step, or the transaction it waits for can. */
  lemma NoDeadlock(d: Deployment, init: Auction, s: State, c: CallId)
    requires Inv(d, init, s) && c in s.calls && Rank(s.calls[c]) > 0
    ensures exists a :: Enabled(d, s, a) && a.Advance? && (a.call == c || s.owner == Some(a.call))
  {
    if s.owner.Some? && s.owner.value != c {
      OwnerSteps(d, init, s, s.owner.value);
    } else {
      assert CallOk(d, init, s, c, s.calls[c]);
      CanStep(d, s, c);
    }
  }

  lemma OwnerSteps(d: Deployment, init: Auction, s: State, o: CallId)
    requires Inv(d, init, s) && s.owner == Some(o)
    ensures exists a :: Enabled(d, s, a) && a.Advance? && a.call == o
  {
    assert CallOk(d, init, s, o, s.calls[o]);
    CanStep(d, s, o);
  }

  function PickHighest(bids: seq<Bid>): (top: Option<Bid>)
    ensures IsHighest(top, bids)
  {
    if bids == [] then None
    else
      var rest := PickHighest(bids[..|bids| - 1]);
      var last := bids[|bids| - 1];
      assert forall x :: x in bids ==> x in bids[..|bids| - 1] || x == last;
      if rest.Some? && rest.value.amount >= last.amount then rest else Some(last)
  }

  lemma CanStep(d: Deployment, s: State, c: CallId)
    requires c in s.calls && Rank(s.calls[c]) > 0
    requires s.owner == None || (s.owner == Some(c) && s.calls[c].Placing? && !s.calls[c].pc.Begin?)
    ensures exists a :: Enabled(d, s, a) && a.Advance? && a.call == c
  {
    var now :=
      match s.calls[c]
      case Placing(_, _, _, _, Inserted(_, check)) => check
      case Placing(_, _, _, _, Decided(_, _, until)) => until
      case Closing(Loaded(_, at)) => at
      case _ => 0;
    assert Enabled(d, s, Advance(c, now, PickHighest(s.bids)));
  }

  // ---- the row lock ----

  /** With SELECT FOR UPDATE a bid transaction never loses the race: its update finds the version it read. */
  lemma LockedBidsNeverConflict(d: Deployment, lot: Lot, actions: seq<Action>, s: State, c: CallId)
    requires Run(d, lot, actions, s) && d.rowLock && c in s.calls && s.calls[c].Placing?
    ensures s.calls[c].attempt == 0
    ensures s.calls[c].pc.Decided? ==> s.row == s.calls[c].pc.snap && s.owner == Some(c)
    ensures s.calls[c].pc.Refused? ==> s.calls[c].pc.error != Exhausted
  {
    RunHasInv(d, lot, actions, s);
    assert CallOk(d, Auction(lot, []), s, c, s.calls[c]);
  }

  // ---- the closing time ----

  /** From any state on, closing_at only moves forward. */
  lemma ClosingTimeMovesForward(d: Deployment, init: Auction, s: State, actions: seq<Action>, t: State)
    requires Inv(d, init, s) && Reaches(d, s, actions, t) && Covers(d.rules)
    ensures s.row.closing <= t.row.closing
  {
    HistoryGrows(d, s, actions, t);
    RunKeeps(d, init, s, actions, t);
    ClosingNeverDecreases(d.rules, init, t.log, |s.log|, |t.log|);
    assert t.log[..|t.log|] == t.log;
  }

  /** The same of a history that has closed its lot. */
  lemma ClosedAWindowAfter(cfg: Config, init: Auction, ops: seq<Op>, i: nat)
    requires Fresh(init) && AllOrdered(ops) && Replay(cfg, init, ops).Some?
    requires cfg.extension >= cfg.window > 0 && i < |ops| && ops[i].BidOp?
    requires Replay(cfg, init, ops).value.lot.status == Closed
    ensures var last := ops[|ops| - 1];
            last.CloseOp? && last.now >= ops[i].stamp.until + cfg.window
  {
    OnlyTheLastCloses(cfg, init, ops, |ops| - 1);
    ClosesAWindowAfterEveryBid(cfg, init, ops, i, |ops| - 1);
  }

  /** No sniping: the reading on which a lot was closed is a full window after that of every accepted bid. */
  lemma NoSniping(d: Deployment, lot: Lot, actions: seq<Action>, s: State, i: nat)
    requires Run(d, lot, actions, s) && d.rules.extension >= d.rules.window > 0
    requires i < |s.log| && s.log[i].BidOp?
    ensures s.row.closing >= s.log[i].stamp.until + d.rules.window
    ensures s.row.status == Closed ==>
              var last := s.log[|s.log| - 1];
              last.CloseOp? && last.now >= s.log[i].stamp.until + d.rules.window
  {
    RunHasHistory(d, lot, actions, s);
    assert s.log[..|s.log|] == s.log;
    ClosesAWindowAfterEveryBid(d.rules, Auction(lot, []), s.log, i, |s.log|);
    if s.row.status == Closed {
      ClosedAWindowAfter(d.rules, Auction(lot, []), s.log, i);
    }
  }

  lemma MoreExtensionsAreLonger(k: nat, n: nat, extension: int)
    requires k <= n && extension >= 0
    ensures k * extension <= n * extension
  {
  }

  /**
   Last-second bidding cannot go on for ever: the column has room for n bids only, and each adds one
   extension at most.
   */
  lemma AuctionsEnd(d: Deployment, lot: Lot, actions: seq<Action>, s: State)
    requires Run(d, lot, actions, s) && Sane(d.rules, Auction(lot, [])) && d.rules.extension >= 0
    requires d.rules.column.Decimal? && lot.start <= d.rules.column.max
    ensures s.row.closing <= lot.closing + |s.bids| * d.rules.extension + Lateness(s.log)
    ensures Ladder(lot.start, lot.step, |s.bids|) <= d.rules.column.max
  {
    var init, n := Auction(lot, []), |s.bids|;
    RunHasHistory(d, lot, actions, s);
    LengthIsBounded(d.rules, init, s.log);
    BidsAreBounded(d.rules, init, s.log);
    MoreExtensionsAreLonger(s.row.extended, n, d.rules.extension);
  }

  // ---- metrics ----

  predicate Idle(s: State) {
    forall c :: c in s.calls ==> Rank(s.calls[c]) == 0
  }

  lemma RunHasMetrics(d: Deployment, lot: Lot, actions: seq<Action>, s: State)
    requires Run(d, lot, actions, s)
    ensures MetricsOk(s)
  {
    RunHasInv(d, lot, actions, s);
  }

  /** With no call in flight the gauge counts the active lot and the counter the closed one. */
  lemma MetricsSettle(d: Deployment, lot: Lot, actions: seq<Action>, s: State)
    requires Run(d, lot, actions, s) && Idle(s)
    ensures s.gauge == (if s.row.status == Active then 1 else 0)
    ensures s.closures == (if s.row.status == Active then 0 else 1)
  {
    RunHasMetrics(d, lot, actions, s);
    assert Rank(s.calls[CREATOR]) == 0;
    if |s.log| > 0 && s.log[|s.log| - 1].call in s.calls {
      assert Rank(s.calls[s.log[|s.log| - 1].call]) == 0;
    }
  }
}
