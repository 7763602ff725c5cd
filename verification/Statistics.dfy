/** The user statistics add up: nothing bid, won or spent is lost or counted twice. */
module Statistics {
  import opened Wrappers
  import opened Auction
  import opened Tables
  import opened Protocol
  import opened Safety

  // ---- rows grouped by user ----

  datatype Entry = Entry(user: UserId, weight: real)

  /** SELECT SUM(weight) ... WHERE user = u. */
  function Tally(es: seq<Entry>, u: UserId): real {
    if es == [] then 0.0
    else
      var e := es[|es| - 1];
      Tally(es[..|es| - 1], u) + if e.user == u then e.weight else 0.0
  }

  function TallyAll(es: seq<Entry>, users: seq<UserId>): real {
    if users == [] then 0.0
    else TallyAll(es, users[..|users| - 1]) + Tally(es, users[|users| - 1])
  }

  function Weight(es: seq<Entry>): real {
    if es == [] then 0.0 else Weight(es[..|es| - 1]) + es[|es| - 1].weight
  }

  /** The users table lists nobody twice. */
  predicate Distinct<T(==)>(xs: seq<T>) {
    forall i, j :: 0 <= i < j < |xs| ==> xs[i] != xs[j]
  }

  lemma {:induction false} TallyAllAppend(es: seq<Entry>, e: Entry, users: seq<UserId>)
    requires Distinct(users)
    ensures TallyAll(es + [e], users) == TallyAll(es, users) + if e.user in users then e.weight else 0.0
  {
    if users != [] {
      var front, u := users[..|users| - 1], users[|users| - 1];
      TallyAllAppend(es, e, front);
      assert (es + [e])[..|es|] == es;
      assert users == front + [u];
      assert u !in front;
    }
  }

  lemma {:induction false} NobodyTalliesNothing(users: seq<UserId>)
    ensures TallyAll([], users) == 0.0
  {
    if users != [] {
      NobodyTalliesNothing(users[..|users| - 1]);
    }
  }

  lemma {:induction false} TallyIsConserved(es: seq<Entry>, users: seq<UserId>)
    requires Distinct(users) && forall i :: 0 <= i < |es| ==> es[i].user in users
    ensures TallyAll(es, users) == Weight(es)
  {
    if es == [] {
      NobodyTalliesNothing(users);
    } else {
      var front, e := es[..|es| - 1], es[|es| - 1];
      TallyIsConserved(front, users);
      TallyAllAppend(front, e, users);
      assert front + [e] == es;
    }
  }

  // ---- the three subqueries of GetUserStats ----

  function BidEntries(bids: seq<BidRow>): seq<Entry> {
    if bids == [] then []
    else BidEntries(bids[..|bids| - 1]) + [Entry(bids[|bids| - 1].bid.user, 1.0)]
  }

  /** One entry for each lot with a winner, of weight 1 or of its price; ids lists the lots in some order. */
  function WinEntries(db: Database, ids: seq<LotId>, priced: bool): seq<Entry>
    requires forall i :: 0 <= i < |ids| ==> ids[i] in db.lots
  {
    if ids == [] then []
    else
      var lot := db.lots[ids[|ids| - 1]];
      WinEntries(db, ids[..|ids| - 1], priced)
      + if lot.winner.Some? then [Entry(lot.winner.value, if priced then lot.price else 1.0)] else []
  }

  datatype UserStats = UserStats(bids: real, wins: real, spent: real)

  function GetUserStats(db: Database, ids: seq<LotId>, u: UserId): UserStats
    requires forall i :: 0 <= i < |ids| ==> ids[i] in db.lots
  {
    UserStats(Tally(BidEntries(db.bids), u), Tally(WinEntries(db, ids, false), u), Tally(WinEntries(db, ids, true), u))
  }

  // ---- what one user's statistics count ----

  lemma TallyAppend(es: seq<Entry>, e: Entry, u: UserId)
    ensures Tally(es + [e], u) == Tally(es, u) + if e.user == u then e.weight else 0.0
  {
    assert (es + [e])[..|es|] == es;
  }

  function OwnRows(bids: seq<BidRow>, u: UserId): set<nat> {
    set i: nat | i < |bids| && bids[i].bid.user == u
  }

  lemma OneMoreRow(bids: seq<BidRow>, u: UserId)
    requires bids != []
    ensures var n, front := |bids| - 1, bids[..|bids| - 1];
            && n !in OwnRows(front, u)
            && OwnRows(bids, u) == OwnRows(front, u) + if bids[n].bid.user == u then {n} else {}
  {
  }

  lemma {:induction false} BidsAreOwnRows(bids: seq<BidRow>, u: UserId)
    ensures Tally(BidEntries(bids), u) == |OwnRows(bids, u)| as real
  {
    if bids != [] {
      var n, front := |bids| - 1, bids[..|bids| - 1];
      BidsAreOwnRows(front, u);
      TallyAppend(BidEntries(front), Entry(bids[n].bid.user, 1.0), u);
      OneMoreRow(bids, u);
    }
  }

  /** won lists, once each, those of ids that u has won. */
  ghost predicate Wins(db: Database, ids: seq<LotId>, u: UserId, won: seq<LotId>)
    requires forall i :: 0 <= i < |ids| ==> ids[i] in db.lots
  {
    && Distinct(won) && (forall i :: 0 <= i < |won| ==> won[i] in db.lots)
    && forall id :: id in won <==> id in ids && db.lots[id].winner == Some(u)
  }

  /** The sum of the prices of these lots. */
  function Paid(db: Database, won: seq<LotId>): real
    requires forall i :: 0 <= i < |won| ==> won[i] in db.lots
  {
    if won == [] then 0.0 else Paid(db, won[..|won| - 1]) + db.lots[won[|won| - 1]].price
  }

  lemma PaidAppend(db: Database, won: seq<LotId>, id: LotId)
    requires id in db.lots && forall i :: 0 <= i < |won| ==> won[i] in db.lots
    ensures Paid(db, won + [id]) == Paid(db, won) + db.lots[id].price
  {
    assert (won + [id])[..|won|] == won;
  }

  lemma LastTally(db: Database, ids: seq<LotId>, priced: bool, u: UserId)
    requires ids != [] && forall i :: 0 <= i < |ids| ==> ids[i] in db.lots
    ensures var lot := db.lots[ids[|ids| - 1]];
            Tally(WinEntries(db, ids, priced), u) == Tally(WinEntries(db, ids[..|ids| - 1], priced), u)
              + if lot.winner == Some(u) then (if priced then lot.price else 1.0) else 0.0
  {
    var front, lot := WinEntries(db, ids[..|ids| - 1], priced), db.lots[ids[|ids| - 1]];
    if lot.winner.Some? {
      TallyAppend(front, Entry(lot.winner.value, if priced then lot.price else 1.0), u);
    } else {
      assert front + [] == front;
    }
  }

  lemma WinOneMore(db: Database, ids: seq<LotId>, u: UserId, won: seq<LotId>)
    requires ids != [] && Distinct(ids) && forall i :: 0 <= i < |ids| ==> ids[i] in db.lots
    requires Wins(db, ids[..|ids| - 1], u, won)
    ensures var id := ids[|ids| - 1];
            Wins(db, ids, u, if db.lots[id].winner == Some(u) then won + [id] else won)
  {
    var front, id := ids[..|ids| - 1], ids[|ids| - 1];
    assert ids == front + [id] && id !in front;
  }

  function Won(db: Database, ids: seq<LotId>, u: UserId): seq<LotId>
    requires forall i :: 0 <= i < |ids| ==> ids[i] in db.lots
  {
    if ids == [] then []
    else
      var id := ids[|ids| - 1];
      Won(db, ids[..|ids| - 1], u) + if db.lots[id].winner == Some(u) then [id] else []
  }

  lemma {:induction false} WonAreWins(db: Database, ids: seq<LotId>, u: UserId)
    requires Distinct(ids) && forall i :: 0 <= i < |ids| ==> ids[i] in db.lots
    ensures Wins(db, ids, u, Won(db, ids, u))
  {
    if ids != [] {
      var front := Won(db, ids[..|ids| - 1], u);
      WonAreWins(db, ids[..|ids| - 1], u);
      WinOneMore(db, ids, u, front);
      assert front + [] == front;
    }
  }

  lemma {:induction false} WinsAreCounted(db: Database, ids: seq<LotId>, u: UserId)
    requires forall i :: 0 <= i < |ids| ==> ids[i] in db.lots
    ensures Tally(WinEntries(db, ids, false), u) == |Won(db, ids, u)| as real
  {
    if ids != [] {
      WinsAreCounted(db, ids[..|ids| - 1], u);
      LastTally(db, ids, false, u);
    }
  }

  lemma {:induction false} WinsArePaid(db: Database, ids: seq<LotId>, u: UserId)
    requires forall i :: 0 <= i < |ids| ==> ids[i] in db.lots
    ensures forall i :: 0 <= i < |Won(db, ids, u)| ==> Won(db, ids, u)[i] in db.lots
    ensures Tally(WinEntries(db, ids, true), u) == Paid(db, Won(db, ids, u))
  {
    if ids != [] {
      var front, id := Won(db, ids[..|ids| - 1], u), ids[|ids| - 1];
      WinsArePaid(db, ids[..|ids| - 1], u);
      LastTally(db, ids, true, u);
      if db.lots[id].winner == Some(u) {
        PaidAppend(db, front, id);
      } else {
        assert Won(db, ids, u) == front;
      }
    }
  }

  /**
   The three numbers of one user: the rows of the bid table that are this user's, the lots this user has won,
   and the sum of their prices.
   */
  lemma StatisticsOfUser(db: Database, ids: seq<LotId>, u: UserId) returns (won: seq<LotId>)
    requires Distinct(ids) && forall id :: id in ids <==> id in db.lots
    ensures Distinct(won) && (forall i :: 0 <= i < |won| ==> won[i] in db.lots)
    ensures forall id :: id in won <==> id in db.lots && db.lots[id].winner == Some(u)
    ensures GetUserStats(db, ids, u).bids == |set i: nat | i < |db.bids| && db.bids[i].bid.user == u| as real
    ensures GetUserStats(db, ids, u).wins == |won| as real && GetUserStats(db, ids, u).spent == Paid(db, won)
  {
    won := Won(db, ids, u);
    WonAreWins(db, ids, u);
    WinsAreCounted(db, ids, u);
    WinsArePaid(db, ids, u);
    BidsAreOwnRows(db.bids, u);
    assert OwnRows(db.bids, u) == set i: nat | i < |db.bids| && db.bids[i].bid.user == u;
  }

  // ---- over all users ----

  function SumStats(db: Database, ids: seq<LotId>, users: seq<UserId>): UserStats
    requires forall i :: 0 <= i < |ids| ==> ids[i] in db.lots
  {
    if users == [] then UserStats(0.0, 0.0, 0.0)
    else
      var s, t := SumStats(db, ids, users[..|users| - 1]), GetUserStats(db, ids, users[|users| - 1]);
      UserStats(s.bids + t.bids, s.wins + t.wins, s.spent + t.spent)
  }

  lemma {:induction false} SumStatsAreTallies(db: Database, ids: seq<LotId>, users: seq<UserId>)
    requires forall i :: 0 <= i < |ids| ==> ids[i] in db.lots
    ensures SumStats(db, ids, users) ==
            UserStats(TallyAll(BidEntries(db.bids), users),
                      TallyAll(WinEntries(db, ids, false), users), TallyAll(WinEntries(db, ids, true), users))
  {
    if users != [] {
      SumStatsAreTallies(db, ids, users[..|users| - 1]);
    }
  }

  // ---- the same totals, lot by lot ----

  predicate Sold(a: Auction) {
    a.lot.status == Closed && a.bids != []
  }

  /** Summed over lots: the bids its version accounts for, whether it was sold, and at which last bid. */
  function LotTotals(db: Database, ids: seq<LotId>): UserStats
    requires forall i :: 0 <= i < |ids| ==> ids[i] in db.lots
  {
    if ids == [] then UserStats(0.0, 0.0, 0.0)
    else
      var s, a := LotTotals(db, ids[..|ids| - 1]), Slice(db, ids[|ids| - 1]);
      UserStats(s.bids + (a.lot.version - 1 - (if a.lot.status == Closed then 1 else 0)) as real,
                s.wins + (if Sold(a) then 1.0 else 0.0),
                s.spent + (if Sold(a) then a.bids[|a.bids| - 1].amount else 0.0))
  }

  /** Every lot of the database is one that calls of the protocol, in some interleaving, have led to. */
  ghost predicate Reachable(d: Deployment, db: Database) {
    forall id :: id in db.lots ==> LotReachable(d, Slice(db, id))
  }

  ghost predicate LotReachable(d: Deployment, a: Auction) {
    exists lot, actions, s ::
      Run(d, lot, actions, s) && Sane(d.rules, Auction(lot, [])) && a == Auction(s.row, s.bids)
  }

  /** What the totals need of a lot. */
  predicate Settles(a: Auction) {
    && a.lot.version - 1 - (if a.lot.status == Closed then 1 else 0) == |a.bids|
    && (a.lot.winner.Some? <==> Sold(a))
    && (Sold(a) ==> a.lot.winner == Some(a.bids[|a.bids| - 1].user) && a.lot.price == a.bids[|a.bids| - 1].amount)
  }

  lemma ReachableSettles(d: Deployment, a: Auction)
    requires LotReachable(d, a)
    ensures Settles(a)
  {
    var lot, actions, s :|
      Run(d, lot, actions, s) && Sane(d.rules, Auction(lot, [])) && a == Auction(s.row, s.bids);
    BooksBalance(d, lot, actions, s);
    RunHasInv(d, lot, actions, s);
    Accounting(d.rules, Auction(lot, []), s.log);
    if a.lot.status == Closed {
      WinnerIsRight(d, lot, actions, s);
    }
  }

  /** How many bids are on one of these lots. */
  function Counted(bids: seq<BidRow>, ids: seq<LotId>): nat {
    if bids == [] then 0
    else Counted(bids[..|bids| - 1], ids) + if bids[|bids| - 1].lot in ids then 1 else 0
  }

  lemma {:induction false} CountedSplits(bids: seq<BidRow>, ids: seq<LotId>)
    requires Distinct(ids) && ids != []
    ensures Counted(bids, ids) == Counted(bids, ids[..|ids| - 1]) + |Of(bids, ids[|ids| - 1])|
  {
    if bids != [] {
      CountedSplits(bids[..|bids| - 1], ids);
      var front, last := ids[..|ids| - 1], ids[|ids| - 1];
      assert ids == front + [last] && last !in front;
    }
  }

  lemma {:induction false} NothingCounted(bids: seq<BidRow>)
    ensures Counted(bids, []) == 0
  {
    if bids != [] {
      NothingCounted(bids[..|bids| - 1]);
    }
  }

  lemma {:induction false} AllCounted(bids: seq<BidRow>, ids: seq<LotId>)
    requires forall i :: 0 <= i < |bids| ==> bids[i].lot in ids
    ensures Counted(bids, ids) == |bids| && Weight(BidEntries(bids)) == |bids| as real
  {
    if bids != [] {
      var front := bids[..|bids| - 1];
      AllCounted(front, ids);
      assert BidEntries(bids)[..|BidEntries(bids)| - 1] == BidEntries(front);
    }
  }

  /** Lot by lot, the totals are those of the entries. */
  lemma {:induction false} TotalsByLot(db: Database, ids: seq<LotId>)
    requires Distinct(ids) && forall i :: 0 <= i < |ids| ==> ids[i] in db.lots
    requires forall i :: 0 <= i < |ids| ==> Settles(Slice(db, ids[i]))
    ensures LotTotals(db, ids) ==
            UserStats(Counted(db.bids, ids) as real,
                      Weight(WinEntries(db, ids, false)), Weight(WinEntries(db, ids, true)))
  {
    if ids == [] {
      NothingCounted(db.bids);
    } else {
      var front, id := ids[..|ids| - 1], ids[|ids| - 1];
      TotalsByLot(db, front);
      CountedSplits(db.bids, ids);
      assert Settles(Slice(db, id));
      LastWin(db, ids, false);
      LastWin(db, ids, true);
    }
  }

  lemma LastWin(db: Database, ids: seq<LotId>, priced: bool)
    requires ids != [] && forall i :: 0 <= i < |ids| ==> ids[i] in db.lots
    ensures var lot := db.lots[ids[|ids| - 1]];
            Weight(WinEntries(db, ids, priced)) == Weight(WinEntries(db, ids[..|ids| - 1], priced))
              + if lot.winner.None? then 0.0 else if priced then lot.price else 1.0
  {
    var front := WinEntries(db, ids[..|ids| - 1], priced);
    var all := WinEntries(db, ids, priced);
    if db.lots[ids[|ids| - 1]].winner.Some? {
      assert all[..|all| - 1] == front;
    } else {
      assert all == front;
    }
  }

  // ---- conservation ----

  /** ids lists every lot once and users every user once; the foreign keys hold. */
  predicate Listed(db: Database, ids: seq<LotId>, users: seq<UserId>) {
    && Distinct(ids) && Distinct(users)
    && (forall i :: 0 <= i < |ids| ==> ids[i] in db.lots)
    && (forall i :: 0 <= i < |db.bids| ==> db.bids[i].lot in ids && db.bids[i].bid.user in users)
  }

  lemma {:induction false} BiddersAreUsers(bids: seq<BidRow>, users: seq<UserId>)
    requires forall i :: 0 <= i < |bids| ==> bids[i].bid.user in users
    ensures forall i :: 0 <= i < |BidEntries(bids)| ==> BidEntries(bids)[i].user in users
  {
    if bids != [] {
      BiddersAreUsers(bids[..|bids| - 1], users);
    }
  }

  lemma {:induction false} OwnBidsAreRows(bids: seq<BidRow>, id: LotId, users: seq<UserId>)
    requires forall i :: 0 <= i < |bids| ==> bids[i].bid.user in users
    ensures forall i :: 0 <= i < |Of(bids, id)| ==> Of(bids, id)[i].user in users
  {
    if bids != [] {
      OwnBidsAreRows(bids[..|bids| - 1], id, users);
    }
  }

  lemma {:induction false} WinnersAreUsers(db: Database, ids: seq<LotId>, users: seq<UserId>, priced: bool)
    requires forall i :: 0 <= i < |ids| ==> ids[i] in db.lots
    requires forall i :: 0 <= i < |ids| ==> Settles(Slice(db, ids[i]))
    requires forall i :: 0 <= i < |db.bids| ==> db.bids[i].bid.user in users
    ensures forall i :: 0 <= i < |WinEntries(db, ids, priced)| ==> WinEntries(db, ids, priced)[i].user in users
  {
    if ids != [] {
      var id := ids[|ids| - 1];
      WinnersAreUsers(db, ids[..|ids| - 1], users, priced);
      OwnBidsAreRows(db.bids, id, users);
      assert Settles(Slice(db, id));
    }
  }

  /**
   Over all users, the bids counted are those the versions of the lots account for, the wins are the
   lots sold, and the money spent is the sum of their last bids.
   */
  lemma StatisticsAreConserved(d: Deployment, db: Database, ids: seq<LotId>, users: seq<UserId>)
    requires Reachable(d, db) && Listed(db, ids, users)
    ensures SumStats(db, ids, users) == LotTotals(db, ids)
    ensures SumStats(db, ids, users).bids == |db.bids| as real
  {
    forall i | 0 <= i < |ids| ensures Settles(Slice(db, ids[i])) {
      ReachableSettles(d, Slice(db, ids[i]));
    }
    SumStatsAreTallies(db, ids, users);
    BiddersAreUsers(db.bids, users);
    WinnersAreUsers(db, ids, users, false);
    WinnersAreUsers(db, ids, users, true);
    TallyIsConserved(BidEntries(db.bids), users);
    TallyIsConserved(WinEntries(db, ids, false), users);
    TallyIsConserved(WinEntries(db, ids, true), users);
    AllCounted(db.bids, ids);
    TotalsByLot(db, ids);
  }
}
