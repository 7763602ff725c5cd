/** The lots and bids tables, with the bids of all lots in one table. */
module Tables {
  import opened Wrappers
  import opened Money
  import opened Auction

  datatype LotId = LotId(uuid: string)

  datatype BidRow = BidRow(lot: LotId, bid: Bid)

  /** The bids of one lot, in order. */
  function Of(bids: seq<BidRow>, id: LotId): seq<Bid> {
    if bids == [] then []
    else
      var last := bids[|bids| - 1];
      Of(bids[..|bids| - 1], id) + if last.lot == id then [last.bid] else []
  }

  lemma OfAppend(bids: seq<BidRow>, row: BidRow, id: LotId)
    ensures Of(bids + [row], id) == Of(bids, id) + if row.lot == id then [row.bid] else []
  {
    assert (bids + [row])[..|bids|] == bids;
  }

  datatype Database = Database(lots: map<LotId, Lot>, bids: seq<BidRow>)

  /** One lot with its bids. */
  function Slice(db: Database, id: LotId): Auction
    requires id in db.lots
  {
    Auction(db.lots[id], Of(db.bids, id))
  }

  // ---- what other callers commit ----

  /** An operation on some lot, committed by somebody. */
  datatype Foreign = Foreign(lot: LotId, op: Op)

  /** The rows an accepted operation writes. */
  function Written(cfg: Config, db: Database, f: Foreign): Database
    requires f.lot in db.lots && Apply(cfg, Slice(db, f.lot), f.op).Some?
  {
    var a := Apply(cfg, Slice(db, f.lot), f.op).value;
    Database(db.lots[f.lot := a.lot],
             if f.op.BidOp? then db.bids + [BidRow(f.lot, Bid(f.op.user, Stored(cfg.column, f.op.amount)))]
             else db.bids)
  }

  /** Others get in what the rules accept; a row that is locked they cannot touch. */
  function Commit(cfg: Config, db: Database, locked: Option<LotId>, f: Foreign): (after: Database)
    ensures after.lots.Keys == db.lots.Keys
  {
    if locked != Some(f.lot) && f.lot in db.lots && Apply(cfg, Slice(db, f.lot), f.op).Some?
    then Written(cfg, db, f) else db
  }

  function CommitAll(cfg: Config, db: Database, locked: Option<LotId>, fs: seq<Foreign>): (after: Database)
    ensures after.lots.Keys == db.lots.Keys
  {
    if fs == [] then db
    else Commit(cfg, CommitAll(cfg, db, locked, fs[..|fs| - 1]), locked, fs[|fs| - 1])
  }

  /** A committed operation is one step of the sequential auction of its lot. */
  lemma WrittenIsApplied(cfg: Config, db: Database, f: Foreign, id: LotId)
    requires f.lot in db.lots && Apply(cfg, Slice(db, f.lot), f.op).Some?
    ensures var after := Written(cfg, db, f);
            && after.lots.Keys == db.lots.Keys
            && (id in db.lots ==>
                  Slice(after, id) == if id == f.lot then Apply(cfg, Slice(db, id), f.op).value else Slice(db, id))
  {
    if f.op.BidOp? {
      OfAppend(db.bids, BidRow(f.lot, Bid(f.op.user, Stored(cfg.column, f.op.amount))), id);
    }
  }

  /** Others commit exactly what the rules accept of the lot as it is, and what is not locked. */
  lemma CommitIsApplied(cfg: Config, db: Database, locked: Option<LotId>, f: Foreign, id: LotId)
    requires id in db.lots
    ensures Slice(Commit(cfg, db, locked, f), id) ==
            if id == f.lot && locked != Some(id) && Apply(cfg, Slice(db, id), f.op).Some?
            then Apply(cfg, Slice(db, id), f.op).value else Slice(db, id)
  {
    if f.lot in db.lots && Apply(cfg, Slice(db, f.lot), f.op).Some? {
      WrittenIsApplied(cfg, db, f, id);
    }
  }

  /** Versions only grow, and a lot whose version has not grown has not changed, nor have its bids. */
  lemma {:induction false} SameVersionSameLot(cfg: Config, db: Database, locked: Option<LotId>, fs: seq<Foreign>,
                                              id: LotId)
    requires id in db.lots
    ensures var after := CommitAll(cfg, db, locked, fs);
            && id in after.lots && db.lots[id].version <= after.lots[id].version
            && (db.lots[id].version == after.lots[id].version ==> Slice(after, id) == Slice(db, id))
            && (locked == Some(id) ==> Slice(after, id) == Slice(db, id))
  {
    if fs != [] {
      var front, f := fs[..|fs| - 1], fs[|fs| - 1];
      SameVersionSameLot(cfg, db, locked, front, id);
      CommitIsApplied(cfg, CommitAll(cfg, db, locked, front), locked, f, id);
    }
  }

  lemma {:induction false} CommitConcat(cfg: Config, db: Database, locked: Option<LotId>, a: seq<Foreign>,
                                        b: seq<Foreign>)
    ensures CommitAll(cfg, db, locked, a + b) == CommitAll(cfg, CommitAll(cfg, db, locked, a), locked, b)
  {
    if b == [] {
      assert a + b == a;
    } else {
      var front := b[..|b| - 1];
      CommitConcat(cfg, db, locked, a, front);
      assert (a + b)[..|a + b| - 1] == a + front;
    }
  }

  /** What is left of fs when the lock is obeyed. */
  function Unlocked(locked: Option<LotId>, fs: seq<Foreign>): seq<Foreign> {
    if fs == [] then []
    else
      var f := fs[|fs| - 1];
      Unlocked(locked, fs[..|fs| - 1]) + if locked == Some(f.lot) then [] else [f]
  }

  lemma {:induction false} LockSkips(cfg: Config, db: Database, locked: Option<LotId>, fs: seq<Foreign>)
    ensures CommitAll(cfg, db, locked, fs) == CommitAll(cfg, db, None, Unlocked(locked, fs))
  {
    if fs != [] {
      var front, f := fs[..|fs| - 1], fs[|fs| - 1];
      LockSkips(cfg, db, locked, front);
      var rest := Unlocked(locked, front);
      assert rest + [] == rest;
      assert (rest + [f])[..|rest|] == rest;
    }
  }
}
