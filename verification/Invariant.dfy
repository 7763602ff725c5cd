/** What every step of every interleaving keeps. */
module Invariant {
  import opened Wrappers
  import opened Money
  import opened Auction
  import opened Protocol

  /** snap is the row as it was at the version it carries. */
  predicate SnapOk(d: Deployment, init: Auction, log: seq<Op>, snap: Lot) {
    && 1 <= snap.version <= |log| + 1
    && Replay(d.rules, init, log[..snap.version - 1]).Some?
    && Replay(d.rules, init, log[..snap.version - 1]).value.lot == snap
  }

  /** The operation that produced a lot of this version. */
  function Index(lot: Lot): int {
    lot.version - 2
  }

  /** lot is what operation Index(lot), committed by call c, left in the hands of that call. */
  predicate OwnBid(d: Deployment, init: Auction, log: seq<Op>, c: CallId, call: Call, lot: Lot, late: bool)
    requires call.Placing?
  {
    var i := Index(lot);
    && call.began <= i < |log|
    && log[i].BidOp? && log[i].call == c && log[i].user == call.user && log[i].amount == call.amount
    && Replay(d.rules, init, log[..i]).Some?
    && var before := Replay(d.rules, init, log[..i]).value.lot;
       && lot == Raised(d.rules, before, call.amount, log[i].stamp)
       && late == Snipes(d.rules, before, log[i].stamp.until)
  }

  predicate OwnClose(d: Deployment, init: Auction, log: seq<Op>, c: CallId, lot: Lot) {
    var i := Index(lot);
    && 0 <= i < |log|
    && log[i].CloseOp? && log[i].call == c
    && Replay(d.rules, init, log[..i]).Some?
    && lot == Sealed(Replay(d.rules, init, log[..i]).value.lot, log[i].top)
  }

  /** A transaction that has read the row with FOR UPDATE holds the lock on it, and the row cannot have moved. */
  predicate LockOk(d: Deployment, s: State, c: CallId, snap: Lot) {
    d.rowLock ==> s.owner == Some(c) && snap == s.row
  }

  predicate ReadOk(d: Deployment, init: Auction, s: State, c: CallId, call: Call, snap: Lot)
    requires call.Placing?
  {
    && SnapOk(d, init, s.log, snap) && call.began < snap.version
    && LockOk(d, s, c, snap)
  }

  /** A refusal is explained by a version of the lot that was current while the call ran. */
  predicate RefusalOk(d: Deployment, init: Auction, log: seq<Op>, call: Call, e: Error, snap: Lot, check: int)
    requires call.Placing?
  {
    match e
    case Exhausted => call.attempt == ATTEMPTS && !d.rowLock
    case DbError => true
    case NotFound => false
    case OptimisticLock => false
    case OutOfRange =>
      && SnapOk(d, init, log, snap) && call.began < snap.version
      && Validate(snap, call.amount, check) == None && !Fits(d.rules.column, call.amount)
    case _ =>
      && SnapOk(d, init, log, snap) && call.began < snap.version
      && Validate(snap, call.amount, check) == Some(e)
  }

  predicate BidOk(d: Deployment, init: Auction, s: State, c: CallId, call: Call)
    requires call.Placing?
  {
    && call.began <= |s.log|
    && (d.rowLock ==> call.attempt == 0)
    && match call.pc
       case Begin => call.attempt < ATTEMPTS && s.owner != Some(c)
       case Fetched(snap) => call.attempt < ATTEMPTS && ReadOk(d, init, s, c, call, snap)
       case Checked(snap, check) =>
         && call.attempt < ATTEMPTS && ReadOk(d, init, s, c, call, snap)
         && Validate(snap, call.amount, check) == None
       case Inserted(snap, check) =>
         && call.attempt < ATTEMPTS && ReadOk(d, init, s, c, call, snap)
         && Validate(snap, call.amount, check) == None && Fits(d.rules.column, call.amount)
       case Decided(snap, check, until) =>
         && call.attempt < ATTEMPTS && ReadOk(d, init, s, c, call, snap)
         && Validate(snap, call.amount, check) == None && Fits(d.rules.column, call.amount)
         && check <= until
       case Written(snap, st) =>
         && call.attempt < ATTEMPTS && ReadOk(d, init, s, c, call, snap)
         && Validate(snap, call.amount, st.check) == None && Fits(d.rules.column, call.amount)
         && Ordered(st) && s.owner == Some(c) && snap == s.row
       case Landed(lot, late) => OwnBid(d, init, s.log, c, call, lot, late) && s.owner != Some(c)
       case Rearming(lot) => OwnBid(d, init, s.log, c, call, lot, true) && s.owner != Some(c)
       case Rearmed(lot) => OwnBid(d, init, s.log, c, call, lot, true) && s.owner != Some(c)
       case Accepted(lot, late) => OwnBid(d, init, s.log, c, call, lot, late) && s.owner != Some(c)
       case Refused(e, snap, check) => RefusalOk(d, init, s.log, call, e, snap, check) && s.owner != Some(c)
  }

  predicate CloseOk(d: Deployment, init: Auction, s: State, c: CallId, pc: ClosePc) {
    && s.owner != Some(c)
    && match pc
       case Spawned => true
       case Loaded(snap, _) => SnapOk(d, init, s.log, snap)
       case Due(snap, now) => SnapOk(d, init, s.log, snap) && snap.status == Active && now >= snap.closing
       case Topped(snap, now, top) =>
         && SnapOk(d, init, s.log, snap) && snap.status == Active && now >= snap.closing
         && (snap.version == s.row.version ==> IsHighest(top, s.bids))
       case Shut(lot) => OwnClose(d, init, s.log, c, lot)
       case Deferred(snap) => SnapOk(d, init, s.log, snap)
       case Finished(DidClose(lot)) => OwnClose(d, init, s.log, c, lot)
       case Finished(_) => true
  }

  predicate CreateOk(init: Auction, s: State, c: CallId, pc: CreatePc) {
    && s.owner != Some(c) && c == CREATOR
    && (pc.Counting? ==> pc.lot == init.lot)
    && (pc.Arming? ==> pc.lot == init.lot)
  }

  predicate CallOk(d: Deployment, init: Auction, s: State, c: CallId, call: Call) {
    match call
    case Placing(_, _, _, _, _) => BidOk(d, init, s, c, call)
    case Closing(pc) => CloseOk(d, init, s, c, pc)
    case Creating(pc) => CreateOk(init, s, c, pc)
  }

  /** The lot a call got from its commit, if it has committed. */
  function Product(call: Call): Option<Lot> {
    match call
    case Placing(_, _, _, _, pc) =>
      (match pc
       case Landed(lot, _) => Some(lot)
       case Rearming(lot) => Some(lot)
       case Rearmed(lot) => Some(lot)
       case Accepted(lot, _) => Some(lot)
       case _ => None)
    case Closing(pc) =>
      (match pc
       case Shut(lot) => Some(lot)
       case Finished(DidClose(lot)) => Some(lot)
       case _ => None)
    case Creating(_) => None
  }

  /** Operation i was committed by a call that knows it. */
  predicate Owned(s: State, i: nat)
    requires i < |s.log|
  {
    && s.log[i].call in s.calls
    && Product(s.calls[s.log[i].call]).Some?
    && Index(Product(s.calls[s.log[i].call]).value) == i
  }

  // ---- events ----

  /** The events a call has sent, in order. */
  function Sent(events: seq<Event>, c: CallId): seq<Event> {
    if events == [] then []
    else
      var e := events[|events| - 1];
      Sent(events[..|events| - 1], c) + if e.call == c then [e] else []
  }

  lemma SentAppend(events: seq<Event>, e: Event, c: CallId)
    ensures Sent(events + [e], c) == Sent(events, c) + if e.call == c then [e] else []
  {
    assert (events + [e])[..|events|] == events;
  }

  /** What a call must have sent by now: its values come from the lot it committed. */
  function Announced(c: CallId, call: Call): seq<Event> {
    match call
    case Placing(user, amount, _, _, pc) =>
      (match pc
       case Rearming(_) => [NewBid(c, user, amount)]
       case Rearmed(_) => [NewBid(c, user, amount)]
       case Accepted(lot, late) =>
         [NewBid(c, user, amount)] + if late then [LotExtended(c, lot.closing, lot.extended)] else []
       case _ => [])
    case Closing(pc) =>
      (match pc
       case Finished(DidClose(lot)) => [LotClosed(c, lot.winner, lot.price)]
       case _ => [])
    case Creating(_) => []
  }

  ghost predicate EventsOk(s: State) {
    forall c: CallId :: Sent(s.events, c) == if c in s.calls then Announced(c, s.calls[c]) else []
  }

  // ---- metrics ----

  /** The counters follow the row, up to the creation and the close that are still in flight. */
  predicate MetricsOk(s: State) {
    && CREATOR in s.calls && s.calls[CREATOR].Creating?
    && s.gauge + s.closures == (if s.calls[CREATOR].creator.Counting? then 0 else 1)
    && s.closures ==
       if s.row.status == Active then 0
       else if |s.log| > 0 && s.log[|s.log| - 1].call in s.calls
               && s.calls[s.log[|s.log| - 1].call] == Closing(Shut(s.row)) then 0
       else 1
  }

  ghost predicate CallsOk(d: Deployment, init: Auction, s: State) {
    forall c :: c in s.calls ==> CallOk(d, init, s, c, s.calls[c])
  }

  ghost predicate AllOwned(s: State) {
    forall i :: 0 <= i < |s.log| ==> Owned(s, i)
  }

  ghost predicate Inv(d: Deployment, init: Auction, s: State) {
    && Fresh(init)
    && Replay(d.rules, init, s.log) == Some(Auction(s.row, s.bids))
    && s.row.version == 1 + |s.log|
    && AllOrdered(s.log)
    && (s.owner.Some? ==> s.owner.value in s.calls)
    && CallsOk(d, init, s)
    && AllOwned(s)
    && EventsOk(s)
    && MetricsOk(s)
  }

  // ---- what does not move when another call takes a step ----

  lemma SnapGrows(d: Deployment, init: Auction, log: seq<Op>, op: Op, snap: Lot)
    requires SnapOk(d, init, log, snap)
    ensures SnapOk(d, init, log + [op], snap)
  {
    assert (log + [op])[..snap.version - 1] == log[..snap.version - 1];
  }

  lemma OwnBidGrows(d: Deployment, init: Auction, log: seq<Op>, op: Op, c: CallId, call: Call, lot: Lot, late: bool)
    requires call.Placing? && OwnBid(d, init, log, c, call, lot, late)
    ensures OwnBid(d, init, log + [op], c, call, lot, late)
  {
    assert (log + [op])[..Index(lot)] == log[..Index(lot)];
  }

  lemma OwnCloseGrows(d: Deployment, init: Auction, log: seq<Op>, op: Op, c: CallId, lot: Lot)
    requires OwnClose(d, init, log, c, lot)
    ensures OwnClose(d, init, log + [op], c, lot)
  {
    assert (log + [op])[..Index(lot)] == log[..Index(lot)];
  }

  /** t is s after a commit by a call that may update the row, which is not c. */
  predicate Committed(s: State, t: State, c: CallId, op: Op) {
    && t.log == s.log + [op] && t.row.version == s.row.version + 1
    && s.owner != Some(c) && t.owner == None
  }

  lemma CommitSparesBids(d: Deployment, init: Auction, s: State, t: State, c: CallId, call: Call, op: Op)
    requires call.Placing? && BidOk(d, init, s, c, call) && Committed(s, t, c, op)
    ensures BidOk(d, init, t, c, call)
  {
    match call.pc
    case Begin =>
    case Fetched(snap) => SnapGrows(d, init, s.log, op, snap);
    case Checked(snap, _) => SnapGrows(d, init, s.log, op, snap);
    case Inserted(snap, _) => SnapGrows(d, init, s.log, op, snap);
    case Decided(snap, _, _) => SnapGrows(d, init, s.log, op, snap);
    case Written(_, _) =>
    case Landed(lot, late) => OwnBidGrows(d, init, s.log, op, c, call, lot, late);
    case Rearming(lot) => OwnBidGrows(d, init, s.log, op, c, call, lot, true);
    case Rearmed(lot) => OwnBidGrows(d, init, s.log, op, c, call, lot, true);
    case Accepted(lot, late) => OwnBidGrows(d, init, s.log, op, c, call, lot, late);
    case Refused(e, snap, _) =>
      if e != Exhausted && e != DbError {
        SnapGrows(d, init, s.log, op, snap);
      }
  }

  lemma CommitSparesCloses(d: Deployment, init: Auction, s: State, t: State, c: CallId, pc: ClosePc, op: Op)
    requires CloseOk(d, init, s, c, pc) && Committed(s, t, c, op)
    requires s.row.version == 1 + |s.log|
    ensures CloseOk(d, init, t, c, pc)
  {
    match pc
    case Spawned =>
    case Loaded(snap, _) => SnapGrows(d, init, s.log, op, snap);
    case Due(snap, _) => SnapGrows(d, init, s.log, op, snap);
    case Topped(snap, _, _) => SnapGrows(d, init, s.log, op, snap);
    case Shut(lot) => OwnCloseGrows(d, init, s.log, op, c, lot);
    case Deferred(snap) => SnapGrows(d, init, s.log, op, snap);
    case Finished(outcome) =>
      if outcome.DidClose? {
        OwnCloseGrows(d, init, s.log, op, c, outcome.lot);
      }
  }

  lemma CommitSpares(d: Deployment, init: Auction, s: State, t: State, c: CallId, call: Call, op: Op)
    requires CallOk(d, init, s, c, call) && Committed(s, t, c, op)
    requires s.row.version == 1 + |s.log|
    ensures CallOk(d, init, t, c, call)
  {
    match call
    case Placing(_, _, _, _, _) => CommitSparesBids(d, init, s, t, c, call, op);
    case Closing(pc) => CommitSparesCloses(d, init, s, t, c, pc, op);
    case Creating(_) =>
  }

  // ---- steps that commit nothing ----

  /** The tables stay; the lock moves only between nobody and c; c becomes call and may send events. */
  predicate QuietStep(s: State, t: State, c: CallId, call: Call) {
    && t.row == s.row && t.bids == s.bids && t.log == s.log
    && t.calls == s.calls[c := call]
    && (t.owner == s.owner || (s.owner == None && t.owner == Some(c)) || (s.owner == Some(c) && t.owner == None))
    && (c in s.calls ==> Product(call) == Product(s.calls[c]))
  }

  lemma QuietStepKeepsCalls(d: Deployment, init: Auction, s: State, t: State, c: CallId, call: Call)
    requires CallsOk(d, init, s) && QuietStep(s, t, c, call)
    requires CallOk(d, init, t, c, call)
    ensures CallsOk(d, init, t)
  {
    forall x | x in t.calls ensures CallOk(d, init, t, x, t.calls[x]) {
      if x != c {
        assert CallOk(d, init, s, x, s.calls[x]);
      }
    }
  }

  lemma QuietStepKeeps(d: Deployment, init: Auction, s: State, t: State, c: CallId, call: Call)
    requires Inv(d, init, s) && QuietStep(s, t, c, call)
    requires CallOk(d, init, t, c, call)
    requires EventsOk(t) && MetricsOk(t)
    ensures Inv(d, init, t)
  {
    QuietStepKeepsCalls(d, init, s, t, c, call);
    forall i | 0 <= i < |t.log| ensures Owned(t, i) {
      assert Owned(s, i);
    }
  }

  /** A call that sends nothing keeps the event log in order. */
  lemma Silent(s: State, t: State, c: CallId, call: Call)
    requires EventsOk(s) && t.events == s.events && t.calls == s.calls[c := call]
    requires Announced(c, call) == if c in s.calls then Announced(c, s.calls[c]) else []
    ensures EventsOk(t)
  {
    forall x: CallId ensures Sent(t.events, x) == if x in t.calls then Announced(x, t.calls[x]) else [] {
      assert Sent(s.events, x) == if x in s.calls then Announced(x, s.calls[x]) else [];
    }
  }

  lemma Sends(s: State, t: State, c: CallId, call: Call, e: Event)
    requires EventsOk(s) && t.events == s.events + [e] && t.calls == s.calls[c := call]
    requires c in s.calls && e.call == c && Announced(c, call) == Announced(c, s.calls[c]) + [e]
    ensures EventsOk(t)
  {
    forall x: CallId ensures Sent(t.events, x) == if x in t.calls then Announced(x, t.calls[x]) else [] {
      SentAppend(s.events, e, x);
      assert Sent(s.events, x) == if x in s.calls then Announced(x, s.calls[x]) else [];
    }
  }
}
