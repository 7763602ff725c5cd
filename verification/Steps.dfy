/** Every step keeps the invariant, call by call. */
module Steps {
  import opened Wrappers
  import opened Auction
  import opened Protocol
  import opened Invariant

  /** A snapshot that still carries the current version is the current row. */
  lemma CurrentSnap(d: Deployment, init: Auction, s: State, snap: Lot)
    requires Inv(d, init, s) && SnapOk(d, init, s.log, snap) && snap.version == s.row.version
    ensures snap == s.row
  {
    assert s.log[..|s.log|] == s.log;
  }

  lemma RowIsSnap(d: Deployment, init: Auction, s: State)
    requires Inv(d, init, s)
    ensures SnapOk(d, init, s.log, s.row)
  {
    assert s.log[..|s.log|] == s.log;
  }

  /** Moving a call that is neither the creator nor the closer in flight leaves the counters right. */
  lemma SilentMetrics(s: State, t: State, c: CallId, call: Call)
    requires MetricsOk(s) && QuietStep(s, t, c, call)
    requires t.gauge == s.gauge && t.closures == s.closures
    requires !call.Creating? && c != CREATOR
    requires c in s.calls ==> !(s.calls[c].Closing? && s.calls[c].closer.Shut?)
    requires !(call.Closing? && call.closer.Shut?)
    ensures MetricsOk(t)
  {
  }

  lemma StartKeeps(d: Deployment, init: Auction, s: State, a: Action)
    requires Inv(d, init, s) && Enabled(d, s, a) && (a.StartBid? || a.StartClose?)
    ensures Inv(d, init, Next(d, s, a))
  {
    var t, c := Next(d, s, a), a.call;
    Silent(s, t, c, t.calls[c]);
    SilentMetrics(s, t, c, t.calls[c]);
    QuietStepKeeps(d, init, s, t, c, t.calls[c]);
  }

  // ---- PlaceBid ----

  /** What a step of PlaceBid may rely on, of its own call and of the row. */
  predicate BidKnows(d: Deployment, init: Auction, s: State, c: CallId, call: Call) {
    && c in s.calls && s.calls[c] == call && call.Placing?
    && BidOk(d, init, s, c, call)
    && SnapOk(d, init, s.log, s.row) && s.row.version == 1 + |s.log|
    && (call.pc.Decided? && call.pc.snap.version == s.row.version ==> call.pc.snap == s.row)
  }

  lemma ReadingOk(d: Deployment, init: Auction, s: State, c: CallId, call: Call, now: int)
    requires BidKnows(d, init, s, c, call) && BidReady(d, s, c, call.pc, now)
    requires call.pc.Begin? || call.pc.Fetched?
    ensures var t := BidStep(d, s, c, call, now);
            QuietStep(s, t, c, t.calls[c]) && t.calls[c].Placing? && BidOk(d, init, t, c, t.calls[c])
  {
  }

  lemma InsertingOk(d: Deployment, init: Auction, s: State, c: CallId, call: Call, now: int)
    requires BidKnows(d, init, s, c, call) && BidReady(d, s, c, call.pc, now)
    requires call.pc.Checked?
    ensures var t := BidStep(d, s, c, call, now);
            QuietStep(s, t, c, t.calls[c]) && t.calls[c].Placing? && BidOk(d, init, t, c, t.calls[c])
  {
  }

  lemma WritingOk(d: Deployment, init: Auction, s: State, c: CallId, call: Call, now: int)
    requires BidKnows(d, init, s, c, call) && BidReady(d, s, c, call.pc, now)
    requires call.pc.Inserted? || call.pc.Decided?
    ensures var t := BidStep(d, s, c, call, now);
            QuietStep(s, t, c, t.calls[c]) && t.calls[c].Placing? && BidOk(d, init, t, c, t.calls[c])
  {
  }

  lemma TellingOk(d: Deployment, init: Auction, s: State, c: CallId, call: Call, now: int)
    requires BidKnows(d, init, s, c, call) && BidReady(d, s, c, call.pc, now)
    requires call.pc.Landed? || call.pc.Rearming? || call.pc.Rearmed?
    ensures var t := BidStep(d, s, c, call, now);
            QuietStep(s, t, c, t.calls[c]) && t.calls[c].Placing? && BidOk(d, init, t, c, t.calls[c])
  {
  }

  /** The acting call itself, from what it knew before the step. */
  lemma BidStepOk(d: Deployment, init: Auction, s: State, c: CallId, call: Call, now: int)
    requires BidKnows(d, init, s, c, call) && !call.pc.Written? && BidReady(d, s, c, call.pc, now)
    ensures var t := BidStep(d, s, c, call, now);
            QuietStep(s, t, c, t.calls[c]) && t.calls[c].Placing? && BidOk(d, init, t, c, t.calls[c])
  {
    if call.pc.Begin? || call.pc.Fetched? {
      ReadingOk(d, init, s, c, call, now);
    } else if call.pc.Checked? {
      InsertingOk(d, init, s, c, call, now);
    } else if call.pc.Inserted? || call.pc.Decided? {
      WritingOk(d, init, s, c, call, now);
    } else {
      TellingOk(d, init, s, c, call, now);
    }
  }

  /** The event a step of PlaceBid sends, if any. */
  function BidEvent(c: CallId, call: Call): Option<Event>
    requires call.Placing?
  {
    match call.pc
    case Landed(_, _) => Some(NewBid(c, call.user, call.amount))
    case Rearmed(lot) => Some(LotExtended(c, lot.closing, lot.extended))
    case _ => None
  }

  lemma BidStepAnnounces(d: Deployment, s: State, c: CallId, call: Call, now: int)
    requires c in s.calls && s.calls[c] == call
    requires call.Placing? && !call.pc.Written? && BidReady(d, s, c, call.pc, now)
    ensures var t, e := BidStep(d, s, c, call, now), BidEvent(c, call);
            && c in t.calls && t.calls == s.calls[c := t.calls[c]]
            && t.gauge == s.gauge && t.closures == s.closures && t.calls[c].Placing?
            && t.events == s.events + (if e.Some? then [e.value] else [])
            && Announced(c, t.calls[c]) == Announced(c, call) + (if e.Some? then [e.value] else [])
  {
  }

  lemma BidStepSends(d: Deployment, s: State, c: CallId, call: Call, now: int)
    requires EventsOk(s) && c in s.calls && s.calls[c] == call
    requires call.Placing? && !call.pc.Written? && BidReady(d, s, c, call.pc, now)
    ensures EventsOk(BidStep(d, s, c, call, now))
  {
    BidStepAnnounces(d, s, c, call, now);
    var t, e := BidStep(d, s, c, call, now), BidEvent(c, call);
    if e.Some? {
      Sends(s, t, c, t.calls[c], e.value);
    } else {
      Silent(s, t, c, t.calls[c]);
    }
  }

  lemma BidStepKeeps(d: Deployment, init: Auction, s: State, c: CallId, call: Call, now: int)
    requires Inv(d, init, s) && c in s.calls && s.calls[c] == call
    requires call.Placing? && !call.pc.Written? && BidReady(d, s, c, call.pc, now)
    ensures Inv(d, init, BidStep(d, s, c, call, now))
  {
    var t := BidStep(d, s, c, call, now);
    assert c in s.calls && CallOk(d, init, s, c, call);
    RowIsSnap(d, init, s);
    if call.pc.Decided? && call.pc.snap.version == s.row.version {
      CurrentSnap(d, init, s, call.pc.snap);
    }
    BidStepOk(d, init, s, c, call, now);
    BidStepSends(d, s, c, call, now);
    BidStepAnnounces(d, s, c, call, now);
    SilentMetrics(s, t, c, t.calls[c]);
    QuietStepKeeps(d, init, s, t, c, t.calls[c]);
  }

  lemma CommitKeepsCalls(d: Deployment, init: Auction, s: State, t: State, c: CallId, call: Call, op: Op)
    requires CallsOk(d, init, s) && s.row.version == 1 + |s.log| && t.row.version == s.row.version + 1
    requires t.log == s.log + [op] && t.calls == s.calls[c := call] && t.owner == None
    requires s.owner == None || s.owner == Some(c)
    requires CallOk(d, init, t, c, call)
    ensures CallsOk(d, init, t)
  {
    forall x | x in t.calls ensures CallOk(d, init, t, x, t.calls[x]) {
      if x != c {
        assert CallOk(d, init, s, x, s.calls[x]);
        CommitSpares(d, init, s, t, x, s.calls[x], op);
      }
    }
  }

  lemma CommitKeepsOwned(s: State, t: State, c: CallId, call: Call, op: Op)
    requires AllOwned(s) && c in s.calls && op.call == c
    requires t.log == s.log + [op] && t.calls == s.calls[c := call]
    requires Product(s.calls[c]) == None
    requires Product(call).Some? && Index(Product(call).value) == |s.log|
    ensures AllOwned(t)
  {
    forall i | 0 <= i < |t.log| ensures Owned(t, i) {
      if i < |s.log| {
        assert Owned(s, i);
      }
    }
  }

  lemma CommitKeepsHistory(d: Deployment, init: Auction, s: State, t: State, op: Op)
    requires Replay(d.rules, init, s.log) == Some(Auction(s.row, s.bids))
    requires Apply(d.rules, Auction(s.row, s.bids), op) == Some(Auction(t.row, t.bids))
    requires t.log == s.log + [op] && AllOrdered(s.log) && (op.BidOp? ==> Ordered(op.stamp))
    ensures Replay(d.rules, init, t.log) == Some(Auction(t.row, t.bids))
    ensures AllOrdered(t.log) && t.row.version == s.row.version + 1
  {
    ReplayAppend(d.rules, init, s.log, op);
  }

  /** The shared half of a commit: every other call, the owners of the history, and its replay. */
  lemma CommitKeeps(d: Deployment, init: Auction, s: State, t: State, c: CallId, call: Call, op: Op)
    requires Inv(d, init, s) && c in s.calls && op.call == c
    requires t.log == s.log + [op] && t.calls == s.calls[c := call] && t.owner == None
    requires s.owner == None || s.owner == Some(c)
    requires Apply(d.rules, Auction(s.row, s.bids), op) == Some(Auction(t.row, t.bids))
    requires op.BidOp? ==> Ordered(op.stamp)
    requires CallOk(d, init, t, c, call)
    requires Product(s.calls[c]) == None
    requires Product(call).Some? && Index(Product(call).value) == |s.log|
    requires EventsOk(t) && MetricsOk(t)
    ensures Inv(d, init, t)
  {
    CommitKeepsHistory(d, init, s, t, op);
    CommitKeepsCalls(d, init, s, t, c, call, op);
    CommitKeepsOwned(s, t, c, call, op);
  }

  lemma CommitBidKeeps(d: Deployment, init: Auction, s: State, c: CallId, call: Call)
    requires Inv(d, init, s) && c in s.calls && s.calls[c] == call
    requires call.Placing? && call.pc.Written?
    ensures Inv(d, init, CommitBid(d, s, c, call))
  {
    assert CallOk(d, init, s, c, call);
    var t := CommitBid(d, s, c, call);
    var op := BidOp(c, call.user, call.amount, call.pc.stamp);
    assert t.log[..|s.log|] == s.log;
    Silent(s, t, c, t.calls[c]);
    CommitKeeps(d, init, s, t, c, t.calls[c], op);
  }

  // ---- CloseLot ----

  lemma CloseStepOk(d: Deployment, init: Auction, s: State, c: CallId, pc: ClosePc, now: int, top: Option<Bid>)
    requires c in s.calls && s.calls[c] == Closing(pc) && CloseOk(d, init, s, c, pc)
    requires CloseReady(s, pc, now, top) && !pc.Shut? && !(pc.Topped? && pc.snap.version == s.row.version)
    requires SnapOk(d, init, s.log, s.row)
    ensures var t := CloseStep(s, c, pc, now, top);
            && QuietStep(s, t, c, t.calls[c]) && CallOk(d, init, t, c, t.calls[c])
            && t.events == s.events && t.gauge == s.gauge && t.closures == s.closures
            && t.calls[c].Closing? && !t.calls[c].closer.Shut?
            && Announced(c, t.calls[c]) == Announced(c, s.calls[c])
  {
  }

  lemma CloseStepKeeps(d: Deployment, init: Auction, s: State, c: CallId, pc: ClosePc, now: int, top: Option<Bid>)
    requires Inv(d, init, s) && c in s.calls && s.calls[c] == Closing(pc)
    requires CloseReady(s, pc, now, top) && !pc.Shut? && !(pc.Topped? && pc.snap.version == s.row.version)
    ensures Inv(d, init, CloseStep(s, c, pc, now, top))
  {
    var t := CloseStep(s, c, pc, now, top);
    assert CallOk(d, init, s, c, s.calls[c]);
    RowIsSnap(d, init, s);
    CloseStepOk(d, init, s, c, pc, now, top);
    Silent(s, t, c, t.calls[c]);
    SilentMetrics(s, t, c, t.calls[c]);
    QuietStepKeeps(d, init, s, t, c, t.calls[c]);
  }

  lemma CommitCloseKeeps(d: Deployment, init: Auction, s: State, c: CallId, pc: ClosePc)
    requires Inv(d, init, s) && c in s.calls && s.calls[c] == Closing(pc)
    requires pc.Topped? && s.owner == None && pc.snap.version == s.row.version
    ensures Inv(d, init, CommitClose(s, c, pc.snap, pc.now, pc.top))
  {
    assert CallOk(d, init, s, c, s.calls[c]);
    CurrentSnap(d, init, s, pc.snap);
    var t := CommitClose(s, c, pc.snap, pc.now, pc.top);
    assert t.log[..|s.log|] == s.log;
    Silent(s, t, c, t.calls[c]);
    CommitKeeps(d, init, s, t, c, t.calls[c], CloseOp(c, pc.now, pc.top));
  }

  lemma CloserOwnsLast(d: Deployment, init: Auction, log: seq<Op>, c: CallId, lot: Lot)
    requires Fresh(init) && Replay(d.rules, init, log).Some? && OwnClose(d, init, log, c, lot)
    ensures |log| > 0 && log[|log| - 1].call == c
    ensures lot == Replay(d.rules, init, log).value.lot && lot.status == Closed
  {
    var i := Index(lot);
    OnlyTheLastCloses(d.rules, init, log, i);
    assert log[..i] == log[..|log| - 1];
  }

  /** A call that has closed the lot is the one that made the last entry of the history. */
  lemma ShutIsLast(d: Deployment, init: Auction, s: State, c: CallId)
    requires Inv(d, init, s) && c in s.calls && s.calls[c].Closing?
    requires Product(s.calls[c]).Some?
    ensures |s.log| > 0 && s.log[|s.log| - 1].call == c
    ensures Product(s.calls[c]).value == s.row && s.row.status == Closed
  {
    assert CallOk(d, init, s, c, s.calls[c]);
    CloserOwnsLast(d, init, s.log, c, Product(s.calls[c]).value);
  }

  /** The call that closed the lot counts the closure as it announces it. */
  lemma ShutCounts(s: State, c: CallId, lot: Lot)
    requires MetricsOk(s) && c in s.calls && s.calls[c] == Closing(Shut(lot))
    requires |s.log| > 0 && s.log[|s.log| - 1].call == c && lot == s.row && s.row.status == Closed
    ensures var t := CloseStep(s, c, Shut(lot), 0, None);
            && MetricsOk(t) && QuietStep(s, t, c, Closing(Finished(DidClose(lot))))
            && t.events == s.events + [LotClosed(c, lot.winner, lot.price)]
  {
  }

  lemma ShutStepKeeps(d: Deployment, init: Auction, s: State, c: CallId, pc: ClosePc, now: int, top: Option<Bid>)
    requires Inv(d, init, s) && c in s.calls && s.calls[c] == Closing(pc) && pc.Shut?
    ensures Inv(d, init, CloseStep(s, c, pc, now, top))
  {
    var t := CloseStep(s, c, pc, now, top);
    var call := Closing(Finished(DidClose(pc.lot)));
    assert CallOk(d, init, s, c, s.calls[c]);
    ShutIsLast(d, init, s, c);
    ShutCounts(s, c, pc.lot);
    Sends(s, t, c, call, LotClosed(c, pc.lot.winner, pc.lot.price));
    assert CallOk(d, init, t, c, call);
    QuietStepKeeps(d, init, s, t, c, call);
  }

  // ---- CreateLot and errors ----

  /** The creator's step itself. */
  lemma CreateStepOk(d: Deployment, init: Auction, s: State, c: CallId, pc: CreatePc)
    requires c in s.calls && s.calls[c] == Creating(pc) && !pc.Created? && CreateOk(init, s, c, pc) && MetricsOk(s)
    ensures var t := CreateStep(s, c, pc);
            && c in t.calls && QuietStep(s, t, c, t.calls[c]) && CallOk(d, init, t, c, t.calls[c])
            && t.events == s.events && MetricsOk(t) && Announced(c, t.calls[c]) == Announced(c, s.calls[c])
  {
  }

  lemma CreateStepKeeps(d: Deployment, init: Auction, s: State, c: CallId, pc: CreatePc)
    requires Inv(d, init, s) && c in s.calls && s.calls[c] == Creating(pc) && !pc.Created?
    ensures Inv(d, init, CreateStep(s, c, pc))
  {
    var t := CreateStep(s, c, pc);
    assert CallOk(d, init, s, c, s.calls[c]);
    CreateStepOk(d, init, s, c, pc);
    Silent(s, t, c, t.calls[c]);
    QuietStepKeeps(d, init, s, t, c, t.calls[c]);
  }

  /** An error ends the call, and gives back the lock it may hold. */
  lemma AbortOk(d: Deployment, init: Auction, s: State, c: CallId)
    requires c in s.calls && Abortable(s.calls[c]) && CallOk(d, init, s, c, s.calls[c])
    ensures var t := Next(d, s, Abort(c));
            && c in t.calls && QuietStep(s, t, c, t.calls[c]) && CallOk(d, init, t, c, t.calls[c])
            && t.events == s.events && t.gauge == s.gauge && t.closures == s.closures
            && !t.calls[c].Creating? && !(t.calls[c].Closing? && t.calls[c].closer.Shut?)
            && Announced(c, t.calls[c]) == Announced(c, s.calls[c])
  {
  }

  lemma AbortKeeps(d: Deployment, init: Auction, s: State, a: Action)
    requires Inv(d, init, s) && Enabled(d, s, a) && a.Abort?
    ensures Inv(d, init, Next(d, s, a))
  {
    var t, c := Next(d, s, a), a.call;
    assert CallOk(d, init, s, c, s.calls[c]);
    AbortOk(d, init, s, c);
    Silent(s, t, c, t.calls[c]);
    SilentMetrics(s, t, c, t.calls[c]);
    QuietStepKeeps(d, init, s, t, c, t.calls[c]);
  }

  // ---- every run ----

  lemma AdvanceBidKeeps(d: Deployment, init: Auction, s: State, c: CallId, call: Call, now: int)
    requires Inv(d, init, s) && c in s.calls && s.calls[c] == call
    requires call.Placing? && BidReady(d, s, c, call.pc, now)
    ensures Inv(d, init, BidStep(d, s, c, call, now))
  {
    if call.pc.Written? {
      CommitBidKeeps(d, init, s, c, call);
    } else {
      BidStepKeeps(d, init, s, c, call, now);
    }
  }

  lemma AdvanceCloseKeeps(d: Deployment, init: Auction, s: State, c: CallId, pc: ClosePc, now: int, top: Option<Bid>)
    requires Inv(d, init, s) && c in s.calls && s.calls[c] == Closing(pc)
    requires CloseReady(s, pc, now, top)
    ensures Inv(d, init, CloseStep(s, c, pc, now, top))
  {
    if pc.Shut? {
      ShutStepKeeps(d, init, s, c, pc, now, top);
    } else if pc.Topped? && pc.snap.version == s.row.version {
      CommitCloseKeeps(d, init, s, c, pc);
    } else {
      CloseStepKeeps(d, init, s, c, pc, now, top);
    }
  }

  lemma StepKeeps(d: Deployment, init: Auction, s: State, a: Action)
    requires Inv(d, init, s) && Enabled(d, s, a)
    ensures Inv(d, init, Next(d, s, a))
  {
    if a.StartBid? || a.StartClose? {
      StartKeeps(d, init, s, a);
    } else if a.Abort? {
      AbortKeeps(d, init, s, a);
    } else if s.calls[a.call].Placing? {
      AdvanceBidKeeps(d, init, s, a.call, s.calls[a.call], a.now);
    } else if s.calls[a.call].Closing? {
      AdvanceCloseKeeps(d, init, s, a.call, s.calls[a.call].closer, a.now, a.top);
    } else {
      CreateStepKeeps(d, init, s, a.call, s.calls[a.call].creator);
    }
  }

  lemma InitKeeps(d: Deployment, lot: Lot)
    requires Fresh(Auction(lot, []))
    ensures Inv(d, Auction(lot, []), Init(lot))
  {
  }

  lemma {:induction false} RunKeeps(d: Deployment, init: Auction, s: State, actions: seq<Action>, t: State)
    requires Inv(d, init, s) && Reaches(d, s, actions, t)
    ensures Inv(d, init, t)
    decreases |actions|
  {
    if actions != [] {
      StepKeeps(d, init, s, actions[0]);
      RunKeeps(d, init, Next(d, s, actions[0]), actions[1..], t);
    }
  }
}
