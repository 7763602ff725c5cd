/** What callers and bidders are told by any interleaving, in the fields of the rows the calls met. */
module Answers {
  import opened Money
  import opened Auction
  import opened Protocol
  import opened Invariant
  import opened Steps
  import opened Safety

  // ---- acceptance and refusal ----

  /** What the bid found in the row it was committed on, what it returned, and what it sent. */
  predicate Told(d: Deployment, sent: seq<Event>, c: CallId, call: Call, row: Lot, st: Stamp)
    requires call.Placing? && call.pc.Accepted?
  {
    && Acceptable(row, call.amount, st.check) && Fits(d.rules.column, call.amount)
    && AfterBid(d.rules, row, call.amount, st, call.pc.lot)
    && call.pc.late == LastMinute(d.rules, row, st.until)
    && sent ==
       if LastMinute(d.rules, row, st.until)
       then [NewBid(c, call.user, call.amount), LotExtended(c, st.next + d.rules.extension, row.extended + 1)]
       else [NewBid(c, call.user, call.amount)]
  }

  /**
   A bid is accepted on a version that was current while its call ran, by the four checks and the size of the
   column; answer and events carry what this one bid has changed.
   */
  lemma AcceptanceMeans(d: Deployment, lot: Lot, actions: seq<Action>, s: State, c: CallId)
    requires Run(d, lot, actions, s) && c in s.calls && s.calls[c].Placing? && s.calls[c].pc.Accepted?
    ensures Replay(d.rules, Auction(lot, []), s.log).Some?
    ensures var call, i := s.calls[c], s.calls[c].pc.lot.version - 2;
            && call.began <= i < |s.log| && s.log[i].BidOp? && s.log[i].call == c
            && Told(d, Sent(s.events, c), c, call, At(d.rules, Auction(lot, []), s.log, i).lot, s.log[i].stamp)
  {
    AcceptedIsOwn(d, lot, actions, s, c);
    OwnBidIsTold(d, Auction(lot, []), s.log, c, s.calls[c]);
  }

  lemma AcceptedIsOwn(d: Deployment, lot: Lot, actions: seq<Action>, s: State, c: CallId)
    requires Run(d, lot, actions, s) && c in s.calls && s.calls[c].Placing? && s.calls[c].pc.Accepted?
    ensures Replay(d.rules, Auction(lot, []), s.log).Some?
    ensures OwnBid(d, Auction(lot, []), s.log, c, s.calls[c], s.calls[c].pc.lot, s.calls[c].pc.late)
    ensures Sent(s.events, c) == Announced(c, s.calls[c])
  {
    RunHasInv(d, lot, actions, s);
    assert CallOk(d, Auction(lot, []), s, c, s.calls[c]);
  }

  lemma RaisedIsAfterBid(cfg: Config, lot: Lot, amount: real, st: Stamp)
    ensures AfterBid(cfg, lot, amount, st, Raised(cfg, lot, amount, st))
    ensures Snipes(cfg, lot, st.until) <==> LastMinute(cfg, lot, st.until)
  {
  }

  lemma OwnBidIsTold(d: Deployment, init: Auction, log: seq<Op>, c: CallId, call: Call)
    requires Replay(d.rules, init, log).Some? && call.Placing? && call.pc.Accepted?
    requires OwnBid(d, init, log, c, call, call.pc.lot, call.pc.late)
    ensures var i := call.pc.lot.version - 2;
            && call.began <= i < |log| && log[i].BidOp? && log[i].call == c
            && Told(d, Announced(c, call), c, call, At(d.rules, init, log, i).lot, log[i].stamp)
  {
    var i := Index(call.pc.lot);
    OperationsFollowRules(d.rules, init, log, i);
    AtStep(d.rules, init, log, i);
    RaisedIsAfterBid(d.rules, At(d.rules, init, log, i).lot, call.amount, log[i].stamp);
  }

  /**
   Each error of the rules is given exactly for its own reason, on a version that was current while the call
   ran.
   */
  lemma RefusalMeans(d: Deployment, lot: Lot, actions: seq<Action>, s: State, c: CallId)
    requires Run(d, lot, actions, s) && c in s.calls && s.calls[c].Placing? && s.calls[c].pc.Refused?
    requires s.calls[c].pc.error != DbError && s.calls[c].pc.error != Exhausted
    ensures Replay(d.rules, Auction(lot, []), s.log).Some?
    ensures var call, pc := s.calls[c], s.calls[c].pc;
            && call.began < pc.snap.version <= |s.log| + 1
            && pc.snap == At(d.rules, Auction(lot, []), s.log, pc.snap.version - 1).lot
            && if pc.error == OutOfRange
               then Acceptable(pc.snap, call.amount, pc.check) && !Fits(d.rules.column, call.amount)
               else Applies(pc.error, pc.snap, call.amount, pc.check)
  {
    RunHasInv(d, lot, actions, s);
    assert CallOk(d, Auction(lot, []), s, c, s.calls[c]);
  }

  /** The call has ended with an error of the database. */
  predicate Failed(call: Call) {
    match call
    case Placing(_, _, _, _, pc) => pc.Refused? && pc.error == DbError
    case Closing(pc) => pc == Finished(Broken)
    case Creating(_) => false
  }

  lemma BidFailsOnlyByAbort(d: Deployment, s: State, c: CallId, call: Call, now: int)
    requires call.Placing? && BidReady(d, s, c, call.pc, now)
    ensures c in BidStep(d, s, c, call, now).calls && !Failed(BidStep(d, s, c, call, now).calls[c])
  {
    match call.pc
    case Begin =>
    case Fetched(_) =>
    case Checked(_, _) =>
    case Inserted(_, _) =>
    case Decided(_, _, _) =>
    case Written(_, _) =>
    case Landed(_, _) =>
    case Rearming(_) =>
    case Rearmed(_) =>
  }

  lemma FailedNext(d: Deployment, s: State, a: Action, c: CallId)
    requires Enabled(d, s, a)
    ensures var t := Next(d, s, a);
            c in t.calls && Failed(t.calls[c]) <==> a == Abort(c) || (c in s.calls && Failed(s.calls[c]))
  {
    if a.Advance? && a.call == c && s.calls[c].Placing? {
      BidFailsOnlyByAbort(d, s, c, s.calls[c], a.now);
    }
  }

  /** A call reports an error of the database exactly when it has met one. */
  lemma {:induction false} FailuresAreReported(d: Deployment, s: State, actions: seq<Action>, t: State, c: CallId)
    requires Reaches(d, s, actions, t)
    ensures c in t.calls && Failed(t.calls[c]) <==> Abort(c) in actions || (c in s.calls && Failed(s.calls[c]))
    decreases |actions|
  {
    if actions != [] {
      FailedNext(d, s, actions[0], c);
      FailuresAreReported(d, Next(d, s, actions[0]), actions[1..], t, c);
      assert actions == [actions[0]] + actions[1..];
    }
  }

  // ---- extensions ----

  /** In every reachable state extensions are late bids, the last of which has set the closing time. */
  lemma ExtensionsAreCounted(d: Deployment, lot: Lot, actions: seq<Action>, s: State)
    requires Run(d, lot, actions, s)
    ensures Replay(d.rules, Auction(lot, []), s.log).Some?
    ensures s.row.extended == |LateBids(d.rules, Auction(lot, []), s.log)|
    ensures SetByLast(d.rules, lot, s.log, LateBids(d.rules, Auction(lot, []), s.log), s.row)
  {
    RunHasHistory(d, lot, actions, s);
    ExtensionsAreLateBids(d.rules, Auction(lot, []), s.log);
  }

  // ---- the end of a lot ----

  /** A closer that has closed the lot has said so once, with its winner and price; any other has sent nothing. */
  lemma CloserTells(d: Deployment, lot: Lot, actions: seq<Action>, s: State, c: CallId)
    requires Run(d, lot, actions, s) && c in s.calls && s.calls[c].Closing? && s.calls[c].closer.Finished?
    ensures var o := s.calls[c].closer.outcome;
            Sent(s.events, c) == if o.DidClose? then [LotClosed(c, o.lot.winner, o.lot.price)] else []
    ensures s.calls[c].closer.outcome.DidClose? ==> s.calls[c].closer.outcome.lot == s.row
  {
    RunHasInv(d, lot, actions, s);
    assert Sent(s.events, c) == Announced(c, s.calls[c]);
    if s.calls[c].closer.outcome.DidClose? {
      ShutIsLast(d, Auction(lot, []), s, c);
    }
  }

  lemma {:induction false} SentIsThere(events: seq<Event>, e: Event)
    requires e in Sent(events, e.call)
    ensures e in events
  {
    if events != [] && events[|events| - 1] != e {
      SentIsThere(events[..|events| - 1], e);
    }
  }

  /** With no call in flight a closed lot has been announced, with the row's winner and price. */
  lemma ClosedIsAnnounced(d: Deployment, lot: Lot, actions: seq<Action>, s: State)
    requires Run(d, lot, actions, s) && Idle(s) && s.row.status == Closed
    ensures exists c :: LotClosed(c, s.row.winner, s.row.price) in s.events
  {
    var init, n := Auction(lot, []), |s.log| - 1;
    RunHasInv(d, lot, actions, s);
    Accounting(d.rules, init, s.log);
    OnlyTheLastCloses(d.rules, init, s.log, n);
    assert Owned(s, n);
    var c := s.log[n].call;
    assert Rank(s.calls[c]) == 0;
    CloserTells(d, lot, actions, s, c);
    SentIsThere(s.events, LotClosed(c, s.row.winner, s.row.price));
  }

  // ---- attempts ----

  /** How often call c reads the row with FOR UPDATE, once for each transaction it opens. */
  function Reads(d: Deployment, s: State, actions: seq<Action>, c: CallId): nat
    decreases |actions|
  {
    if actions == [] || !Enabled(d, s, actions[0]) then 0
    else
      var a := actions[0];
      (if a.Advance? && a.call == c && s.calls[c].Placing? && s.calls[c].pc.Begin? then 1 else 0)
      + Reads(d, Next(d, s, a), actions[1..], c)
  }

  /** The call has opened n transactions. */
  predicate Opened(call: Call, n: nat) {
    match call
    case Placing(_, _, attempt, _, pc) =>
      (match pc
       case Begin => n == attempt <= 2
       case Refused(e, _, _) => n <= 3 && (e == Exhausted ==> n == 3)
       case _ => n == attempt + 1 <= 3)
    case _ => true
  }

  lemma OpenedByBid(d: Deployment, s: State, c: CallId, call: Call, now: int, n: nat)
    requires call.Placing? && BidReady(d, s, c, call.pc, now) && Opened(call, n)
    ensures Opened(BidStep(d, s, c, call, now).calls[c], n + if call.pc.Begin? then 1 else 0)
  {
    match call.pc
    case Begin =>
    case Fetched(_) =>
    case Checked(_, _) =>
    case Inserted(_, _) =>
    case Decided(_, _, _) =>
    case Written(_, _) =>
    case Landed(_, _) =>
    case Rearming(_) =>
    case Rearmed(_) =>
  }

  lemma OpenedNext(d: Deployment, s: State, a: Action, c: CallId, n: nat)
    requires Enabled(d, s, a) && (if c in s.calls then Opened(s.calls[c], n) else n == 0)
    ensures var more := if a.Advance? && a.call == c && s.calls[c].Placing? && s.calls[c].pc.Begin? then 1 else 0;
            if c in Next(d, s, a).calls then Opened(Next(d, s, a).calls[c], n + more) else n + more == 0
  {
    if a.Advance? && a.call == c && s.calls[c].Placing? {
      OpenedByBid(d, s, c, s.calls[c], a.now, n);
    }
  }

  lemma {:induction false} ReadsAreAttempts(d: Deployment, s: State, actions: seq<Action>, t: State, c: CallId, n: nat)
    requires Reaches(d, s, actions, t) && (if c in s.calls then Opened(s.calls[c], n) else n == 0)
    ensures var m := n + Reads(d, s, actions, c);
            if c in t.calls then Opened(t.calls[c], m) else m == 0
    decreases |actions|
  {
    if actions != [] {
      var a := actions[0];
      var more := if a.Advance? && a.call == c && s.calls[c].Placing? && s.calls[c].pc.Begin? then 1 else 0;
      OpenedNext(d, s, a, c, n);
      ReadsAreAttempts(d, Next(d, s, a), actions[1..], t, c, n + more);
    }
  }

  /** A call gives up after three transactions, not before; and none opens a fourth. */
  lemma ThreeAttempts(d: Deployment, lot: Lot, actions: seq<Action>, s: State, c: CallId)
    requires Run(d, lot, actions, s) && c in s.calls && s.calls[c].Placing?
    ensures Reads(d, Init(lot), actions, c) <= 3
    ensures s.calls[c].pc.Refused? && s.calls[c].pc.error == Exhausted ==> Reads(d, Init(lot), actions, c) == 3
    ensures s.calls[c].pc.Accepted? ==> Reads(d, Init(lot), actions, c) >= 1
  {
    ReadsAreAttempts(d, Init(lot), actions, s, c, 0);
  }
}
