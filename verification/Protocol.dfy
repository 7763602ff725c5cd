/**
 Any number of PlaceBid and CloseLot calls on one lot, interleaved step by step.

 A bid transaction reads the row (locking it when the deployment asks for FOR UPDATE), validates,
 inserts its bid, updates the row if the version is the one it read, and commits; until it commits
 nobody sees its bid or its row, and the row it has updated stays locked.  CloseLot has no
 transaction: it reads the row, then the highest bid, then updates under the version check.
 Closers may start at any time: they stand for timers of any number of processes.
 */
module Protocol {
  import opened Wrappers
  import opened Money
  import opened Auction

  type CallId = nat

  datatype Deployment = Deployment(rules: Config, rowLock: bool)

  // ---- where a call stands ----

  datatype BidPc =
    | Begin                                            // about to open a transaction
    | Fetched(snap: Lot)
    | Checked(snap: Lot, check: int)
    | Inserted(snap: Lot, check: int)
    | Decided(snap: Lot, check: int, until: int)
    | Written(snap: Lot, stamp: Stamp)                 // row updated, not committed
    | Landed(lot: Lot, late: bool)                     // committed, nothing announced
    | Rearming(lot: Lot)                               // new_bid sent, about to call scheduleClose
    | Rearmed(lot: Lot)
    | Accepted(lot: Lot, late: bool)
    | Refused(error: Error, snap: Lot, check: int)

  datatype ClosePc =
    | Spawned
    | Loaded(snap: Lot, at: int)
    | Due(snap: Lot, now: int)
    | Topped(snap: Lot, now: int, top: Option<Bid>)
    | Shut(lot: Lot)                                   // committed, nothing announced
    | Deferred(snap: Lot)                              // not due: about to call scheduleClose
    | Finished(outcome: CloseOutcome)

  datatype CloseOutcome = DidClose(lot: Lot) | NotDue | WasNotActive | LostRace | Broken

  datatype CreatePc = Counting(lot: Lot) | Arming(lot: Lot) | Created

  datatype Call =
    | Placing(user: UserId, amount: real, attempt: nat, began: nat, pc: BidPc)
    | Closing(closer: ClosePc)
    | Creating(creator: CreatePc)

  datatype Event =
    | NewBid(call: CallId, user: UserId, amount: real)
    | LotExtended(call: CallId, closing: int, count: nat)
    | LotClosed(call: CallId, winner: Option<UserId>, price: real)

  /** row and bids are the committed tables, owner the transaction holding the row lock, log the history so far. */
  datatype State = State(
    row: Lot, bids: seq<Bid>, owner: Option<CallId>, calls: map<CallId, Call>,
    log: seq<Op>, events: seq<Event>, gauge: int, closures: nat)

  const CREATOR: CallId := 0
  const ATTEMPTS := 3

  /** The row has just been inserted by CreateLot, which still has to count it and arm its timer. */
  function Init(lot: Lot): State {
    State(lot, [], None, map[CREATOR := Creating(Counting(lot))], [], [], 0, 0)
  }

  // ---- steps ----

  /** now is the clock reading of the step, if it takes one; top the row the database picks, if it queries bids. */
  datatype Action =
    | StartBid(call: CallId, user: UserId, amount: real)
    | StartClose(call: CallId)
    | Advance(call: CallId, now: int, top: Option<Bid>)
    | Abort(call: CallId)

  predicate BidReady(d: Deployment, s: State, c: CallId, pc: BidPc, now: int) {
    match pc
    case Begin => d.rowLock ==> s.owner == None
    case Inserted(_, check) => now >= check
    case Decided(_, _, until) => now >= until && (s.owner == None || s.owner == Some(c))
    case Accepted(_, _) => false
    case Refused(_, _, _) => false
    case _ => true
  }

  predicate CloseReady(s: State, pc: ClosePc, now: int, top: Option<Bid>) {
    match pc
    case Loaded(_, at) => now >= at
    case Due(_, _) => IsHighest(top, s.bids)
    case Topped(_, _, _) => s.owner == None
    case Finished(_) => false
    case _ => true
  }

  predicate Abortable(call: Call) {
    match call
    case Placing(_, _, _, _, pc) =>
      pc.Begin? || pc.Fetched? || pc.Checked? || pc.Inserted? || pc.Decided? || pc.Written?
    case Closing(pc) => pc.Spawned? || pc.Loaded? || pc.Due? || pc.Topped?
    case Creating(_) => false
  }

  predicate Enabled(d: Deployment, s: State, a: Action) {
    match a
    case StartBid(c, _, _) => c !in s.calls
    case StartClose(c) => c !in s.calls
    case Advance(c, now, top) =>
      c in s.calls &&
      (match s.calls[c]
       case Placing(_, _, _, _, pc) => BidReady(d, s, c, pc, now)
       case Closing(pc) => CloseReady(s, pc, now, top)
       case Creating(pc) => !pc.Created?)
    case Abort(c) => c in s.calls && Abortable(s.calls[c])
  }

  function Put(s: State, c: CallId, call: Call): State {
    s.(calls := s.calls[c := call])
  }

  function Release(s: State, c: CallId): State {
    if s.owner == Some(c) then s.(owner := None) else s
  }

  /** Rollback and return the error. */
  function Refuse(s: State, c: CallId, call: Call, e: Error, snap: Lot, check: int): State
    requires call.Placing?
  {
    Put(Release(s, c), c, call.(pc := Refused(e, snap, check)))
  }

  /** Rollback on a version conflict, and try again or give up. */
  function Retry(s: State, c: CallId, call: Call, snap: Lot, check: int): State
    requires call.Placing?
  {
    if call.attempt + 1 < ATTEMPTS
    then Put(Release(s, c), c, call.(attempt := call.attempt + 1, pc := Begin))
    else Refuse(s, c, call.(attempt := call.attempt + 1), Exhausted, snap, check)
  }

  function CommitBid(d: Deployment, s: State, c: CallId, call: Call): State
    requires call.Placing? && call.pc.Written?
  {
    var snap, st := call.pc.snap, call.pc.stamp;
    var lot := Raised(d.rules, snap, call.amount, st);
    var done := call.(pc := Landed(lot, Snipes(d.rules, snap, st.until)));
    Put(Release(s, c), c, done).(
      row := Persisted(d.rules, lot),
      bids := s.bids + [Bid(call.user, Stored(d.rules.column, call.amount))],
      log := s.log + [BidOp(c, call.user, call.amount, st)])
  }

  function BidStep(d: Deployment, s: State, c: CallId, call: Call, now: int): State
    requires call.Placing? && BidReady(d, s, c, call.pc, now)
  {
    match call.pc
    case Begin =>
      Put(if d.rowLock then s.(owner := Some(c)) else s, c, call.(pc := Fetched(s.row)))
    case Fetched(snap) =>
      (match Validate(snap, call.amount, now)
       case Some(e) => Refuse(s, c, call, e, snap, now)
       case None => Put(s, c, call.(pc := Checked(snap, now))))
    case Checked(snap, check) =>
      if Fits(d.rules.column, call.amount)
      then Put(s, c, call.(pc := Inserted(snap, check)))
      else Refuse(s, c, call, OutOfRange, snap, check)
    case Inserted(snap, check) =>
      Put(s, c, call.(pc := Decided(snap, check, now)))
    case Decided(snap, check, until) =>
      if s.row.version != snap.version then Retry(s, c, call, snap, check)
      else Put(s.(owner := Some(c)), c, call.(pc := Written(snap, Stamp(check, until, now))))
    case Written(_, _) => CommitBid(d, s, c, call)
    case Landed(lot, late) =>
      Put(s, c, call.(pc := if late then Rearming(lot) else Accepted(lot, false)))
        .(events := s.events + [NewBid(c, call.user, call.amount)])
    case Rearming(lot) => Put(s, c, call.(pc := Rearmed(lot)))
    case Rearmed(lot) =>
      Put(s, c, call.(pc := Accepted(lot, true)))
        .(events := s.events + [LotExtended(c, lot.closing, lot.extended)])
  }

  function CommitClose(s: State, c: CallId, snap: Lot, now: int, top: Option<Bid>): State {
    var lot := Sealed(snap, top);
    Put(s, c, Closing(Shut(lot))).(row := lot, log := s.log + [CloseOp(c, now, top)])
  }

  function CloseStep(s: State, c: CallId, pc: ClosePc, now: int, top: Option<Bid>): State
    requires CloseReady(s, pc, now, top)
  {
    match pc
    case Spawned => Put(s, c, Closing(Loaded(s.row, now)))
    case Loaded(snap, at) =>
      if snap.status != Active then Put(s, c, Closing(Finished(WasNotActive)))
      else if now < snap.closing then Put(s, c, Closing(Deferred(snap)))
      else Put(s, c, Closing(Due(snap, now)))
    case Due(snap, checked) => Put(s, c, Closing(Topped(snap, checked, top)))
    case Topped(snap, checked, best) =>
      if s.row.version != snap.version then Put(s, c, Closing(Finished(LostRace)))
      else CommitClose(s, c, snap, checked, best)
    case Shut(lot) =>
      Put(s, c, Closing(Finished(DidClose(lot))))
        .(events := s.events + [LotClosed(c, lot.winner, lot.price)],
          gauge := s.gauge - 1, closures := s.closures + 1)
    case Deferred(_) => Put(s, c, Closing(Finished(NotDue)))
  }

  function CreateStep(s: State, c: CallId, pc: CreatePc): State
    requires !pc.Created?
  {
    match pc
    case Counting(lot) => Put(s, c, Creating(Arming(lot))).(gauge := s.gauge + 1)
    case Arming(_) => Put(s, c, Creating(Created))
  }

  function Next(d: Deployment, s: State, a: Action): State
    requires Enabled(d, s, a)
  {
    match a
    case StartBid(c, user, amount) => Put(s, c, Placing(user, amount, 0, |s.log|, Begin))
    case StartClose(c) => Put(s, c, Closing(Spawned))
    case Advance(c, now, top) =>
      (match s.calls[c]
       case Placing(_, _, _, _, _) => BidStep(d, s, c, s.calls[c], now)
       case Closing(pc) => CloseStep(s, c, pc, now, top)
       case Creating(pc) => CreateStep(s, c, pc))
    case Abort(c) =>
      (match s.calls[c]
       case Placing(_, _, _, _, _) => Refuse(s, c, s.calls[c], DbError, s.row, 0)
       case Closing(_) => Put(s, c, Closing(Finished(Broken))))
  }

  /** The actions, taken one after another, lead from s to t. */
  predicate Reaches(d: Deployment, s: State, actions: seq<Action>, t: State)
    decreases |actions|
  {
    if actions == [] then s == t
    else Enabled(d, s, actions[0]) && Reaches(d, Next(d, s, actions[0]), actions[1..], t)
  }
}
