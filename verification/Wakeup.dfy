/** Every active lot has somebody who will come back to close it. */
module Wakeup {
  import opened Wrappers
  import opened Auction
  import opened Protocol
  import opened Invariant
  import opened Steps
  import opened Safety
  import opened Restart
  import opened Timers

  // ---- who will come back ----

  /** Call c will arm a timer or close the lot: it is not going to lose the race for an old version. */
  predicate Watches(l: Limits, row: Lot, call: Call) {
    match call
    case Placing(_, _, _, _, pc) => pc.Rearming? || (pc.Landed? && pc.late)
    case Closing(pc) =>
      (match pc
       case Spawned => true
       case Loaded(snap, at) => snap.version == row.version || at + l.read < snap.closing
       case Due(snap, _) => snap.version == row.version
       case Topped(snap, _, _) => snap.version == row.version
       case Deferred(_) => true
       case _ => false)
    case Creating(pc) => !pc.Created?
  }

  predicate TimerWatches(w: World) {
    w.registered.Some? && w.registered.value in w.timers
  }

  predicate Guarded(l: Limits, w: World) {
    TimerWatches(w) || exists c :: c in w.s.calls && c !in w.gone && Watches(l, w.s.row, w.s.calls[c])
  }

  /** No clock reading a call remembers is in the future. */
  predicate ReadingsPast(clock: int, call: Call) {
    match call
    case Placing(_, _, _, _, Decided(_, _, until)) => until <= clock
    case Placing(_, _, _, _, Written(_, st)) => st.until <= clock && st.next <= clock
    case Closing(Loaded(_, at)) => at <= clock
    case Closing(Due(_, now)) => now <= clock
    case Closing(Topped(_, now, _)) => now <= clock
    case _ => true
  }

  predicate TimersOk(w: World) {
    && (forall t :: t in w.timers ==> w.timers[t] <= w.s.row.closing)
    && (forall t :: t in w.timers ==> t in w.arming || w.registered == Some(t))
    && (forall c :: c in w.arming ==> c in w.timers && Scheduling(w, c))
    && (w.registered.Some? ==> w.registered.value in w.s.calls && Past(w.s.calls[w.registered.value]))
    && w.gone <= w.s.calls.Keys
  }

  predicate AllPast(w: World) {
    forall c :: c in w.s.calls ==> ReadingsPast(w.clock, w.s.calls[c])
  }

  ghost predicate Awake(d: Deployment, l: Limits, init: Auction, w: World) {
    && Inv(d, init, w.s)
    && TimersOk(w)
    && AllPast(w)
    && AllGrounded(d, init, w)
    && AllJustified(l, w)
    && (w.s.row.status == Active ==> Guarded(l, w))
  }

  /**
   The conditions on the deployment: a window, an extension that covers it, timers that are registered
   before they go off, closers that meet no error, restarts before lots are due whose query for active lots
   succeeds, and bid transactions within the window; if the extension is longer than the window, a bid
   transaction and a closer's read together within the window.
   */
  predicate Timely(d: Deployment, l: Limits) {
    && d.rules.extension >= d.rules.window > 0
    && l.registers && l.steady && l.reboots && l.loads && l.tx <= d.rules.window
    && (d.rules.extension > d.rules.window ==> l.tx + l.read <= d.rules.window)
  }

  // ---- no closer comes before the original closing time ----

  /** first is the original closing time: closers come after it, and an extended lot is never far from its closing. */
  predicate Grounded(d: Deployment, first: int, clock: int, call: Call) {
    match call
    case Placing(_, _, _, _, Decided(snap, _, until)) => snap.extended > 0 ==> snap.closing <= until + d.rules.extension
    case Placing(_, _, _, _, Written(snap, st)) => snap.extended > 0 ==> snap.closing <= st.until + d.rules.extension
    case Closing(Spawned) => first <= clock
    case Closing(Loaded(_, at)) => first <= at
    case _ => true
  }

  predicate AllGrounded(d: Deployment, init: Auction, w: World) {
    && (w.s.row.extended > 0 ==> w.s.row.closing <= w.clock + d.rules.extension)
    && (forall t :: t in w.timers ==> init.lot.closing <= w.timers[t])
    && (forall c :: c in w.s.calls ==> Grounded(d, init.lot.closing, w.clock, w.s.calls[c]))
  }

  // ---- why a closer can find its version gone ----

  /** The lot is as in snap, or it has been closed or extended since. */
  predicate Explained(row: Lot, snap: Lot) {
    snap.version == row.version || row.status == Closed || row.extended > snap.extended
  }

  /** A closer that could still close the lot it has read was overtaken by a close or an extension only. */
  predicate Justified(l: Limits, row: Lot, call: Call) {
    match call
    case Closing(Loaded(snap, at)) => Explained(row, snap) || at + l.read < snap.closing
    case Closing(Due(snap, _)) => Explained(row, snap)
    case Closing(Topped(snap, _, _)) => Explained(row, snap)
    case _ => true
  }

  predicate AllJustified(l: Limits, w: World) {
    forall c :: c in w.s.calls ==> Justified(l, w.s.row, w.s.calls[c])
  }

  // ---- snapshots against the row ----

  /**
   A lot some call holds closes no later than the row and no earlier than at first, and is active as long as
   the row is.
   */
  lemma SnapBehindRow(d: Deployment, init: Auction, s: State, snap: Lot)
    requires Inv(d, init, s) && SnapOk(d, init, s.log, snap) && Covers(d.rules)
    ensures init.lot.closing <= snap.closing <= s.row.closing && snap.extended <= s.row.extended
    ensures s.row.status == Active ==> snap.status == Active
  {
    var n := snap.version - 1;
    assert s.log[..|s.log|] == s.log && s.log[..0] == [];
    ClosingNeverDecreases(d.rules, init, s.log, 0, n);
    ClosingNeverDecreases(d.rules, init, s.log, n, |s.log|);
    Accounting(d.rules, init, s.log[..n]);
    if snap.status == Closed {
      NothingFollowsAClose(d.rules, init, s.log[..n], s.log);
    }
  }

  /** A lot of the history closes no earlier than the first and no later than the last. */
  lemma ClosesInBetween(cfg: Config, init: Auction, ops: seq<Op>, n: nat)
    requires Covers(cfg) && AllOrdered(ops) && Replay(cfg, init, ops).Some? && n <= |ops|
    ensures init.lot.closing <= At(cfg, init, ops, n).lot.closing <= Replay(cfg, init, ops).value.lot.closing
  {
    assert ops[..|ops|] == ops && ops[..0] == [];
    ClosingNeverDecreases(cfg, init, ops, 0, n);
    ClosingNeverDecreases(cfg, init, ops, n, |ops|);
  }

  lemma BidBehindRow(d: Deployment, init: Auction, s: State, c: CallId, call: Call, lot: Lot, late: bool)
    requires Inv(d, init, s) && Covers(d.rules)
    requires call.Placing? && OwnBid(d, init, s.log, c, call, lot, late)
    ensures init.lot.closing <= lot.closing <= s.row.closing
  {
    var i := Index(lot);
    AtStep(d.rules, init, s.log, i);
    assert At(d.rules, init, s.log, i) == Replay(d.rules, init, s.log[..i]).value;
    ClosesInBetween(d.rules, init, s.log, i + 1);
  }

  /** What a call passes to scheduleClose is not later than the row, nor earlier than the original closing time. */
  lemma ArmsInTime(d: Deployment, init: Auction, s: State, c: CallId)
    requires Inv(d, init, s) && Covers(d.rules)
    requires c in s.calls && ToArm(s.calls[c]).Some?
    ensures init.lot.closing <= ToArm(s.calls[c]).value <= s.row.closing
  {
    assert CallOk(d, init, s, c, s.calls[c]);
    match s.calls[c]
    case Placing(_, _, _, _, Rearming(lot)) => BidBehindRow(d, init, s, c, s.calls[c], lot, true);
    case Closing(Deferred(snap)) => SnapBehindRow(d, init, s, snap);
    case Creating(Arming(lot)) =>
      assert s.log[..0] == [];
      SnapBehindRow(d, init, s, lot);
  }

  // ---- one move at a time ----

  lemma MoveKeepsInv(d: Deployment, init: Auction, w: World, m: Move)
    requires Inv(d, init, w.s) && Possible(d, w, m)
    ensures Inv(d, init, Moved(d, w, m).s)
  {
    match m
    case Enter(c, user, amount) => StepKeeps(d, init, w.s, StartBid(c, user, amount));
    case Go(c, now, top) => StepKeeps(d, init, w.s, Advance(c, now, top));
    case Drop(c) => StepKeeps(d, init, w.s, Abort(c));
    case SpawnNow(c, now, closer) =>
      StepKeeps(d, init, w.s, StartClose(closer));
      StepKeeps(d, init, Next(d, w.s, StartClose(closer)), Advance(c, now, None));
    case SetTimer(_, _) =>
    case Register(c) => StepKeeps(d, init, w.s, Advance(c, w.clock, None));
    case Fire(_, _, closer) => StepKeeps(d, init, w.s, StartClose(closer));
    case Reboot(now, restorer, loaded) => RestartKeeps(d, init, w.s, now, restorer, loaded);
  }

  /** The step is a commit of call c. */
  predicate Commits(call: Call) {
    (call.Placing? && call.pc.Written?) || (call.Closing? && call.closer.Topped?)
  }

  /** t differs from s in call c only, and in the row only if c was at a commit. */
  predicate Local(s: State, t: State, c: CallId) {
    && c in t.calls && t.calls == s.calls[c := t.calls[c]]
    && (t.row == s.row || (c in s.calls && Commits(s.calls[c])))
  }

  lemma BidIsLocal(d: Deployment, s: State, c: CallId, call: Call, now: int)
    requires c in s.calls && call == s.calls[c] && call.Placing? && BidReady(d, s, c, call.pc, now)
    ensures Local(s, BidStep(d, s, c, call, now), c)
  {
  }

  lemma CloseIsLocal(s: State, c: CallId, pc: ClosePc, now: int, top: Option<Bid>)
    requires c in s.calls && s.calls[c] == Closing(pc) && CloseReady(s, pc, now, top)
    ensures Local(s, CloseStep(s, c, pc, now, top), c)
  {
  }

  /** A protocol step of c changes no other call, and the row only in a commit. */
  lemma StepIsLocal(d: Deployment, s: State, a: Action)
    requires Enabled(d, s, a)
    ensures Local(s, Next(d, s, a), a.call)
    ensures !a.Advance? ==> Next(d, s, a).row == s.row
  {
    if a.Advance? && s.calls[a.call].Placing? {
      BidIsLocal(d, s, a.call, s.calls[a.call], a.now);
    } else if a.Advance? && s.calls[a.call].Closing? {
      CloseIsLocal(s, a.call, s.calls[a.call].closer, a.now, a.top);
    }
  }

  /** One protocol step, with the clock reading it took, remembers no future reading. */
  lemma StepKeepsPast(d: Deployment, w: World, a: Action, clock: int)
    requires Enabled(d, w.s, a) && AllPast(w) && clock >= w.clock
    requires a.Advance? ==> a.now == clock || ToArm(w.s.calls[a.call]).Some?
    ensures AllPast(w.(s := Next(d, w.s, a), clock := clock))
  {
    StepIsLocal(d, w.s, a);
    var v := w.(s := Next(d, w.s, a), clock := clock);
    assert ReadingsPast(clock, v.s.calls[a.call]) by {
      if a.Advance? {
        assert ReadingsPast(w.clock, w.s.calls[a.call]);
        AdvanceKeepsPast(d, w.s, a, w.clock, clock);
      }
    }
    forall x | x in v.s.calls ensures ReadingsPast(clock, v.s.calls[x]) {
      if x != a.call {
        assert ReadingsPast(w.clock, w.s.calls[x]);
      }
    }
  }

  lemma AdvanceKeepsPast(d: Deployment, s: State, a: Action, before: int, clock: int)
    requires Enabled(d, s, a) && a.Advance? && clock >= before
    requires a.now == clock || ToArm(s.calls[a.call]).Some?
    requires ReadingsPast(before, s.calls[a.call])
    ensures ReadingsPast(clock, Next(d, s, a).calls[a.call])
  {
    match s.calls[a.call]
    case Placing(_, _, _, _, pc) =>
    case Closing(pc) =>
    case Creating(_) =>
  }

  lemma RebootKeepsPast(d: Deployment, w: World, now: int, restorer: CallId, loaded: bool)
    requires AllPast(w) && Possible(d, w, Reboot(now, restorer, loaded))
    ensures AllPast(Moved(d, w, Reboot(now, restorer, loaded)))
  {
    var v := Moved(d, w, Reboot(now, restorer, loaded));
    forall c | c in v.s.calls && c in w.s.calls ensures ReadingsPast(now, v.s.calls[c]) {
      assert ReadingsPast(w.clock, w.s.calls[c]);
      assert v.s.calls[c] == Stopped(w.s.row, w.s.calls[c]);
    }
  }

  lemma MoveKeepsPast(d: Deployment, w: World, m: Move)
    requires Possible(d, w, m) && AllPast(w)
    ensures AllPast(Moved(d, w, m))
  {
    match m
    case Enter(c, user, amount) => StepKeepsPast(d, w, StartBid(c, user, amount), w.clock);
    case Go(c, now, top) => StepKeepsPast(d, w, Advance(c, now, top), now);
    case Drop(c) => StepKeepsPast(d, w, Abort(c), w.clock);
    case SpawnNow(c, now, closer) =>
      StepKeepsPast(d, w, StartClose(closer), now);
      StepKeepsPast(d, w.(s := Next(d, w.s, StartClose(closer)), clock := now), Advance(c, now, None), now);
    case SetTimer(_, now) =>
      assert forall c :: c in w.s.calls ==> ReadingsPast(w.clock, w.s.calls[c]);
    case Register(c) => StepKeepsPast(d, w, Advance(c, w.clock, None), w.clock);
    case Fire(_, now, closer) => StepKeepsPast(d, w, StartClose(closer), now);
    case Reboot(now, restorer, loaded) => RebootKeepsPast(d, w, now, restorer, loaded);
  }

  /** After scheduleClose a call has nothing left to schedule. */
  lemma ArmedOnce(d: Deployment, s: State, c: CallId, now: int)
    requires c in s.calls && ToArm(s.calls[c]).Some?
    ensures Enabled(d, s, Advance(c, now, None))
    ensures var t := Next(d, s, Advance(c, now, None));
            && t.calls == s.calls[c := t.calls[c]] && Past(t.calls[c])
            && t.row == s.row
  {
  }

  /** A step that schedules nothing, of a call that has nothing to schedule, leaves what is armed armed. */
  lemma StepKeepsTimers(d: Deployment, w: World, v: World, a: Action)
    requires TimersOk(w) && Enabled(d, w.s, a) && a.call !in w.arming
    requires v.s == Next(d, w.s, a) && v.arming == w.arming
    requires v.timers == w.timers && v.registered == w.registered && v.gone == w.gone
    requires w.s.row.closing <= v.s.row.closing
    ensures TimersOk(v)
  {
    StepIsLocal(d, w.s, a);
    if a.call in w.s.calls && Past(w.s.calls[a.call]) {
      PastStaysPast(d, w.s, a);
    }
  }

  lemma PastStaysPast(d: Deployment, s: State, a: Action)
    requires Enabled(d, s, a) && a.call in s.calls && Past(s.calls[a.call])
    ensures Past(Next(d, s, a).calls[a.call])
  {
  }

  lemma ClearingKeepsTimers(w: World)
    requires TimersOk(w)
    ensures TimersOk(Cleared(w))
  {
  }

  lemma StepMovesClosing(d: Deployment, init: Auction, s: State, a: Action)
    requires Inv(d, init, s) && Covers(d.rules) && Enabled(d, s, a)
    ensures s.row.closing <= Next(d, s, a).row.closing
  {
    var t := Next(d, s, a);
    assert Reaches(d, t, [], t);
    assert Reaches(d, s, [a], t);
    ClosingTimeMovesForward(d, init, s, [a], t);
  }

  lemma SpawnKeepsTimers(d: Deployment, w: World, c: CallId, now: int, closer: CallId)
    requires TimersOk(w) && Possible(d, w, SpawnNow(c, now, closer))
    ensures TimersOk(Moved(d, w, SpawnNow(c, now, closer)))
  {
    var u := w.(s := Next(d, w.s, StartClose(closer)));
    StepKeepsTimers(d, w, u, StartClose(closer));
    ArmedOnce(d, u.s, c, now);
    StepKeepsTimers(d, u, Moved(d, w, SpawnNow(c, now, closer)), Advance(c, now, None));
  }

  lemma RegisterKeepsTimers(d: Deployment, w: World, c: CallId)
    requires TimersOk(w) && Possible(d, w, Register(c))
    ensures TimersOk(Moved(d, w, Register(c)))
  {
    ArmedOnce(d, w.s, c, w.clock);
  }

  lemma GoKeepsTimers(d: Deployment, init: Auction, w: World, c: CallId, now: int, top: Option<Bid>)
    requires Inv(d, init, w.s) && Covers(d.rules) && TimersOk(w) && Possible(d, w, Go(c, now, top))
    ensures TimersOk(Moved(d, w, Go(c, now, top)))
  {
    var u := if Announcing(w.s.calls[c]) then Cleared(w) else w;
    ClearingKeepsTimers(w);
    StepMovesClosing(d, init, w.s, Advance(c, now, top));
    StepKeepsTimers(d, u, Moved(d, w, Go(c, now, top)), Advance(c, now, top));
  }

  /** A timer that may go off is no longer being armed. */
  lemma FireKeepsTimers(d: Deployment, w: World, t: CallId, now: int, closer: CallId)
    requires TimersOk(w) && Possible(d, w, Fire(t, now, closer)) && t !in w.arming
    ensures TimersOk(Moved(d, w, Fire(t, now, closer)))
  {
    var u := w.(timers := w.timers - {t});
    assert TimersOk(u);
    StepKeepsTimers(d, u, Moved(d, w, Fire(t, now, closer)), StartClose(closer));
  }

  lemma SetTimerKeepsTimers(d: Deployment, init: Auction, w: World, c: CallId, now: int)
    requires Inv(d, init, w.s) && Covers(d.rules) && TimersOk(w) && Possible(d, w, SetTimer(c, now))
    ensures TimersOk(Moved(d, w, SetTimer(c, now)))
  {
    ArmsInTime(d, init, w.s, c);
  }

  lemma RebootKeepsTimers(d: Deployment, w: World, now: int, restorer: CallId, loaded: bool)
    requires Possible(d, w, Reboot(now, restorer, loaded))
    ensures TimersOk(Moved(d, w, Reboot(now, restorer, loaded)))
  {
  }

  lemma MoveKeepsTimers(d: Deployment, l: Limits, init: Auction, w: World, m: Move)
    requires Inv(d, init, w.s) && Covers(d.rules) && TimersOk(w) && l.registers
    requires Possible(d, w, m) && Prompt(l, w, m)
    ensures TimersOk(Moved(d, w, m))
  {
    match m
    case Enter(c, user, amount) => StepKeepsTimers(d, w, Moved(d, w, m), StartBid(c, user, amount));
    case Go(c, now, top) => GoKeepsTimers(d, init, w, c, now, top);
    case Drop(c) => StepKeepsTimers(d, w, Moved(d, w, m), Abort(c));
    case SpawnNow(c, now, closer) => SpawnKeepsTimers(d, w, c, now, closer);
    case SetTimer(c, now) => SetTimerKeepsTimers(d, init, w, c, now);
    case Register(c) => RegisterKeepsTimers(d, w, c);
    case Fire(t, now, closer) => FireKeepsTimers(d, w, t, now, closer);
    case Reboot(now, restorer, loaded) => RebootKeepsTimers(d, w, now, restorer, loaded);
  }

  // ---- every move keeps the calls grounded ----

  lemma BidKeepsGrounded(d: Deployment, first: int, s: State, c: CallId, call: Call, now: int)
    requires c in s.calls && s.calls[c] == call && call.Placing? && BidReady(d, s, c, call.pc, now)
    requires call.pc.Inserted? ==> (call.pc.snap.extended > 0 ==> call.pc.snap.closing <= now + d.rules.extension)
    requires call.pc.Decided? ==> Grounded(d, first, now, call)
    ensures Grounded(d, first, now, BidStep(d, s, c, call, now).calls[c])
  {
  }

  /** What a bid has read of the row was extended no later than now. */
  lemma ReadWasExtendedBefore(d: Deployment, init: Auction, s: State, c: CallId, clock: int)
    requires Inv(d, init, s) && Covers(d.rules)
    requires c in s.calls && s.calls[c].Placing? && s.calls[c].pc.Inserted?
    requires s.row.extended > 0 ==> s.row.closing <= clock + d.rules.extension
    ensures var snap := s.calls[c].pc.snap;
            snap.extended > 0 ==> snap.closing <= clock + d.rules.extension
  {
    assert CallOk(d, init, s, c, s.calls[c]);
    SnapBehindRow(d, init, s, s.calls[c].pc.snap);
  }

  lemma CloseAdvanceKeepsGrounded(d: Deployment, first: int, s: State, c: CallId, pc: ClosePc, before: int,
                                  clock: int, top: Option<Bid>)
    requires c in s.calls && s.calls[c] == Closing(pc) && CloseReady(s, pc, clock, top) && before <= clock
    requires Grounded(d, first, before, Closing(pc))
    ensures Grounded(d, first, clock, CloseStep(s, c, pc, clock, top).calls[c])
  {
  }

  /** What the acting call knows after its step. */
  lemma AdvanceKeepsGrounded(d: Deployment, init: Auction, s: State, a: Action, before: int, clock: int)
    requires Inv(d, init, s) && Covers(d.rules) && Enabled(d, s, a) && a.Advance? && before <= clock
    requires a.now == clock || ToArm(s.calls[a.call]).Some?
    requires s.row.extended > 0 ==> s.row.closing <= before + d.rules.extension
    requires Grounded(d, init.lot.closing, before, s.calls[a.call])
    ensures a.call in Next(d, s, a).calls && Grounded(d, init.lot.closing, clock, Next(d, s, a).calls[a.call])
  {
    StepIsLocal(d, s, a);
    if ToArm(s.calls[a.call]).Some? {
      ArmedOnce(d, s, a.call, a.now);
    } else if s.calls[a.call].Placing? {
      if s.calls[a.call].pc.Inserted? {
        ReadWasExtendedBefore(d, init, s, a.call, clock);
      }
      BidKeepsGrounded(d, init.lot.closing, s, a.call, s.calls[a.call], clock);
    } else if s.calls[a.call].Closing? {
      CloseAdvanceKeepsGrounded(d, init.lot.closing, s, a.call, s.calls[a.call].closer, before, clock, a.top);
    }
  }

  /** A new closing time is one extension after a reading that is past. */
  lemma StepKeepsExtension(d: Deployment, init: Auction, s: State, a: Action, before: int, clock: int)
    requires Inv(d, init, s) && Enabled(d, s, a) && before <= clock
    requires a.call in s.calls ==> ReadingsPast(before, s.calls[a.call])
    requires s.row.extended > 0 ==> s.row.closing <= before + d.rules.extension
    ensures var row := Next(d, s, a).row;
            row.extended > 0 ==> row.closing <= clock + d.rules.extension
  {
    StepIsLocal(d, s, a);
    if a.call in s.calls {
      assert CallOk(d, init, s, a.call, s.calls[a.call]);
      if a.Advance? && s.calls[a.call].Closing? && s.calls[a.call].closer.Topped? {
        var snap := s.calls[a.call].closer.snap;
        if snap.version == s.row.version {
          CurrentSnap(d, init, s, snap);
        }
      }
    }
  }

  lemma StepKeepsGrounded(d: Deployment, init: Auction, w: World, v: World, a: Action)
    requires Inv(d, init, w.s) && Covers(d.rules) && Enabled(d, w.s, a) && AllPast(w) && AllGrounded(d, init, w)
    requires v.s == Next(d, w.s, a) && w.clock <= v.clock
    requires forall t :: t in v.timers ==> init.lot.closing <= v.timers[t]
    requires a.Advance? ==> a.now == v.clock || ToArm(w.s.calls[a.call]).Some?
    requires a.StartClose? ==> init.lot.closing <= v.clock
    ensures AllGrounded(d, init, v)
  {
    StepIsLocal(d, w.s, a);
    StepKeepsExtension(d, init, w.s, a, w.clock, v.clock);
    if a.Advance? {
      AdvanceKeepsGrounded(d, init, w.s, a, w.clock, v.clock);
    }
    forall x | x in v.s.calls ensures Grounded(d, init.lot.closing, v.clock, v.s.calls[x]) {
      if x != a.call {
        assert Grounded(d, init.lot.closing, w.clock, w.s.calls[x]);
      }
    }
  }

  lemma SpawnKeepsGrounded(d: Deployment, init: Auction, w: World, c: CallId, now: int, closer: CallId)
    requires Inv(d, init, w.s) && Covers(d.rules) && AllPast(w) && AllGrounded(d, init, w)
    requires Possible(d, w, SpawnNow(c, now, closer))
    ensures AllGrounded(d, init, Moved(d, w, SpawnNow(c, now, closer)))
  {
    var u := w.(s := Next(d, w.s, StartClose(closer)), clock := now);
    ArmsInTime(d, init, w.s, c);
    StepKeeps(d, init, w.s, StartClose(closer));
    StepKeepsPast(d, w, StartClose(closer), now);
    StepKeepsGrounded(d, init, w, u, StartClose(closer));
    StepKeepsGrounded(d, init, u, Moved(d, w, SpawnNow(c, now, closer)), Advance(c, now, None));
  }

  lemma RebootKeepsGrounded(d: Deployment, init: Auction, w: World, now: int, restorer: CallId, loaded: bool)
    requires AllGrounded(d, init, w) && Possible(d, w, Reboot(now, restorer, loaded))
    ensures AllGrounded(d, init, Moved(d, w, Reboot(now, restorer, loaded)))
  {
    var v := Moved(d, w, Reboot(now, restorer, loaded));
    forall c | c in v.s.calls && c in w.s.calls ensures Grounded(d, init.lot.closing, now, v.s.calls[c]) {
      assert Grounded(d, init.lot.closing, w.clock, w.s.calls[c]);
      assert v.s.calls[c] == Stopped(w.s.row, w.s.calls[c]);
    }
  }

  lemma SetTimerKeepsGrounded(d: Deployment, init: Auction, w: World, c: CallId, now: int)
    requires Inv(d, init, w.s) && Covers(d.rules) && AllGrounded(d, init, w) && Possible(d, w, SetTimer(c, now))
    ensures AllGrounded(d, init, Moved(d, w, SetTimer(c, now)))
  {
    ArmsInTime(d, init, w.s, c);
    assert forall x :: x in w.s.calls ==> Grounded(d, init.lot.closing, w.clock, w.s.calls[x]);
  }

  lemma MoveKeepsGrounded(d: Deployment, init: Auction, w: World, m: Move)
    requires Inv(d, init, w.s) && Covers(d.rules) && AllPast(w) && AllGrounded(d, init, w)
    requires Possible(d, w, m)
    ensures AllGrounded(d, init, Moved(d, w, m))
  {
    var v := Moved(d, w, m);
    match m
    case Enter(c, user, amount) => StepKeepsGrounded(d, init, w, v, StartBid(c, user, amount));
    case Go(c, now, top) => StepKeepsGrounded(d, init, w, v, Advance(c, now, top));
    case Drop(c) => StepKeepsGrounded(d, init, w, v, Abort(c));
    case SpawnNow(c, now, closer) => SpawnKeepsGrounded(d, init, w, c, now, closer);
    case SetTimer(c, now) => SetTimerKeepsGrounded(d, init, w, c, now);
    case Register(c) => StepKeepsGrounded(d, init, w, v, Advance(c, w.clock, None));
    case Fire(_, _, closer) => StepKeepsGrounded(d, init, w, v, StartClose(closer));
    case Reboot(now, restorer, loaded) => RebootKeepsGrounded(d, init, w, now, restorer, loaded);
  }

  // ---- every move keeps the closers justified ----

  /** A commit that overtakes a closer extends or closes the lot, or comes before the closer's clock check. */
  lemma CommitJustifies(d: Deployment, l: Limits, init: Auction, w: World, b: CallId, now: int, c: CallId)
    requires Timely(d, l) && Inv(d, init, w.s) && AllPast(w) && AllGrounded(d, init, w) && AllJustified(l, w)
    requires b in w.s.calls && w.s.calls[b].Placing? && w.s.calls[b].pc.Written?
    requires w.clock <= now <= w.s.calls[b].pc.stamp.until + l.tx
    requires c in w.s.calls && c != b
    ensures Justified(l, CommitBid(d, w.s, b, w.s.calls[b]).row, w.s.calls[c])
  {
    assert CallOk(d, init, w.s, b, w.s.calls[b]) && CallOk(d, init, w.s, c, w.s.calls[c]);
    assert Justified(l, w.s.row, w.s.calls[c]);
    if w.s.calls[c].Closing? {
      var pc := w.s.calls[c].closer;
      if pc.Loaded? || pc.Due? || pc.Topped? {
        SnapBehindRow(d, init, w.s, pc.snap);
        if pc.snap.version == w.s.row.version && !Snipes(d.rules, w.s.row, w.s.calls[b].pc.stamp.until) {
          assert ReadingsPast(w.clock, w.s.calls[c]);
          assert Grounded(d, init.lot.closing, w.clock, w.s.calls[c])
              && Grounded(d, init.lot.closing, w.clock, w.s.calls[b]);
          WatcherSurvives(d, l, init, w.s, CommitBid(d, w.s, b, w.s.calls[b]).row, c, w.clock,
                          w.s.calls[b].pc.stamp.until);
        }
      }
    }
  }

  /** A closer's own step, other than its update. */
  lemma CloserStaysJustified(d: Deployment, l: Limits, s: State, c: CallId, pc: ClosePc, now: int, top: Option<Bid>)
    requires c in s.calls && s.calls[c] == Closing(pc) && CloseReady(s, pc, now, top)
    requires Justified(l, s.row, Closing(pc)) && (pc.Loaded? ==> now <= pc.at + l.read)
    ensures var t := CloseStep(s, c, pc, now, top);
            Justified(l, t.row, t.calls[c]) && (t.row == s.row || t.row.status == Closed)
  {
  }

  /** Every other call stays justified when c takes a step. */
  lemma OthersStayJustified(d: Deployment, l: Limits, init: Auction, w: World, c: CallId, now: int, top: Option<Bid>,
                            x: CallId)
    requires Timely(d, l) && Inv(d, init, w.s) && AllPast(w) && AllGrounded(d, init, w) && AllJustified(l, w)
    requires Possible(d, w, Go(c, now, top)) && Prompt(l, w, Go(c, now, top))
    requires x != c && x in w.s.calls
    ensures Justified(l, Next(d, w.s, Advance(c, now, top)).row, w.s.calls[x])
  {
    assert Justified(l, w.s.row, w.s.calls[x]) && Justified(l, w.s.row, w.s.calls[c]);
    StepIsLocal(d, w.s, Advance(c, now, top));
    if w.s.calls[c].Placing? && w.s.calls[c].pc.Written? {
      CommitJustifies(d, l, init, w, c, now, x);
    } else if w.s.calls[c].Closing? {
      CloserStaysJustified(d, l, w.s, c, w.s.calls[c].closer, now, top);
    }
  }

  /** So does c itself. */
  lemma OwnStaysJustified(d: Deployment, l: Limits, w: World, c: CallId, now: int, top: Option<Bid>)
    requires Possible(d, w, Go(c, now, top)) && Prompt(l, w, Go(c, now, top))
    requires Justified(l, w.s.row, w.s.calls[c])
    ensures var t := Next(d, w.s, Advance(c, now, top));
            c in t.calls && Justified(l, t.row, t.calls[c])
  {
    StepIsLocal(d, w.s, Advance(c, now, top));
    if w.s.calls[c].Closing? {
      CloserStaysJustified(d, l, w.s, c, w.s.calls[c].closer, now, top);
    }
  }

  lemma GoKeepsJustified(d: Deployment, l: Limits, init: Auction, w: World, c: CallId, now: int, top: Option<Bid>)
    requires Timely(d, l) && Inv(d, init, w.s) && AllPast(w) && AllGrounded(d, init, w) && AllJustified(l, w)
    requires Possible(d, w, Go(c, now, top)) && Prompt(l, w, Go(c, now, top))
    ensures AllJustified(l, Moved(d, w, Go(c, now, top)))
  {
    var t := Next(d, w.s, Advance(c, now, top));
    StepIsLocal(d, w.s, Advance(c, now, top));
    OwnStaysJustified(d, l, w, c, now, top);
    forall x | x in t.calls && x != c ensures Justified(l, t.row, t.calls[x]) {
      OthersStayJustified(d, l, init, w, c, now, top, x);
    }
  }

  /** A step that leaves the row alone and leads the calling call to no such point. */
  lemma QuietKeepsJustified(d: Deployment, l: Limits, w: World, v: World, a: Action)
    requires AllJustified(l, w) && Enabled(d, w.s, a) && v.s == Next(d, w.s, a) && v.s.row == w.s.row
    requires !a.Advance? || ToArm(w.s.calls[a.call]).Some?
    ensures AllJustified(l, v)
  {
    StepIsLocal(d, w.s, a);
    if a.Advance? {
      ArmedOnce(d, w.s, a.call, a.now);
    }
    forall x | x in v.s.calls ensures Justified(l, v.s.row, v.s.calls[x]) {
      if x != a.call {
        assert Justified(l, w.s.row, w.s.calls[x]);
      }
    }
  }

  lemma SpawnKeepsJustified(d: Deployment, l: Limits, w: World, c: CallId, now: int, closer: CallId)
    requires AllJustified(l, w) && Possible(d, w, SpawnNow(c, now, closer))
    ensures AllJustified(l, Moved(d, w, SpawnNow(c, now, closer)))
  {
    var u := w.(s := Next(d, w.s, StartClose(closer)));
    QuietKeepsJustified(d, l, w, u, StartClose(closer));
    ArmedOnce(d, u.s, c, now);
    QuietKeepsJustified(d, l, u, Moved(d, w, SpawnNow(c, now, closer)), Advance(c, now, None));
  }

  lemma RebootKeepsJustified(d: Deployment, l: Limits, w: World, now: int, restorer: CallId, loaded: bool)
    requires AllJustified(l, w) && Possible(d, w, Reboot(now, restorer, loaded))
    ensures AllJustified(l, Moved(d, w, Reboot(now, restorer, loaded)))
  {
    var v := Moved(d, w, Reboot(now, restorer, loaded));
    forall c | c in v.s.calls && c in w.s.calls ensures Justified(l, v.s.row, v.s.calls[c]) {
      assert Justified(l, w.s.row, w.s.calls[c]);
      assert v.s.calls[c] == Stopped(w.s.row, w.s.calls[c]);
    }
  }

  lemma MoveKeepsJustified(d: Deployment, l: Limits, init: Auction, w: World, m: Move)
    requires Timely(d, l) && Inv(d, init, w.s) && AllPast(w) && AllGrounded(d, init, w) && AllJustified(l, w)
    requires Possible(d, w, m) && Prompt(l, w, m)
    ensures AllJustified(l, Moved(d, w, m))
  {
    var v := Moved(d, w, m);
    match m
    case Enter(c, user, amount) => QuietKeepsJustified(d, l, w, v, StartBid(c, user, amount));
    case Go(c, now, top) => GoKeepsJustified(d, l, init, w, c, now, top);
    case Drop(c) => QuietKeepsJustified(d, l, w, v, Abort(c));
    case SpawnNow(c, now, closer) =>
      SpawnKeepsJustified(d, l, w, c, now, closer);
    case SetTimer(_, _) =>
    case Register(c) =>
      ArmedOnce(d, w.s, c, w.clock);
      QuietKeepsJustified(d, l, w, v, Advance(c, w.clock, None));
    case Fire(_, _, closer) => QuietKeepsJustified(d, l, w, v, StartClose(closer));
    case Reboot(now, restorer, loaded) => RebootKeepsJustified(d, l, w, now, restorer, loaded);
  }

  // ---- the guard is handed on ----

  lemma GuardedBy(l: Limits, w: World, c: CallId)
    requires c in w.s.calls && c !in w.gone && Watches(l, w.s.row, w.s.calls[c])
    ensures Guarded(l, w)
  {
  }

  /** A step that leaves the row alone hands the guard on, unless the call that steps held it. */
  lemma OthersStillWatch(d: Deployment, l: Limits, w: World, v: World, a: Action)
    requires Guarded(l, w) && Enabled(d, w.s, a) && v.s == Next(d, w.s, a) && v.s.row == w.s.row
    requires v.timers == w.timers && v.registered == w.registered && v.gone == w.gone
    requires a.call in w.s.calls && Watches(l, w.s.row, w.s.calls[a.call]) ==> Watches(l, v.s.row, v.s.calls[a.call])
    ensures Guarded(l, v)
  {
    StepIsLocal(d, w.s, a);
    if !TimerWatches(w) {
      var c :| c in w.s.calls && c !in w.gone && Watches(l, w.s.row, w.s.calls[c]);
      assert c in v.s.calls && Watches(l, v.s.row, v.s.calls[c]);
    }
  }

  /** A bid that commits without extending cannot have outdated a closer that was about to act. */
  lemma CommitSparesWatchers(d: Deployment, l: Limits, init: Auction, w: World, v: World, b: CallId, now: int)
    requires Timely(d, l) && Inv(d, init, w.s) && AllPast(w) && AllGrounded(d, init, w) && Guarded(l, w)
    requires b in w.s.calls && b !in w.gone && w.s.calls[b].Placing? && w.s.calls[b].pc.Written?
    requires now >= w.clock && now <= w.s.calls[b].pc.stamp.until + l.tx
    requires v.s == CommitBid(d, w.s, b, w.s.calls[b])
    requires v.timers == w.timers && v.registered == w.registered && v.gone == w.gone
    ensures Guarded(l, v)
  {
    assert CallOk(d, init, w.s, b, w.s.calls[b]);
    if Snipes(d.rules, w.s.row, w.s.calls[b].pc.stamp.until) {
      GuardedBy(l, v, b);
    } else if !TimerWatches(w) {
      var c :| c in w.s.calls && c !in w.gone && Watches(l, w.s.row, w.s.calls[c]);
      assert CallOk(d, init, w.s, c, w.s.calls[c]);
      assert ReadingsPast(w.clock, w.s.calls[c]);
      assert Grounded(d, init.lot.closing, w.clock, w.s.calls[c])
          && Grounded(d, init.lot.closing, w.clock, w.s.calls[b]);
      WatcherSurvives(d, l, init, w.s, v.s.row, c, w.clock, w.s.calls[b].pc.stamp.until);
      GuardedBy(l, v, c);
    }
  }

  /** A lot that was never extended still closes when it did at first. */
  lemma NeverExtended(d: Deployment, init: Auction, s: State)
    requires Inv(d, init, s) && Covers(d.rules) && s.row.extended == 0
    ensures s.row.closing == init.lot.closing
  {
    assert s.log[..|s.log|] == s.log && s.log[..0] == [];
    ClosingNeverDecreases(d.rules, init, s.log, 0, |s.log|);
  }

  /**
   The arithmetic of it.  A current closer that read its clock before the commit still finds the lot not
   due; and when the extension is the window, a lot that a bid does not extend was never extended, so
   that no closer has come yet.
   */
  lemma WatcherSurvives(d: Deployment, l: Limits, init: Auction, s: State, after: Lot, c: CallId, clock: int,
                        until: int)
    requires Timely(d, l) && Inv(d, init, s) && c in s.calls && Watches(l, s.row, s.calls[c])
    requires ReadingsPast(clock, s.calls[c]) && clock <= until + l.tx
    requires s.row.closing - until > d.rules.window
    requires Grounded(d, init.lot.closing, clock, s.calls[c])
    requires s.row.extended > 0 ==> s.row.closing <= until + d.rules.extension
    ensures Watches(l, after, s.calls[c])
  {
    assert CallOk(d, init, s, c, s.calls[c]);
    if s.row.extended == 0 {
      NeverExtended(d, init, s);
    }
    match s.calls[c]
    case Placing(_, _, _, _, _) =>
    case Creating(_) =>
    case Closing(pc) =>
      if (pc.Loaded? || pc.Due? || pc.Topped?) && pc.snap.version == s.row.version {
        CurrentSnap(d, init, s, pc.snap);
      }
  }

  /** What a closer may rely on, of its snapshot and of the row. */
  predicate CloserKnows(d: Deployment, init: Auction, s: State, c: CallId, pc: ClosePc) {
    && c in s.calls && s.calls[c] == Closing(pc) && CloseOk(d, init, s, c, pc)
    && (pc.Loaded? ==> pc.snap.status == Active)
  }

  lemma CloserSteps(d: Deployment, l: Limits, init: Auction, s: State, c: CallId, pc: ClosePc, now: int,
                    top: Option<Bid>)
    requires CloserKnows(d, init, s, c, pc) && CloseReady(s, pc, now, top)
    requires Watches(l, s.row, Closing(pc)) && !pc.Deferred?
    requires pc.Loaded? ==> now <= pc.at + l.read
    ensures var t := CloseStep(s, c, pc, now, top);
            t.row.status == Closed || (t.row == s.row && c in t.calls && Watches(l, t.row, t.calls[c]))
  {
  }

  /** A watcher that takes a step of its own goes on watching, or closes the lot. */
  lemma WatcherSteps(d: Deployment, l: Limits, init: Auction, w: World, c: CallId, now: int, top: Option<Bid>)
    requires Timely(d, l) && Inv(d, init, w.s) && c in w.s.calls && Watches(l, w.s.row, w.s.calls[c])
    requires Possible(d, w, Go(c, now, top)) && Prompt(l, w, Go(c, now, top))
    requires w.s.row.status == Active
    ensures var t := Next(d, w.s, Advance(c, now, top));
            t.row.status == Closed || (t.row == w.s.row && c in t.calls && Watches(l, t.row, t.calls[c]))
  {
    assert CallOk(d, init, w.s, c, w.s.calls[c]);
    if w.s.calls[c].Closing? {
      var pc := w.s.calls[c].closer;
      if pc.Loaded? {
        SnapBehindRow(d, init, w.s, pc.snap);
      }
      CloserSteps(d, l, init, w.s, c, pc, now, top);
    }
  }

  lemma GoKeepsGuard(d: Deployment, l: Limits, init: Auction, w: World, c: CallId, now: int, top: Option<Bid>)
    requires Timely(d, l) && Awake(d, l, init, w)
    requires Possible(d, w, Go(c, now, top)) && Prompt(l, w, Go(c, now, top))
    requires w.s.row.status == Active && Next(d, w.s, Advance(c, now, top)).row.status == Active
    ensures Guarded(l, Moved(d, w, Go(c, now, top)))
  {
    var v, a := Moved(d, w, Go(c, now, top)), Advance(c, now, top);
    if Announcing(w.s.calls[c]) {
      ShutIsLast(d, init, w.s, c);
      assert false;
    }
    if w.s.calls[c].Placing? && w.s.calls[c].pc.Written? {
      CommitSparesWatchers(d, l, init, w, v, c, now);
    } else {
      StepIsLocal(d, w.s, a);
      if Watches(l, w.s.row, w.s.calls[c]) {
        WatcherSteps(d, l, init, w, c, now, top);
      }
      OthersStillWatch(d, l, w, v, a);
    }
  }

  /** So is it by every move that is not a step of a call. */
  lemma OtherMoveKeepsGuard(d: Deployment, l: Limits, w: World, m: Move)
    requires TimersOk(w) && Guarded(l, w) && Possible(d, w, m) && !m.Go?
    requires m.Reboot? ==> m.loaded && IsRestored(w.s.row, m.now)
    requires m.Drop? ==> w.s.calls[m.call].Placing?
    ensures Guarded(l, Moved(d, w, m))
  {
    var v := Moved(d, w, m);
    match m
    case Enter(c, user, amount) => OthersStillWatch(d, l, w, v, StartBid(c, user, amount));
    case Drop(c) => OthersStillWatch(d, l, w, v, Abort(c));
    case SpawnNow(c, now, closer) =>
      ArmedOnce(d, Next(d, w.s, StartClose(closer)), c, now);
      GuardedBy(l, v, closer);
    case SetTimer(c, _) => GuardedBy(l, v, c);
    case Register(c) => assert TimerWatches(v);
    case Fire(_, _, closer) => GuardedBy(l, v, closer);
    case Reboot(_, restorer, _) => GuardedBy(l, v, restorer);
  }

  lemma MoveKeepsGuard(d: Deployment, l: Limits, init: Auction, w: World, m: Move)
    requires Timely(d, l) && Awake(d, l, init, w)
    requires Possible(d, w, m) && Prompt(l, w, m)
    requires w.s.row.status == Active && Moved(d, w, m).s.row.status == Active
    ensures Guarded(l, Moved(d, w, m))
  {
    if m.Go? {
      GoKeepsGuard(d, l, init, w, m.call, m.now, m.top);
    } else {
      OtherMoveKeepsGuard(d, l, w, m);
    }
  }

  lemma MoveKeepsAwake(d: Deployment, l: Limits, init: Auction, w: World, m: Move)
    requires Timely(d, l) && Awake(d, l, init, w)
    requires Possible(d, w, m) && Prompt(l, w, m)
    ensures Awake(d, l, init, Moved(d, w, m))
  {
    var v := Moved(d, w, m);
    MoveKeepsInv(d, init, w, m);
    MoveKeepsPast(d, w, m);
    MoveKeepsTimers(d, l, init, w, m);
    MoveKeepsGrounded(d, init, w, m);
    MoveKeepsJustified(d, l, init, w, m);
    if v.s.row.status == Active {
      ActiveBefore(d, init, w, m);
      MoveKeepsGuard(d, l, init, w, m);
    }
  }

  lemma NeverCanceled(d: Deployment, init: Auction, s: State)
    requires Inv(d, init, s)
    ensures s.row.status == Active || s.row.status == Closed
  {
    Accounting(d.rules, init, s.log);
  }

  /** No step reopens a lot. */
  lemma StepStaysClosed(d: Deployment, init: Auction, s: State, a: Action)
    requires Inv(d, init, s) && Enabled(d, s, a) && s.row.status == Closed
    ensures Next(d, s, a).row == s.row
  {
    var t := Next(d, s, a);
    assert Reaches(d, t, [], t);
    assert Reaches(d, s, [a], t);
    ClosingIsFinal(d, init, s, [a], t);
  }

  /** Only steps of calls change the row. */
  lemma OtherMoveKeepsRow(d: Deployment, w: World, m: Move)
    requires Possible(d, w, m) && !m.Go?
    ensures Moved(d, w, m).s.row == w.s.row
  {
  }

  /** No move does. */
  lemma ActiveBefore(d: Deployment, init: Auction, w: World, m: Move)
    requires Inv(d, init, w.s) && Possible(d, w, m)
    requires Moved(d, w, m).s.row.status == Active
    ensures w.s.row.status == Active
  {
    if m.Go? {
      NeverCanceled(d, init, w.s);
      if w.s.row.status == Closed {
        StepStaysClosed(d, init, w.s, Advance(m.call, m.now, m.top));
      }
    } else {
      OtherMoveKeepsRow(d, w, m);
    }
  }

  lemma {:induction false} PlayKeepsAwake(d: Deployment, l: Limits, init: Auction, w: World, moves: seq<Move>, v: World)
    requires Timely(d, l) && Awake(d, l, init, w) && Plays(d, l, w, moves, v)
    ensures Awake(d, l, init, v)
    decreases |moves|
  {
    if moves != [] {
      MoveKeepsAwake(d, l, init, w, moves[0]);
      PlayKeepsAwake(d, l, init, Moved(d, w, moves[0]), moves[1..], v);
    }
  }

  lemma RunIsAwake(d: Deployment, l: Limits, lot: Lot, clock: int, moves: seq<Move>, w: World)
    requires Timely(d, l) && Fresh(Auction(lot, [])) && Plays(d, l, Start(lot, clock), moves, w)
    ensures Awake(d, l, Auction(lot, []), w)
  {
    InitKeeps(d, lot);
    GuardedBy(l, Start(lot, clock), CREATOR);
    assert AllPast(Start(lot, clock));
    PlayKeepsAwake(d, l, Auction(lot, []), Start(lot, clock), moves, w);
  }

  /**
   While a lot is active, somebody will come back for it: its registered timer, set no later than
   closing_at, or a call that still has to arm one, or a closer that is not going to lose the race.
   */
  lemma NeverStranded(d: Deployment, l: Limits, lot: Lot, clock: int, moves: seq<Move>, w: World)
    requires Timely(d, l) && Fresh(Auction(lot, [])) && Plays(d, l, Start(lot, clock), moves, w)
    ensures w.s.row.status == Active ==> Guarded(l, w)
    ensures forall t :: t in w.timers ==> w.timers[t] <= w.s.row.closing
  {
    RunIsAwake(d, l, lot, clock, moves, w);
  }

  /**
   A closer's update finds its version gone only if the lot has been closed by another, or extended since it
   was read.
   */
  lemma ConflictMeans(d: Deployment, l: Limits, lot: Lot, clock: int, moves: seq<Move>, w: World, c: CallId)
    requires Timely(d, l) && Fresh(Auction(lot, [])) && Plays(d, l, Start(lot, clock), moves, w)
    requires c in w.s.calls && w.s.calls[c].Closing? && w.s.calls[c].closer.Topped?
    ensures var snap := w.s.calls[c].closer.snap;
            snap.version == w.s.row.version || w.s.row.status == Closed || w.s.row.extended > snap.extended
  {
    RunIsAwake(d, l, lot, clock, moves, w);
    assert Justified(l, w.s.row, w.s.calls[c]);
  }

  // ---- restarts ----

  /**
   A restart leaves an active lot with a guard exactly when it comes before the lot is due and its query for
   active lots succeeds; when it comes after, the lot is left for good.
   */
  lemma RestartGuardsExactlyWhen(d: Deployment, l: Limits, w: World, now: int, restorer: CallId, loaded: bool)
    requires Possible(d, w, Reboot(now, restorer, loaded)) && w.s.row.status == Active
    ensures var v := Moved(d, w, Reboot(now, restorer, loaded));
            && v.s.row == w.s.row
            && (Guarded(l, v) <==> loaded && now < w.s.row.closing)
            && (now > w.s.row.closing ==> Dead(w.s.row, v))
  {
    var v := Moved(d, w, Reboot(now, restorer, loaded));
    if loaded && now < w.s.row.closing {
      GuardedBy(l, v, restorer);
    }
  }

  // ---- what happens without the limits ----

  /** The lot is active and past its closing time, no timer is left and every call is over. */
  predicate Stranded(w: World) {
    && w.s.row.status == Active && w.clock > w.s.row.closing
    && w.timers == map[] && w.arming == {}
    && Idle(w.s)
  }

  /** After being stranded there are only bids, all of them too late. */
  ghost predicate Dead(row: Lot, w: World) {
    && w.s.row == row && row.status == Active && w.clock > row.closing
    && w.timers == map[] && w.arming == {}
    && forall c :: c in w.s.calls ==>
         c in w.gone || Rank(w.s.calls[c]) == 0
         || (w.s.calls[c].Placing? && (w.s.calls[c].pc.Begin? || w.s.calls[c].pc == Fetched(row)))
  }

  lemma DeadStaysDead(d: Deployment, row: Lot, w: World, m: Move)
    requires Dead(row, w) && Possible(d, w, m)
    ensures Dead(row, Moved(d, w, m))
  {
    match m
    case Enter(_, _, _) =>
    case Go(c, now, top) => StepIsLocal(d, w.s, Advance(c, now, top));
    case Drop(c) => StepIsLocal(d, w.s, Abort(c));
    case Reboot(_, _, _) =>
    case _ => assert false;
  }

  /** A stranded lot stays active for ever: no bid is accepted and nobody closes it. */
  lemma {:induction false} StrandedForEver(d: Deployment, l: Limits, row: Lot, w: World, moves: seq<Move>, v: World)
    requires Dead(row, w) && Plays(d, l, w, moves, v)
    ensures v.s.row == row && row.status == Active
    decreases |moves|
  {
    if moves != [] {
      DeadStaysDead(d, row, w, moves[0]);
      StrandedForEver(d, l, row, Moved(d, w, moves[0]), moves[1..], v);
    }
  }
}
