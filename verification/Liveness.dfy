/** A guard leads to a close: once no bid is under way, every run is short, and ends with the lot closed. */
module Liveness {
  import opened Wrappers
  import opened Auction
  import opened Protocol
  import opened Invariant
  import opened Steps
  import opened Safety
  import opened Timers
  import opened Wakeup

  /** No bid is under way: each has committed, or ended. */
  predicate Quiet(s: State) {
    forall c :: c in s.calls && s.calls[c].Placing? ==> !Abortable(s.calls[c])
  }

  /** A move of the calls and timers there are: no new bid and no crash. */
  predicate Inside(m: Move) {
    !m.Enter? && !m.Reboot?
  }

  // ---- how much there is to do ----

  /** An upper bound on the moves a call may still lead to, when the lot is open. */
  function OpenWeight(row: Lot, clock: int, arming: bool, call: Call): nat {
    match call
    case Placing(_, _, _, _, pc) =>
      (match pc
       case Landed(_, _) => 16
       case Rearming(_) => if arming then 2 else 14
       case Rearmed(_) => 1
       case _ => 0)
    case Creating(pc) => if pc.Counting? then 15 else if pc.Created? then 0 else if arming then 1 else 14
    case Closing(pc) =>
      (match pc
       case Spawned => if row.closing <= clock then 5 else 10
       case Loaded(snap, at) => if snap.version != row.version then 15 else if snap.closing <= at then 4 else 9
       case Due(_, _) => 3
       case Topped(_, _, _) => 2
       case Shut(_) => 1
       case Deferred(snap) => if arming then 1 else if snap.closing == row.closing then 8 else 14
       case Finished(_) => 0)
  }

  /** The same when it is closed: a closer that reads the row now is soon done. */
  function ClosedWeight(arming: bool, call: Call): nat {
    match call
    case Placing(_, _, _, _, pc) =>
      (match pc
       case Landed(_, _) => 7
       case Rearming(_) => if arming then 2 else 6
       case Rearmed(_) => 1
       case _ => 0)
    case Creating(pc) => if pc.Counting? then 7 else if pc.Created? then 0 else if arming then 1 else 6
    case Closing(pc) =>
      (match pc
       case Spawned => 2
       case Loaded(snap, at) => if snap.status != Active then 1 else if snap.closing <= at then 4 else 7
       case Due(_, _) => 3
       case Topped(_, _, _) => 2
       case Shut(_) => 1
       case Deferred(_) => if arming then 1 else 6
       case Finished(_) => 0)
  }

  function CallWeight(row: Lot, clock: int, arming: bool, call: Call): nat {
    if row.status == Closed then ClosedWeight(arming, call) else OpenWeight(row, clock, arming, call)
  }

  /** A timer of an open lot that goes off before the closing time leads to another one; any other, to the close. */
  function TimerWeight(row: Lot, due: int): nat {
    if row.status == Closed then 3 else if due >= row.closing then 6 else 11
  }

  /** The weight of a call that is not gone, and of its timer. */
  function WeightOf(w: World, c: CallId): nat {
    (if c in w.s.calls && c !in w.gone then CallWeight(w.s.row, w.clock, c in w.arming, w.s.calls[c]) else 0)
    + (if c in w.timers then TimerWeight(w.s.row, w.timers[c]) else 0)
  }

  /** The weight of the calls with ids below n. */
  function Potential(w: World, n: nat): nat {
    if n == 0 then 0 else Potential(w, n - 1) + WeightOf(w, n - 1)
  }

  lemma {:induction false} PotentialIsBounded(w: World, n: nat)
    ensures Potential(w, n) <= 27 * n
  {
    if n > 0 {
      PotentialIsBounded(w, n - 1);
    }
  }

  /** When the weight of c falls, and no other grows. */
  lemma {:induction false} PotentialFalls(w: World, v: World, n: nat, c: CallId)
    requires forall x: CallId :: x != c ==> WeightOf(v, x) <= WeightOf(w, x)
    requires WeightOf(v, c) < WeightOf(w, c)
    ensures Potential(v, n) <= Potential(w, n) - if c < n then 1 else 0
  {
    if n > 0 {
      PotentialFalls(w, v, n - 1, c);
    }
  }

  /** When the weight of c falls by more than that of k grows, and no other grows. */
  lemma {:induction false} PotentialMoves(w: World, v: World, n: nat, c: CallId, k: CallId)
    requires c != k && forall x: CallId :: x != c && x != k ==> WeightOf(v, x) <= WeightOf(w, x)
    ensures Potential(v, n) <= Potential(w, n)
              + (if c < n then WeightOf(v, c) - WeightOf(w, c) else 0)
              + (if k < n then WeightOf(v, k) - WeightOf(w, k) else 0)
  {
    if n > 0 {
      PotentialMoves(w, v, n - 1, c, k);
    }
  }

  // ---- one move ----

  /** New calls get ids below n. */
  predicate Below(m: Move, n: nat) {
    match m
    case SpawnNow(_, _, closer) => closer < n
    case Fire(_, _, closer) => closer < n
    case _ => true
  }

  predicate CallsBelow(s: State, n: nat) {
    forall c :: c in s.calls ==> c < n
  }

  /** What a move may rely on. */
  ghost predicate Calm(d: Deployment, l: Limits, init: Auction, w: World) {
    Timely(d, l) && Awake(d, l, init, w) && Quiet(w.s)
  }

  lemma BidGoesOn(d: Deployment, w: World, c: CallId, now: int)
    requires c in w.s.calls && w.s.calls[c].Placing? && !Abortable(w.s.calls[c])
    requires BidReady(d, w.s, c, w.s.calls[c].pc, now) && ToArm(w.s.calls[c]) == None
    ensures var t := BidStep(d, w.s, c, w.s.calls[c], now);
            && t.row == w.s.row && c in t.calls && t.calls[c].Placing? && !Abortable(t.calls[c])
            && CallWeight(t.row, now, false, t.calls[c]) < CallWeight(w.s.row, w.clock, false, w.s.calls[c])
  {
  }

  /** A closer's step, but for the update that closes the lot. */
  lemma CloserGoesOn(s: State, c: CallId, pc: ClosePc, now: int, top: Option<Bid>, clock: int)
    requires c in s.calls && s.calls[c] == Closing(pc) && CloseReady(s, pc, now, top)
    requires !pc.Deferred? && clock <= now
    requires pc.Loaded? && pc.snap.version == s.row.version ==> pc.snap == s.row
    requires pc.Topped? ==> pc.snap.version != s.row.version
    ensures var t := CloseStep(s, c, pc, now, top);
            && t.row == s.row && c in t.calls && t.calls[c].Closing?
            && CallWeight(t.row, now, false, t.calls[c]) < CallWeight(s.row, clock, false, s.calls[c])
  {
  }

  /** The row stays, or an open lot gets closed. */
  predicate OnlyCloses(row: Lot, after: Lot) {
    after == row || (row.status == Active && after.status == Closed)
  }

  /** The acting call has less to do after its step. */
  lemma OwnWeightFalls(d: Deployment, l: Limits, init: Auction, w: World, c: CallId, now: int, top: Option<Bid>)
    requires Calm(d, l, init, w) && Possible(d, w, Go(c, now, top))
    ensures var t := Next(d, w.s, Advance(c, now, top));
            && OnlyCloses(w.s.row, t.row) && c in t.calls
            && (t.calls[c].Placing? ==> !Abortable(t.calls[c]))
            && CallWeight(t.row, now, false, t.calls[c]) < CallWeight(w.s.row, w.clock, false, w.s.calls[c])
  {
    assert CallOk(d, init, w.s, c, w.s.calls[c]);
    match w.s.calls[c]
    case Placing(_, _, _, _, _) => BidGoesOn(d, w, c, now);
    case Closing(pc) =>
      if (pc.Loaded? || pc.Topped?) && pc.snap.version == w.s.row.version {
        CurrentSnap(d, init, w.s, pc.snap);
      }
      if !(pc.Topped? && pc.snap.version == w.s.row.version) {
        CloserGoesOn(w.s, c, pc, now, top, w.clock);
      }
    case Creating(_) =>
  }

  lemma ClosedIsLighter(row: Lot, clock: int, arming: bool, call: Call)
    ensures ClosedWeight(arming, call) <= OpenWeight(row, clock, arming, call)
  {
  }

  /** Time and the close only make others lighter. */
  lemma OthersGetLighter(w: World, v: World, x: CallId)
    requires OnlyCloses(w.s.row, v.s.row) && w.clock <= v.clock && v.gone == w.gone
    requires x in v.s.calls <==> x in w.s.calls
    requires x in w.s.calls ==> v.s.calls[x] == w.s.calls[x]
    requires x in v.arming <==> x in w.arming
    requires x in v.timers ==> x in w.timers && v.timers[x] == w.timers[x]
    ensures WeightOf(v, x) <= WeightOf(w, x)
  {
    if v.s.row != w.s.row && x in w.s.calls {
      ClosedIsLighter(w.s.row, w.clock, x in w.arming, w.s.calls[x]);
    }
  }

  /** The world after a step of c that lightens c. */
  lemma LighterStep(d: Deployment, w: World, c: CallId, now: int, top: Option<Bid>, n: nat)
    requires TimersOk(w) && Possible(d, w, Go(c, now, top)) && Quiet(w.s) && CallsBelow(w.s, n)
    requires var t := Next(d, w.s, Advance(c, now, top));
             && OnlyCloses(w.s.row, t.row) && c in t.calls
             && (t.calls[c].Placing? ==> !Abortable(t.calls[c]))
             && CallWeight(t.row, now, false, t.calls[c]) < CallWeight(w.s.row, w.clock, false, w.s.calls[c])
    ensures var v := Moved(d, w, Go(c, now, top));
            Quiet(v.s) && CallsBelow(v.s, n) && Potential(v, n) < Potential(w, n)
  {
    var v := Moved(d, w, Go(c, now, top));
    StepIsLocal(d, w.s, Advance(c, now, top));
    assert c !in w.arming;
    forall x: CallId | x != c ensures WeightOf(v, x) <= WeightOf(w, x) {
      OthersGetLighter(w, v, x);
    }
    PotentialFalls(w, v, n, c);
  }

  lemma GoCosts(d: Deployment, l: Limits, init: Auction, w: World, c: CallId, now: int, top: Option<Bid>, n: nat)
    requires Calm(d, l, init, w) && Possible(d, w, Go(c, now, top)) && CallsBelow(w.s, n)
    ensures var v := Moved(d, w, Go(c, now, top));
            Quiet(v.s) && CallsBelow(v.s, n) && Potential(v, n) < Potential(w, n)
  {
    OwnWeightFalls(d, l, init, w, c, now, top);
    LighterStep(d, w, c, now, top, n);
  }

  lemma SetTimerCosts(d: Deployment, w: World, c: CallId, now: int, n: nat)
    requires TimersOk(w) && Quiet(w.s) && Possible(d, w, SetTimer(c, now)) && CallsBelow(w.s, n)
    ensures Potential(Moved(d, w, SetTimer(c, now)), n) < Potential(w, n)
  {
    var v := Moved(d, w, SetTimer(c, now));
    assert c !in w.timers;
    forall x: CallId | x != c ensures WeightOf(v, x) <= WeightOf(w, x) {
      OthersGetLighter(w, v, x);
    }
    PotentialFalls(w, v, n, c);
  }

  lemma RegisterCosts(d: Deployment, w: World, c: CallId, n: nat)
    requires TimersOk(w) && Quiet(w.s) && Possible(d, w, Register(c)) && CallsBelow(w.s, n)
    ensures var v := Moved(d, w, Register(c));
            v.s.row == w.s.row && Quiet(v.s) && CallsBelow(v.s, n) && Potential(v, n) < Potential(w, n)
  {
    var v := Moved(d, w, Register(c));
    ArmedOnce(d, w.s, c, w.clock);
    RegisteredIsLighter(d, w, c);
    forall x: CallId | x != c ensures WeightOf(v, x) <= WeightOf(w, x) {
      OthersGetLighter(w, v, x);
    }
    PotentialFalls(w, v, n, c);
  }

  lemma RegisteredIsLighter(d: Deployment, w: World, c: CallId)
    requires TimersOk(w) && Possible(d, w, Register(c))
    ensures var v := Moved(d, w, Register(c));
            c in v.s.calls && WeightOf(v, c) < WeightOf(w, c)
            && (v.s.calls[c].Placing? ==> !Abortable(v.s.calls[c]))
  {
  }

  lemma SpawnCosts(d: Deployment, w: World, c: CallId, now: int, closer: CallId, n: nat)
    requires TimersOk(w) && Quiet(w.s) && Possible(d, w, SpawnNow(c, now, closer)) && CallsBelow(w.s, n) && closer < n
    ensures var v := Moved(d, w, SpawnNow(c, now, closer));
            v.s.row == w.s.row && Quiet(v.s) && CallsBelow(v.s, n) && Potential(v, n) < Potential(w, n)
  {
    var v := Moved(d, w, SpawnNow(c, now, closer));
    SpawnedIsLighter(d, w, c, now, closer);
    forall x: CallId | x != c && x != closer ensures WeightOf(v, x) <= WeightOf(w, x) {
      OthersGetLighter(w, v, x);
    }
    PotentialMoves(w, v, n, c, closer);
  }

  lemma SpawnedIsLighter(d: Deployment, w: World, c: CallId, now: int, closer: CallId)
    requires TimersOk(w) && Possible(d, w, SpawnNow(c, now, closer))
    ensures var v := Moved(d, w, SpawnNow(c, now, closer));
            && v.s.row == w.s.row
            && v.s.calls == w.s.calls[closer := Closing(Spawned)][c := v.s.calls[c]]
            && (v.s.calls[c].Placing? ==> !Abortable(v.s.calls[c]))
            && WeightOf(v, c) + WeightOf(v, closer) < WeightOf(w, c) + WeightOf(w, closer)
  {
    var u := Next(d, w.s, StartClose(closer));
    ArmedOnce(d, u, c, now);
  }

  lemma FireCosts(d: Deployment, w: World, t: CallId, now: int, closer: CallId, n: nat)
    requires TimersOk(w) && Quiet(w.s) && Possible(d, w, Fire(t, now, closer)) && CallsBelow(w.s, n) && closer < n
    ensures var v := Moved(d, w, Fire(t, now, closer));
            v.s.row == w.s.row && Quiet(v.s) && CallsBelow(v.s, n) && Potential(v, n) < Potential(w, n)
  {
    var v := Moved(d, w, Fire(t, now, closer));
    assert t in w.s.calls && t != closer && closer !in w.timers;
    forall x: CallId | x != t && x != closer ensures WeightOf(v, x) <= WeightOf(w, x) {
      OthersGetLighter(w, v, x);
    }
    FiredIsLighter(d, w, t, now, closer);
    PotentialMoves(w, v, n, t, closer);
  }

  lemma FiredIsLighter(d: Deployment, w: World, t: CallId, now: int, closer: CallId)
    requires TimersOk(w) && Possible(d, w, Fire(t, now, closer)) && t in w.s.calls && closer !in w.timers
    ensures var v := Moved(d, w, Fire(t, now, closer));
            WeightOf(v, t) + WeightOf(v, closer) < WeightOf(w, t) + WeightOf(w, closer)
  {
  }

  /** Every move leaves less to do. */
  lemma MoveCosts(d: Deployment, l: Limits, init: Auction, w: World, m: Move, n: nat)
    requires Calm(d, l, init, w) && Possible(d, w, m) && Prompt(l, w, m) && Inside(m)
    requires CallsBelow(w.s, n) && Below(m, n)
    ensures Calm(d, l, init, Moved(d, w, m)) && CallsBelow(Moved(d, w, m).s, n)
    ensures Potential(Moved(d, w, m), n) < Potential(w, n)
  {
    MoveKeepsAwake(d, l, init, w, m);
    match m
    case Go(c, now, top) => GoCosts(d, l, init, w, c, now, top, n);
    case Drop(_) => assert false;
    case SpawnNow(c, now, closer) => SpawnCosts(d, w, c, now, closer, n);
    case SetTimer(c, now) => SetTimerCosts(d, w, c, now, n);
    case Register(c) => RegisterCosts(d, w, c, n);
    case Fire(t, now, closer) => FireCosts(d, w, t, now, closer, n);
  }

  // ---- whole runs ----

  predicate AllInside(moves: seq<Move>, n: nat) {
    forall i :: 0 <= i < |moves| ==> Inside(moves[i]) && Below(moves[i], n)
  }

  /** With no bid under way and none to come, a run has no more moves than there was to do. */
  lemma {:induction false} QuietRunsAreShort(d: Deployment, l: Limits, init: Auction, w: World, moves: seq<Move>,
                                             v: World, n: nat)
    requires Calm(d, l, init, w) && CallsBelow(w.s, n)
    requires Plays(d, l, w, moves, v) && AllInside(moves, n)
    ensures |moves| + Potential(v, n) <= Potential(w, n)
    ensures Calm(d, l, init, v) && CallsBelow(v.s, n)
    decreases |moves|
  {
    if moves != [] {
      MoveCosts(d, l, init, w, moves[0], n);
      QuietRunsAreShort(d, l, init, Moved(d, w, moves[0]), moves[1..], v, n);
    }
  }

  lemma UnusedIdsWeighNothing(w: World, n: nat)
    requires TimersOk(w) && CallsBelow(w.s, n)
    ensures forall x: CallId :: n <= x ==> WeightOf(w, x) == 0
  {
    assert forall t :: t in w.timers ==> t in w.s.calls;
  }

  lemma {:induction false} NothingAbove(w: World, n: nat, k: nat)
    requires n <= k && forall x: CallId :: n <= x ==> WeightOf(w, x) == 0
    ensures Potential(w, k) == Potential(w, n)
    decreases k
  {
    if n < k {
      NothingAbove(w, n, k - 1);
    }
  }

  // ---- somebody can always move ----

  /** Call c is a closer between its read and its clock check. */
  predicate Loading(w: World, c: CallId) {
    c in w.s.calls && c !in w.gone && w.s.calls[c].Closing? && w.s.calls[c].closer.Loaded?
  }

  /** No closer is past the time it has between the two. */
  ghost predicate OnTime(l: Limits, w: World) {
    forall c :: Loading(w, c) ==> w.clock <= w.s.calls[c].closer.at + l.read
  }

  lemma QuietHasNoOwner(d: Deployment, init: Auction, s: State)
    requires Inv(d, init, s) && Quiet(s)
    ensures s.owner == None
  {
    forall c | c in s.calls ensures s.owner != Some(c) {
      assert CallOk(d, init, s, c, s.calls[c]);
    }
  }

  lemma LoadedStaysOnTime(d: Deployment, l: Limits, w: World, c: CallId)
    requires OnTime(l, w) && Loading(w, c) && Possible(d, w, Go(c, w.clock, None))
    ensures OnTime(l, Moved(d, w, Go(c, w.clock, None)))
  {
    var v := Moved(d, w, Go(c, w.clock, None));
    StepIsLocal(d, w.s, Advance(c, w.clock, None));
    forall x | Loading(v, x) ensures v.clock <= v.s.calls[x].closer.at + l.read {
      assert x != c && Loading(w, x);
    }
  }

  /** A closer that has read the row can check its clock at once. */
  lemma LoadedMoves(d: Deployment, l: Limits, w: World, c: CallId) returns (m: Move)
    requires AllPast(w) && OnTime(l, w) && Loading(w, c)
    ensures Possible(d, w, m) && Prompt(l, w, m) && Inside(m) && Below(m, 0) && OnTime(l, Moved(d, w, m))
  {
    assert ReadingsPast(w.clock, w.s.calls[c]);
    m := Go(c, w.clock, None);
    LoadedStaysOnTime(d, l, w, c);
  }

  /** A watcher that is not between read and check can move as well. */
  lemma WatcherMoves(d: Deployment, l: Limits, init: Auction, w: World, c: CallId, n: nat) returns (m: Move)
    requires Calm(d, l, init, w) && w.s.row.status == Active && CallsBelow(w.s, n) && (forall x :: !Loading(w, x))
    requires c in w.s.calls && c !in w.gone && Watches(l, w.s.row, w.s.calls[c])
    ensures Possible(d, w, m) && Prompt(l, w, m) && Inside(m) && Below(m, n + 1) && OnTime(l, Moved(d, w, m))
  {
    assert !Loading(w, c);
    if ToArm(w.s.calls[c]).Some? {
      m := if c in w.arming then Register(c)
           else if ToArm(w.s.calls[c]).value <= w.clock then SpawnNow(c, w.clock, n) else SetTimer(c, w.clock);
      SchedulingStaysOnTime(d, l, w, c, m, n);
    } else {
      QuietHasNoOwner(d, init, w.s);
      m := Go(c, w.clock, PickHighest(w.s.bids));
      GoStaysOnTime(d, l, w, c, PickHighest(w.s.bids));
    }
  }

  lemma SchedulingStaysOnTime(d: Deployment, l: Limits, w: World, c: CallId, m: Move, n: nat)
    requires CallsBelow(w.s, n) && (forall x :: !Loading(w, x)) && Scheduling(w, c)
    requires m == Register(c) || m == SpawnNow(c, w.clock, n) || m == SetTimer(c, w.clock)
    requires Possible(d, w, m)
    ensures OnTime(l, Moved(d, w, m))
  {
    var v := Moved(d, w, m);
    if m.Register? {
      ArmedOnce(d, w.s, c, w.clock);
    } else if m.SpawnNow? {
      ArmedOnce(d, Next(d, w.s, StartClose(n)), c, w.clock);
    }
    forall x: CallId ensures !Loading(v, x) {
      assert !Loading(w, x);
    }
  }

  lemma GoStaysOnTime(d: Deployment, l: Limits, w: World, c: CallId, top: Option<Bid>)
    requires (forall x :: !Loading(w, x)) && Possible(d, w, Go(c, w.clock, top))
    ensures OnTime(l, Moved(d, w, Go(c, w.clock, top)))
  {
    var v := Moved(d, w, Go(c, w.clock, top));
    StepIsLocal(d, w.s, Advance(c, w.clock, top));
    forall x | Loading(v, x) ensures v.clock <= v.s.calls[x].closer.at + l.read {
      assert !Loading(w, x);
    }
  }

  lemma FireStaysOnTime(d: Deployment, l: Limits, w: World, t: CallId, now: int, closer: CallId)
    requires (forall x :: !Loading(w, x)) && Possible(d, w, Fire(t, now, closer))
    ensures OnTime(l, Moved(d, w, Fire(t, now, closer)))
  {
    var v := Moved(d, w, Fire(t, now, closer));
    forall x: CallId ensures !Loading(v, x) {
      assert !Loading(w, x);
    }
  }

  lemma TimerMoves(d: Deployment, l: Limits, w: World, n: nat) returns (m: Move)
    requires TimersOk(w) && CallsBelow(w.s, n) && (forall x :: !Loading(w, x)) && TimerWatches(w)
    ensures Possible(d, w, m) && Prompt(l, w, m) && Inside(m) && Below(m, n + 1) && OnTime(l, Moved(d, w, m))
  {
    var t := w.registered.value;
    var now := if w.clock < w.timers[t] then w.timers[t] else w.clock;
    m := Fire(t, now, n);
    FireStaysOnTime(d, l, w, t, now, n);
  }

  /** While the lot is open there is a prompt move that is no new bid and no crash, and makes no closer late. */
  lemma SomebodyMoves(d: Deployment, l: Limits, init: Auction, w: World, n: nat) returns (m: Move)
    requires Calm(d, l, init, w) && w.s.row.status == Active && OnTime(l, w) && CallsBelow(w.s, n)
    ensures Possible(d, w, m) && Prompt(l, w, m) && Inside(m) && Below(m, n + 1) && OnTime(l, Moved(d, w, m))
  {
    if c :| Loading(w, c) {
      m := LoadedMoves(d, l, w, c);
    } else if TimerWatches(w) {
      m := TimerMoves(d, l, w, n);
    } else {
      assert Guarded(l, w);
      var c :| c in w.s.calls && c !in w.gone && Watches(l, w.s.row, w.s.calls[c]);
      m := WatcherMoves(d, l, init, w, c, n);
    }
  }

  // ---- so the lot gets closed ----

  ghost predicate Reached(d: Deployment, l: Limits, lot: Lot, clock: int, w: World) {
    exists past :: Plays(d, l, Start(lot, clock), past, w)
  }

  /** A reachable world with no bid under way. */
  ghost predicate Resting(d: Deployment, l: Limits, lot: Lot, clock: int, w: World, n: nat) {
    && Timely(d, l) && Fresh(Auction(lot, [])) && Reached(d, l, lot, clock, w)
    && Quiet(w.s) && CallsBelow(w.s, n)
  }

  /** No closer is late, and every move there still is would make one late. */
  ghost predicate Done(d: Deployment, l: Limits, v: World) {
    OnTime(l, v) && forall m :: Possible(d, v, m) && Prompt(l, v, m) && Inside(m) ==> !OnTime(l, Moved(d, v, m))
  }

  lemma RestingIsCalm(d: Deployment, l: Limits, lot: Lot, clock: int, w: World, n: nat)
    requires Resting(d, l, lot, clock, w, n)
    ensures Calm(d, l, Auction(lot, []), w)
  {
    var past :| Plays(d, l, Start(lot, clock), past, w);
    RunIsAwake(d, l, lot, clock, past, w);
  }

  lemma DoneIsClosed(d: Deployment, l: Limits, init: Auction, v: World, n: nat)
    requires Calm(d, l, init, v) && CallsBelow(v.s, n) && Done(d, l, v)
    ensures v.s.row.status == Closed
  {
    NeverCanceled(d, init, v.s);
    if v.s.row.status == Active {
      var m := SomebodyMoves(d, l, init, v, n);
      assert false;
    }
  }

  /**
   From a reachable world with no bid under way and call ids below n, no run without a new bid or a crash has
   more than 27 n moves, in whatever order calls and timers move; and when it is over, the lot is closed.
   */
  lemma LotsClose(d: Deployment, l: Limits, lot: Lot, clock: int, w: World, n: nat, moves: seq<Move>, v: World, k: nat)
    requires Resting(d, l, lot, clock, w, n) && n <= k
    requires Plays(d, l, w, moves, v) && AllInside(moves, k)
    ensures |moves| <= 27 * n
    ensures Done(d, l, v) ==> v.s.row.status == Closed
  {
    RestingIsCalm(d, l, lot, clock, w, n);
    QuietRunsAreShort(d, l, Auction(lot, []), w, moves, v, k);
    UnusedIdsWeighNothing(w, n);
    NothingAbove(w, n, k);
    PotentialIsBounded(w, n);
    if Done(d, l, v) {
      DoneIsClosed(d, l, Auction(lot, []), v, k);
    }
  }

  // ---- and every run can be brought to its end ----

  /** The first id above n and above those of the move. */
  function Above(m: Move, n: nat): (k: nat)
    ensures n <= k && Below(m, k)
  {
    match m
    case SpawnNow(_, _, closer) => if closer < n then n else closer + 1
    case Fire(_, _, closer) => if closer < n then n else closer + 1
    case _ => n
  }

  lemma ReachedNext(d: Deployment, l: Limits, lot: Lot, clock: int, w: World, m: Move)
    requires Reached(d, l, lot, clock, w) && Possible(d, w, m) && Prompt(l, w, m)
    ensures Reached(d, l, lot, clock, Moved(d, w, m))
  {
    var past :| Plays(d, l, Start(lot, clock), past, w);
    PlayOn(d, l, Start(lot, clock), past, w, m);
  }

  lemma NextCosts(d: Deployment, l: Limits, lot: Lot, clock: int, w: World, m: Move, n: nat, k: nat)
    requires Resting(d, l, lot, clock, w, n) && Possible(d, w, m) && Prompt(l, w, m) && Inside(m)
    requires n <= k && Below(m, k)
    ensures var u := Moved(d, w, m);
            Quiet(u.s) && CallsBelow(u.s, k) && Potential(u, k) < Potential(w, n)
  {
    RestingIsCalm(d, l, lot, clock, w, n);
    UnusedIdsWeighNothing(w, n);
    NothingAbove(w, n, k);
    MoveCosts(d, l, Auction(lot, []), w, m, k);
  }

  lemma PlayFirst(d: Deployment, l: Limits, w: World, m: Move, rest: seq<Move>, v: World)
    requires Possible(d, w, m) && Prompt(l, w, m) && Plays(d, l, Moved(d, w, m), rest, v)
    ensures Plays(d, l, w, [m] + rest, v)
  {
    assert ([m] + rest)[1..] == rest;
  }

  /** There is a run that makes no closer late and goes on until it is over, the lot then being closed. */
  lemma {:induction false} RunsEnd(d: Deployment, l: Limits, lot: Lot, clock: int, w: World, n: nat)
    returns (moves: seq<Move>, v: World, k: nat)
    requires Resting(d, l, lot, clock, w, n) && OnTime(l, w)
    ensures n <= k && Plays(d, l, w, moves, v) && AllInside(moves, k) && Done(d, l, v)
    ensures v.s.row.status == Closed
    decreases Potential(w, n)
  {
    if m :| Possible(d, w, m) && Prompt(l, w, m) && Inside(m) && OnTime(l, Moved(d, w, m)) {
      var u, j := Moved(d, w, m), Above(m, n);
      ReachedNext(d, l, lot, clock, w, m);
      NextCosts(d, l, lot, clock, w, m, n, j);
      var rest;
      rest, v, k := RunsEnd(d, l, lot, clock, u, j);
      PlayFirst(d, l, w, m, rest, v);
      moves := [m] + rest;
    } else {
      moves, v, k := [], w, n;
      RestingIsCalm(d, l, lot, clock, w, n);
      DoneIsClosed(d, l, Auction(lot, []), w, n);
    }
  }
}
