/**
 The timers of one process.

 This layer drives the protocol and adds the timers.  Here closers start only from timers and from
 scheduleClose, and clock readings never run backwards.
 scheduleClose is two steps, as in the program: creating the timer, which may fire from then on, and
 registering it under the mutex, which stops the timer registered before.  The process may crash at any
 moment and start again.
 */
module Timers {
  import opened Wrappers
  import opened Auction
  import opened Protocol
  import opened Restart

  /**
   timers are the ones that will still fire, by the call that created them; registered is the entry
   of the engine's map; arming are the calls between the two halves of scheduleClose; gone are the calls
   of earlier lives of the process, which take no more steps.
   */
  datatype World = World(
    s: State, timers: map<CallId, int>, registered: Option<CallId>, arming: set<CallId>, clock: int, gone: set<CallId>)

  function Start(lot: Lot, clock: int): World {
    World(Init(lot), map[], None, {}, clock, {})
  }

  datatype Move =
    | Enter(call: CallId, user: UserId, amount: real)
    | Go(call: CallId, now: int, top: Option<Bid>)
    | Drop(call: CallId)
    | SpawnNow(call: CallId, now: int, closer: CallId)   // scheduleClose of a lot already due
    | SetTimer(call: CallId, now: int)
    | Register(call: CallId)
    | Fire(timer: CallId, now: int, closer: CallId)
    | Reboot(now: int, restorer: CallId, loaded: bool)     // loaded: the query for active lots succeeds

  /** The closing time a call is about to pass to scheduleClose. */
  function ToArm(call: Call): Option<int> {
    match call
    case Placing(_, _, _, _, Rearming(lot)) => Some(lot.closing)
    case Closing(Deferred(snap)) => Some(snap.closing)
    case Creating(Arming(lot)) => Some(lot.closing)
    case _ => None
  }

  /** A call whose scheduleClose is behind it never comes to another one. */
  predicate Past(call: Call) {
    match call
    case Placing(_, _, _, _, pc) => pc.Rearmed? || pc.Accepted? || pc.Refused?
    case Closing(pc) => pc.Finished?
    case Creating(pc) => pc.Created?
  }

  predicate Scheduling(w: World, c: CallId) {
    c in w.s.calls && c !in w.gone && ToArm(w.s.calls[c]).Some?
  }

  predicate Possible(d: Deployment, w: World, m: Move) {
    match m
    case Enter(c, user, amount) => c !in w.s.calls
    case Go(c, now, top) =>
      c !in w.gone && !Scheduling(w, c) && now >= w.clock && Enabled(d, w.s, Advance(c, now, top))
    case Drop(c) => c !in w.gone && Enabled(d, w.s, Abort(c))
    case SpawnNow(c, now, closer) =>
      && Scheduling(w, c) && c !in w.arming && closer !in w.s.calls
      && now >= w.clock && ToArm(w.s.calls[c]).value <= now
    case SetTimer(c, now) =>
      && Scheduling(w, c) && c !in w.arming
      && now >= w.clock && ToArm(w.s.calls[c]).value > now
    case Register(c) => Scheduling(w, c) && c in w.arming
    case Fire(t, now, closer) =>
      t in w.timers && now >= w.timers[t] && now >= w.clock && closer !in w.s.calls
    case Reboot(now, restorer, _) => now >= w.clock && restorer !in w.s.calls
  }

  /** timer.Stop and forget the registered timer. */
  function Cleared(w: World): World {
    match w.registered
    case None => w
    case Some(o) => w.(timers := w.timers - {o}, registered := None)
  }

  predicate Announcing(call: Call) {
    call.Closing? && call.closer.Shut?
  }

  function Moved(d: Deployment, w: World, m: Move): World
    requires Possible(d, w, m)
  {
    match m
    case Enter(c, user, amount) => w.(s := Next(d, w.s, StartBid(c, user, amount)))
    case Go(c, now, top) =>
      var v := if Announcing(w.s.calls[c]) then Cleared(w) else w;
      v.(s := Next(d, w.s, Advance(c, now, top)), clock := now)
    case Drop(c) => w.(s := Next(d, w.s, Abort(c)))
    case SpawnNow(c, now, closer) =>
      w.(s := Next(d, Next(d, w.s, StartClose(closer)), Advance(c, now, None)), clock := now)
    case SetTimer(c, now) =>
      w.(timers := w.timers[c := ToArm(w.s.calls[c]).value], arming := w.arming + {c}, clock := now)
    case Register(c) =>
      Cleared(w).(s := Next(d, w.s, Advance(c, w.clock, None)), registered := Some(c), arming := w.arming - {c})
    case Fire(t, now, closer) =>
      w.(s := Next(d, w.s, StartClose(closer)), timers := w.timers - {t}, clock := now)
    case Reboot(now, restorer, loaded) =>
      World(Restarted(w.s, now, restorer, loaded), map[], None, {}, now, w.s.calls.Keys)
  }

  /**
   How long a bid transaction may last from its sniping check to its commit, a closer from its read
   to its clock check, whether scheduleClose gets to register a timer before it can fire, whether after a
   crash the process is back before an active lot is due, whether its query for active lots then succeeds,
   and whether the database never fails for closers.
   */
  datatype Limits = Limits(tx: nat, read: nat, registers: bool, reboots: bool, loads: bool, steady: bool)

  /** The move respects the limits. */
  predicate Prompt(l: Limits, w: World, m: Move) {
    match m
    case Go(c, now, _) =>
      c in w.s.calls ==>
      (match w.s.calls[c]
       case Placing(_, _, _, _, Written(_, st)) => now <= st.until + l.tx
       case Closing(Loaded(_, at)) => now <= at + l.read
       case _ => true)
    case Fire(t, _, _) => l.registers ==> t !in w.arming
    case Drop(c) => l.steady && c in w.s.calls ==> w.s.calls[c].Placing?
    case Reboot(now, _, loaded) =>
      (l.loads ==> loaded) && (l.reboots && w.s.row.status == Active ==> now < w.s.row.closing)
    case _ => true
  }

  /** Where the moves lead, if each is possible and prompt. */
  function Played(d: Deployment, l: Limits, w: World, moves: seq<Move>): Option<World>
    decreases |moves|
  {
    if moves == [] then Some(w)
    else if Possible(d, w, moves[0]) && Prompt(l, w, moves[0])
    then Played(d, l, Moved(d, w, moves[0]), moves[1..])
    else None
  }

  /** The moves, all prompt, lead from w to v. */
  predicate Plays(d: Deployment, l: Limits, w: World, moves: seq<Move>, v: World) {
    Played(d, l, w, moves) == Some(v)
  }

  lemma {:induction false} PlayOn(d: Deployment, l: Limits, w: World, moves: seq<Move>, v: World, m: Move)
    requires Plays(d, l, w, moves, v) && Possible(d, v, m) && Prompt(l, v, m)
    ensures Plays(d, l, w, moves + [m], Moved(d, v, m))
    decreases |moves|
  {
    if moves == [] {
      assert Plays(d, l, Moved(d, v, m), [], Moved(d, v, m));
      assert [m][1..] == [];
    } else {
      PlayOn(d, l, Moved(d, w, moves[0]), moves[1..], v, m);
      assert (moves + [m])[1..] == moves[1..] + [m];
    }
  }
}
