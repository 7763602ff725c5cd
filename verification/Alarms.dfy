/**
 The timers of the Go engine as values: those that will still go off, and the map in which one a lot is
 registered.
 */
module Alarms {
  import opened Tables

  datatype Alarm = Alarm(lot: LotId, due: int)

  /**
   running are the timers that will still go off, timers the engine's map, spawned the closes started so far;
   halfway are the timers, with their lots, that some call of scheduleClose has made and not registered yet.
   */
  datatype Alarms = Alarms(
    running: map<nat, Alarm>, timers: map<LotId, nat>, made: nat, spawned: seq<LotId>, halfway: map<nat, LotId>)

  const NO_ALARMS := Alarms(map[], map[], 0, [], map[])

  /** The first half of scheduleClose. */
  function Created(s: Alarms, id: LotId, due: int): Alarms {
    s.(running := s.running[s.made := Alarm(id, due)], made := s.made + 1, halfway := s.halfway[s.made := id])
  }

  /** Stop the timer registered for the lot and forget it. */
  function Cleared(s: Alarms, id: LotId): Alarms {
    if id in s.timers then s.(running := s.running - {s.timers[id]}, timers := s.timers - {id}) else s
  }

  /** The second half, under the mutex: stop the timer registered before, and register this one. */
  function Registered(s: Alarms, id: LotId, timer: nat): Alarms {
    var t := Cleared(s, id);
    t.(timers := t.timers[id := timer], halfway := t.halfway - {timer})
  }

  // ---- between the two halves of scheduleClose ----

  /** A timer goes off, or another call takes the first or the second half of scheduleClose, or clears a timer. */
  datatype Tick = GoesOff(timer: nat) | Makes(lot: LotId, due: int) | Registers(timer: nat) | Clears(lot: LotId)

  function Ticked(s: Alarms, tick: Tick): Alarms {
    match tick
    case GoesOff(t) =>
      if t in s.running then s.(running := s.running - {t}, spawned := s.spawned + [s.running[t].lot]) else s
    case Makes(lot, due) => Created(s, lot, due)
    case Registers(t) => if t in s.halfway then Registered(s, s.halfway[t], t) else s
    case Clears(lot) => Cleared(s, lot)
  }

  function TickedAll(s: Alarms, ticks: seq<Tick>): Alarms {
    if ticks == [] then s else Ticked(TickedAll(s, ticks[..|ticks| - 1]), ticks[|ticks| - 1])
  }

  /** scheduleClose: a close at once for a lot that is due, else a timer, which is registered after the ticks. */
  function Scheduled(s: Alarms, id: LotId, closing: int, now: int, ticks: seq<Tick>): Alarms {
    if closing <= now then s.(spawned := s.spawned + [id])
    else Registered(TickedAll(Created(s, id, closing), ticks), id, s.made)
  }

  // ---- one timer a lot ----

  /** Every running timer is the registered one of its lot, or half way to that. */
  predicate Neat(s: Alarms) {
    && (forall t :: t in s.running ==> t < s.made)
    && (forall t :: t in s.halfway ==> t < s.made && (t in s.running ==> s.running[t].lot == s.halfway[t]))
    && (forall id :: id in s.timers ==> s.timers[id] < s.made && s.timers[id] !in s.halfway)
    && (forall id :: id in s.timers && s.timers[id] in s.running ==> s.running[s.timers[id]].lot == id)
    && (forall t :: t in s.running && t !in s.halfway ==>
          s.running[t].lot in s.timers && s.timers[s.running[t].lot] == t)
  }

  /** A timer of the lot is running that no call still has in its hands. */
  predicate Rings(s: Alarms, id: LotId) {
    exists t :: t in s.running && t !in s.halfway && s.running[t].lot == id
  }

  lemma RegisteringKeepsNeat(s: Alarms, timer: nat)
    requires Neat(s) && timer in s.halfway
    ensures Neat(Registered(s, s.halfway[timer], timer))
  {
  }

  lemma ClearingKeepsNeat(s: Alarms, id: LotId)
    requires Neat(s)
    ensures Neat(Cleared(s, id))
  {
  }

  lemma TickKeepsNeat(s: Alarms, tick: Tick)
    requires Neat(s)
    ensures Neat(Ticked(s, tick)) && s.made <= Ticked(s, tick).made
  {
    match tick
    case GoesOff(_) =>
    case Makes(_, _) =>
    case Registers(t) =>
      if t in s.halfway {
        RegisteringKeepsNeat(s, t);
      }
    case Clears(lot) => ClearingKeepsNeat(s, lot);
  }

  /** What the ticks do to a timer half way: nothing, but for letting it go off. */
  lemma {:induction false} TicksKeepNeat(s: Alarms, timer: nat, ticks: seq<Tick>)
    requires Neat(s) && timer in s.halfway && timer in s.running && Registers(timer) !in ticks
    ensures var m := TickedAll(s, ticks);
            && Neat(m) && timer in m.halfway && m.halfway[timer] == s.halfway[timer]
            && (timer in m.running <==> GoesOff(timer) !in ticks)
            && (timer in m.running ==> m.running[timer] == s.running[timer])
  {
    if ticks != [] {
      var front, tick := ticks[..|ticks| - 1], ticks[|ticks| - 1];
      assert ticks == front + [tick];
      TicksKeepNeat(s, timer, front);
      TickKeepsNeat(TickedAll(s, front), tick);
      TickSparesHalfway(TickedAll(s, front), timer, tick);
    }
  }

  lemma TickSparesHalfway(s: Alarms, timer: nat, tick: Tick)
    requires Neat(s) && timer in s.halfway && tick != Registers(timer)
    ensures var m := Ticked(s, tick);
            && timer in m.halfway && m.halfway[timer] == s.halfway[timer]
            && (timer in m.running <==> timer in s.running && tick != GoesOff(timer))
            && (timer in m.running ==> m.running[timer] == s.running[timer])
  {
  }

  // ---- the closes that are started ----

  /** Tick number i is a timer going off that was running. */
  predicate Strikes(s: Alarms, ticks: seq<Tick>, i: nat)
    requires i < |ticks|
  {
    ticks[i].GoesOff? && ticks[i].timer in TickedAll(s, ticks[..i]).running
  }

  /** A timer that goes off starts the close of its own lot and is gone; nothing else starts one. */
  lemma TimersStartTheirLots(s: Alarms, ticks: seq<Tick>, i: nat)
    requires i < |ticks|
    ensures var before, after := TickedAll(s, ticks[..i]), TickedAll(s, ticks[..i + 1]);
            if Strikes(s, ticks, i)
            then
              && after.spawned == before.spawned + [before.running[ticks[i].timer].lot]
              && after.running == before.running - {ticks[i].timer}
              && after.timers == before.timers && after.halfway == before.halfway
            else after.spawned == before.spawned
  {
    assert ticks[..i + 1][..i] == ticks[..i];
  }

  lemma {:induction false} StartsAreKept(s: Alarms, ticks: seq<Tick>, i: nat, j: nat)
    requires i <= j <= |ticks|
    ensures TickedAll(s, ticks[..i]).spawned <= TickedAll(s, ticks[..j]).spawned
    ensures TickedAll(s, ticks[..i]).made <= TickedAll(s, ticks[..j]).made
    decreases j
  {
    if i < j {
      StartsAreKept(s, ticks, i, j - 1);
      TimersStartTheirLots(s, ticks, j - 1);
      assert ticks[..j][..j - 1] == ticks[..j - 1];
    }
  }

  /** A timer that has stopped running never runs again. */
  lemma {:induction false} StoppedForGood(s: Alarms, ticks: seq<Tick>, timer: nat, i: nat, j: nat)
    requires i <= j <= |ticks| && timer < TickedAll(s, ticks[..i]).made
    requires timer !in TickedAll(s, ticks[..i]).running
    ensures timer !in TickedAll(s, ticks[..j]).running
    decreases j
  {
    if i < j {
      StoppedForGood(s, ticks, timer, i, j - 1);
      StartsAreKept(s, ticks, i, j - 1);
      assert ticks[..j][..j - 1] == ticks[..j - 1];
    }
  }

  lemma {:induction false} StaysNeat(s: Alarms, ticks: seq<Tick>, i: nat)
    requires Neat(s) && i <= |ticks|
    ensures Neat(TickedAll(s, ticks[..i]))
  {
    if i > 0 {
      StaysNeat(s, ticks, i - 1);
      assert ticks[..i][..i - 1] == ticks[..i - 1];
      TickKeepsNeat(TickedAll(s, ticks[..i - 1]), ticks[i - 1]);
    }
  }

  /** No timer starts two closes. */
  lemma TimersStrikeOnce(s: Alarms, ticks: seq<Tick>, i: nat, j: nat)
    requires Neat(s) && i < j < |ticks| && Strikes(s, ticks, i) && Strikes(s, ticks, j)
    ensures ticks[i].timer != ticks[j].timer
  {
    StaysNeat(s, ticks, i);
    TimersStartTheirLots(s, ticks, i);
    StartsAreKept(s, ticks, i, i + 1);
    if ticks[i].timer == ticks[j].timer {
      StoppedForGood(s, ticks, ticks[i].timer, i + 1, j);
    }
  }

  /** The new timer, once it has gone off, has started a close of its lot. */
  lemma {:induction false} StruckIsStarted(s: Alarms, timer: nat, ticks: seq<Tick>)
    requires Neat(s) && timer in s.halfway && timer in s.running && Registers(timer) !in ticks
    requires GoesOff(timer) in ticks
    ensures s.spawned <= TickedAll(s, ticks).spawned
    ensures s.running[timer].lot in TickedAll(s, ticks).spawned[|s.spawned|..]
  {
    var front, tick := ticks[..|ticks| - 1], ticks[|ticks| - 1];
    assert ticks == front + [tick];
    assert ticks[..|ticks|] == ticks && ticks[..0] == [];
    StartsAreKept(s, ticks, 0, |ticks| - 1);
    TimersStartTheirLots(s, ticks, |ticks| - 1);
    var before, after := TickedAll(s, front).spawned, TickedAll(s, ticks).spawned;
    if GoesOff(timer) in front {
      StruckIsStarted(s, timer, front);
      assert forall k :: |s.spawned| <= k < |before| ==> after[k] == before[k];
    } else {
      TicksKeepNeat(s, timer, front);
      assert after[|before|] == s.running[timer].lot;
    }
  }

  // ---- scheduleClose ----

  /** A lot that is due is closed at once, and no timer is touched. */
  lemma DueClosesAtOnce(s: Alarms, id: LotId, closing: int, now: int, ticks: seq<Tick>)
    ensures var after := Scheduled(s, id, closing, now, ticks);
            closing <= now ==>
              && after.spawned == s.spawned + [id]
              && after.running == s.running && after.timers == s.timers && after.halfway == s.halfway
  {
  }

  lemma RegisteringSparesOthers(s: Alarms, id: LotId, timer: nat, x: LotId)
    requires Neat(s) && timer in s.halfway && s.halfway[timer] == id && x != id
    ensures Rings(Registered(s, id, timer), x) <==> Rings(s, x)
  {
    var after := Registered(s, id, timer);
    if t :| t in s.running && t !in s.halfway && s.running[t].lot == x {
      assert t in after.running && t !in after.halfway && after.running[t].lot == x;
    }
  }

  /**
   Whatever goes off, and whatever halves of scheduleClose other calls take, between the halves of this one:
   every lot is left with at most one timer running that is nobody's to register, its registered one; and this
   lot has one, for the given time, exactly when the new timer did not go off before it was registered, and a
   close has been started if it did.
   */
  lemma LastToRegisterWins(s: Alarms, id: LotId, closing: int, now: int, ticks: seq<Tick>)
    requires Neat(s) && now < closing && Registers(s.made) !in ticks
    ensures var after := Scheduled(s, id, closing, now, ticks);
            && Neat(after) && id in after.timers && after.timers[id] == s.made && s.made !in after.halfway
            && (Rings(after, id) <==> GoesOff(s.made) !in ticks)
            && (s.made in after.running <==> GoesOff(s.made) !in ticks)
            && (s.made in after.running ==> after.running[s.made] == Alarm(id, closing))
            && s.spawned <= after.spawned
            && (GoesOff(s.made) in ticks ==> id in after.spawned[|s.spawned|..])
  {
    var c := Created(s, id, closing);
    var m := TickedAll(c, ticks);
    TicksKeepNeat(c, s.made, ticks);
    RegisteringKeepsNeat(m, s.made);
    var after := Scheduled(s, id, closing, now, ticks);
    if GoesOff(s.made) !in ticks {
      assert s.made in after.running && after.running[s.made].lot == id;
    } else {
      StruckIsStarted(c, s.made, ticks);
    }
    assert ticks[..0] == [] && ticks[..|ticks|] == ticks;
    StartsAreKept(c, ticks, 0, |ticks|);
  }

  /** Registering takes no other lot's timer. */
  lemma SchedulingSparesOthers(s: Alarms, id: LotId, closing: int, now: int, ticks: seq<Tick>, x: LotId)
    requires Neat(s) && now < closing && Registers(s.made) !in ticks && x != id
    ensures Rings(Scheduled(s, id, closing, now, ticks), x) <==> Rings(TickedAll(Created(s, id, closing), ticks), x)
  {
    TicksKeepNeat(Created(s, id, closing), s.made, ticks);
    RegisteringSparesOthers(TickedAll(Created(s, id, closing), ticks), id, s.made, x);
  }

  /**
   Nothing is left running for a lot whose timer is cleared, but what another call is about to register; and
   no other lot loses a timer.
   */
  lemma ClearedIsQuiet(s: Alarms, id: LotId)
    requires Neat(s)
    ensures Neat(Cleared(s, id)) && !Rings(Cleared(s, id), id)
    ensures forall x: LotId :: x != id ==> (Rings(Cleared(s, id), x) <==> Rings(s, x))
    ensures Cleared(s, id).spawned == s.spawned && Cleared(s, id).halfway == s.halfway
  {
    var after := Cleared(s, id);
    forall x: LotId | x != id && Rings(s, x) ensures Rings(after, x) {
      var t :| t in s.running && t !in s.halfway && s.running[t].lot == x;
      assert t in after.running && after.running[t].lot == x;
    }
  }
}
