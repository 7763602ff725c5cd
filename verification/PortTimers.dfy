/** The browser's wake-ups: every active lot has exactly one, and capped timers chain until it closes. */
module PortTimers {
  import opened Wrappers
  import opened Auction
  import opened Tables
  import opened Port

  /** A timer runs to the closing time, or as far as setTimeout reaches. */
  predicate TimerOk(t: Timer, closing: int, clock: int) {
    t.armedAt <= clock && t.armedAt < closing && t.deadline == Min(closing, t.armedAt + MAX_DELAY_MS)
  }

  predicate Live(p: Port, x: LotId) {
    x in p.lots && p.lots[x].status == Active
  }

  /** An active lot has one armed timer, or is due with its close queued; any other lot has no timer. */
  predicate LotOk(p: Port, x: LotId, clock: int) {
    if !Live(p, x) then x !in p.timers
    else if x in p.timers then x !in p.queue && TimerOk(p.timers[x], p.lots[x].closing, clock)
    else x in p.queue && p.lots[x].closing <= clock
  }

  /** All lots are in order but those in missing. */
  ghost predicate Pending(p: Port, missing: set<LotId>, clock: int) {
    forall x: LotId :: x !in missing ==> LotOk(p, x, clock)
  }

  /** Between two turns of the event loop: every active lot has exactly its timer. */
  ghost predicate Settled(p: Port, clock: int) {
    Pending(p, {}, clock) && p.queue == []
  }

  lemma TimePasses(p: Port, missing: set<LotId>, clock: int, now: int)
    requires Pending(p, missing, clock) && clock <= now
    ensures Pending(p, missing, now)
  {
    forall x: LotId | x !in missing ensures LotOk(p, x, now) {
      assert LotOk(p, x, clock);
    }
  }

  lemma SchedulingKeeps(p: Port, id: LotId, missing: set<LotId>, clock: int, at: int)
    requires Pending(p, missing, clock) && clock <= at && Live(p, id)
    requires id in p.queue ==> p.lots[id].closing <= clock
    ensures Pending(Scheduled(p, id, at), missing - {id}, at)
  {
    var q := Scheduled(p, id, at);
    forall x: LotId | x !in missing - {id} ensures LotOk(q, x, at) {
      if x != id {
        assert LotOk(p, x, clock);
      }
    }
  }

  /** What happens in a turn before its microtasks run. */
  datatype Turn =
    | CreateTurn(id: LotId, title: string, start: real, step: real, closing: int, check: int, at: int)
    | BidTurn(id: LotId, user: UserId, amount: real, stamp: Stamp, at: int)
    | FireTurn(id: LotId, now: int, at: int)

  /** Clock readings run forward, ids are new, and timers do not fire early. */
  predicate Fair(p: Port, clock: int, turn: Turn) {
    match turn
    case CreateTurn(id, _, _, _, _, check, at) => id !in p.lots && clock <= check <= at
    case BidTurn(_, _, _, st, at) => clock <= st.check && Ordered(st) && st.next <= at
    case FireTurn(id, now, at) => id in p.timers && clock <= now <= at && p.timers[id].deadline <= now
  }

  function Acted(p: Port, turn: Turn): Port {
    match turn
    case CreateTurn(id, title, start, step, closing, check, at) =>
      if CheckCreate(title, start, step, closing, check).Some? then p
      else Created(p, id, start, step, closing, at)
    case BidTurn(id, user, amount, st, at) =>
      if CheckBid(p, id, amount, st.check).Some? then p
      else BidPlaced(p, id, user, amount, st, at)
    case FireTurn(id, now, at) => ClosedOrDeferred(p, id, now, at)
  }

  lemma ActKeeps(p: Port, clock: int, turn: Turn)
    requires Settled(p, clock) && Fair(p, clock, turn)
    ensures Pending(Acted(p, turn), {}, turn.at)
  {
    TimePasses(p, {}, clock, turn.at);
    match turn
    case CreateTurn(id, title, start, step, closing, check, at) =>
      if CheckCreate(title, start, step, closing, check) == None {
        var q := p.(lots := p.lots[id := NewLot(start, step, closing)]);
        StillPendingBut(p, q, id, at);
        SchedulingKeeps(q, id, {id}, at, at);
        assert {id} - {id} == {};
      }
    case BidTurn(id, user, amount, st, at) =>
      if CheckBid(p, id, amount, st.check) == None {
        var q := p.(lots := p.lots[id := Raised(RULES, p.lots[id], amount, st)],
                    bids := p.bids + [BidRow(id, Bid(user, amount))]);
        StillPendingBut(p, q, id, at);
        if Snipes(RULES, p.lots[id], st.until) {
          SchedulingKeeps(q, id, {id}, at, at);
          assert {id} - {id} == {};
        } else {
          assert LotOk(p, id, at);
        }
      }
    case FireTurn(id, now, at) => FireKeeps(p, id, now, at);
  }

  /** A change to one lot leaves the others in order. */
  lemma StillPendingBut(p: Port, q: Port, id: LotId, clock: int)
    requires Pending(p, {}, clock) && q.timers == p.timers && q.queue == p.queue
    requires forall x :: x != id ==> (x in p.lots <==> x in q.lots) && (x in p.lots ==> p.lots[x] == q.lots[x])
    ensures Pending(q, {id}, clock)
  {
    forall x: LotId | x !in {id} ensures LotOk(q, x, clock) {
      assert LotOk(p, x, clock);
    }
  }

  lemma FireKeeps(p: Port, id: LotId, now: int, at: int)
    requires Settled(p, at) && id in p.timers && now <= at
    ensures Pending(ClosedOrDeferred(p, id, now, at), {}, at)
  {
    assert LotOk(p, id, at);
    if now < p.lots[id].closing {
      SchedulingKeeps(p, id, {}, at, at);
      assert Pending(ClosedOrDeferred(p, id, now, at), {}, at);
    } else {
      CloseKeeps(p, id, now, at);
    }
  }

  lemma CloseKeeps(p: Port, id: LotId, now: int, clock: int)
    requires Pending(p, {}, clock) && Live(p, id) && now >= p.lots[id].closing
    ensures Pending(ClosedOrDeferred(p, id, now, now), {}, clock)
  {
    var q := ClosedOrDeferred(p, id, now, now);
    forall x: LotId | x !in {} ensures LotOk(q, x, clock) {
      assert LotOk(p, x, clock);
    }
  }

  // ---- microtasks ----

  /** Run queued closes, the readings being those they take. */
  function Drained(p: Port, readings: seq<int>): Port
    decreases |readings|
  {
    if p.queue == [] || readings == [] then p
    else Drained(ClosedOrDeferred(p.(queue := p.queue[1..]), p.queue[0], readings[0], readings[0]), readings[1..])
  }

  predicate Rising(clock: int, readings: seq<int>) {
    && (forall i :: 0 <= i < |readings| ==> clock <= readings[i])
    && (forall i, j :: 0 <= i < j < |readings| ==> readings[i] <= readings[j])
  }

  /** Popping a queued lot: it is due, so it closes; a second entry for it does nothing. */
  lemma PopKeeps(p: Port, clock: int, now: int)
    requires Pending(p, {}, clock) && p.queue != [] && clock <= now
    ensures var q := ClosedOrDeferred(p.(queue := p.queue[1..]), p.queue[0], now, now);
            Pending(q, {}, now) && q.queue == p.queue[1..]
  {
    var id := p.queue[0];
    var q := ClosedOrDeferred(p.(queue := p.queue[1..]), id, now, now);
    assert LotOk(p, id, clock);
    assert p.queue == [id] + p.queue[1..];
    forall x: LotId | x !in {} ensures LotOk(q, x, now) {
      assert LotOk(p, x, clock);
      assert x != id ==> (x in p.queue <==> x in p.queue[1..]);
    }
  }

  /** With a reading for each queued close, the queue runs empty and every lot is in order. */
  lemma {:induction false} DrainSettles(p: Port, clock: int, readings: seq<int>, last: int)
    requires Pending(p, {}, clock) && Rising(clock, readings) && |readings| >= |p.queue|
    requires clock <= last && forall i :: 0 <= i < |readings| ==> readings[i] <= last
    ensures Settled(Drained(p, readings), last)
    decreases |readings|
  {
    if p.queue == [] {
      TimePasses(p, {}, clock, last);
    } else {
      PopKeeps(p, clock, readings[0]);
      DrainSettles(ClosedOrDeferred(p.(queue := p.queue[1..]), p.queue[0], readings[0], readings[0]),
                   readings[0], readings[1..], last);
    }
  }

  /** The same lots with the same closing times, some of them closed. */
  ghost predicate OnlyCloses(p: Port, q: Port) {
    p.lots.Keys == q.lots.Keys
    && forall x: LotId :: x in p.lots ==>
         q.lots[x].closing == p.lots[x].closing && (q.lots[x].status == p.lots[x].status || q.lots[x].status == Closed)
  }

  lemma {:induction false} DrainOnlyCloses(p: Port, readings: seq<int>)
    ensures OnlyCloses(p, Drained(p, readings))
    decreases |readings|
  {
    if p.queue != [] && readings != [] {
      var q := ClosedOrDeferred(p.(queue := p.queue[1..]), p.queue[0], readings[0], readings[0]);
      DrainOnlyCloses(q, readings[1..]);
    }
  }

  /** A timer that goes off when the lot is due has closed it by the end of the turn; a capped one is armed anew. */
  lemma FiringCloses(p: Port, clock: int, id: LotId, now: int, at: int, readings: seq<int>, end: int)
    requires Settled(p, clock) && Fair(p, clock, FireTurn(id, now, at))
    requires |readings| >= |Acted(p, FireTurn(id, now, at)).queue| && Rising(at, readings)
    requires at <= end && forall i :: 0 <= i < |readings| ==> readings[i] <= end
    ensures var q := Drained(Acted(p, FireTurn(id, now, at)), readings);
            && id in p.lots && id in q.lots
            && (p.lots[id].closing <= now ==> q.lots[id].status == Closed)
            && (at < p.lots[id].closing ==>
                  && q.lots[id] == p.lots[id] && id in q.timers
                  && q.timers[id] == Timer(at, Min(p.lots[id].closing, at + 2_147_483_000)))
  {
    var q := Acted(p, FireTurn(id, now, at));
    assert LotOk(p, id, clock);
    DrainOnlyCloses(q, readings);
    if at < p.lots[id].closing {
      assert q.queue == [];
    }
  }

  // ---- whole runs ----

  datatype Round = Round(turn: Turn, readings: seq<int>, end: int)

  function Looped(p: Port, rounds: seq<Round>): Port {
    if rounds == [] then p
    else
      var r := rounds[|rounds| - 1];
      Drained(Acted(Looped(p, rounds[..|rounds| - 1]), r.turn), r.readings)
  }

  function ClockOf(clock: int, rounds: seq<Round>): int {
    if rounds == [] then clock else rounds[|rounds| - 1].end
  }

  /** Each round is fair, and drains its queue at readings after its own. */
  predicate FairLoop(p: Port, clock: int, rounds: seq<Round>) {
    if rounds == [] then true
    else
      var front, r := rounds[..|rounds| - 1], rounds[|rounds| - 1];
      && FairLoop(p, clock, front)
      && Fair(Looped(p, front), ClockOf(clock, front), r.turn)
      && |r.readings| >= |Acted(Looped(p, front), r.turn).queue|
      && Rising(r.turn.at, r.readings) && r.turn.at <= r.end
      && forall i :: 0 <= i < |r.readings| ==> r.readings[i] <= r.end
  }

  /**
   After every turn of the event loop each active lot has exactly one timer, with the exact deadline, and no
   other lot has one.
   */
  lemma {:induction false} WakeUpsAreExact(p: Port, clock: int, rounds: seq<Round>)
    requires Settled(p, clock) && FairLoop(p, clock, rounds)
    ensures Settled(Looped(p, rounds), ClockOf(clock, rounds))
  {
    if rounds != [] {
      var front, r := rounds[..|rounds| - 1], rounds[|rounds| - 1];
      WakeUpsAreExact(p, clock, front);
      ActKeeps(Looped(p, front), ClockOf(clock, front), r.turn);
      DrainSettles(Acted(Looped(p, front), r.turn), r.turn.at, r.readings, r.end);
    }
  }

  // ---- start-up ----

  predicate AllLive(p: Port, ids: seq<LotId>) {
    forall i :: 0 <= i < |ids| ==> Live(p, ids[i])
  }

  /** scheduleClose for each of ids in turn, with the readings it takes. */
  function Restored(p: Port, ids: seq<LotId>, ats: seq<int>): Port
    requires |ids| == |ats| && AllLive(p, ids)
    decreases |ids|
  {
    if ids == [] then p else Restored(Scheduled(p, ids[0], ats[0]), ids[1..], ats[1..])
  }

  /** One lot of those left to schedule. */
  lemma RestoreOne(p: Port, ids: seq<LotId>, ats: seq<int>, i: nat)
    requires i < |ids| == |ats| && AllLive(p, ids[i..])
    ensures ids[i] in p.lots
    ensures var q := Scheduled(p, ids[i], ats[i]);
            && q.lots == p.lots && AllLive(q, ids[i + 1..])
            && Restored(p, ids[i..], ats[i..]) == Restored(q, ids[i + 1..], ats[i + 1..])
  {
    assert Live(p, ids[i..][0]);
    assert ids[i..][1..] == ids[i + 1..] && ats[i..][1..] == ats[i + 1..];
    var rest := ids[i + 1..];
    forall k | 0 <= k < |rest| ensures Live(p, rest[k]) {
      assert rest[k] == ids[i..][k + 1];
    }
  }

  lemma {:induction false} RestoreKeeps(p: Port, ids: seq<LotId>, ats: seq<int>, missing: set<LotId>, clock: int,
                                        last: int)
    requires |ids| == |ats| && AllLive(p, ids)
    requires Pending(p, missing, clock) && Rising(clock, ats)
    requires forall x :: x in missing ==> x in ids
    requires forall x :: x in p.queue && Live(p, x) ==> p.lots[x].closing <= clock
    requires clock <= last && forall i :: 0 <= i < |ats| ==> ats[i] <= last
    ensures Pending(Restored(p, ids, ats), {}, last)
    decreases |ids|
  {
    if ids == [] {
      assert missing == {};
      TimePasses(p, {}, clock, last);
    } else {
      SchedulingKeeps(p, ids[0], missing, clock, ats[0]);
      assert ids == [ids[0]] + ids[1..];
      RestoreKeeps(Scheduled(p, ids[0], ats[0]), ids[1..], ats[1..], missing - {ids[0]}, ats[0], last);
    }
  }

  /** Every timer was armed at clock or later. */
  ghost predicate ArmedSince(p: Port, clock: int) {
    forall x: LotId :: x in p.timers ==> clock <= p.timers[x].armedAt
  }

  lemma {:induction false} RestoringArmsNow(p: Port, ids: seq<LotId>, ats: seq<int>, clock: int)
    requires |ids| == |ats| && AllLive(p, ids) && ArmedSince(p, clock) && Rising(clock, ats)
    ensures ArmedSince(Restored(p, ids, ats), clock) && OnlyCloses(p, Restored(p, ids, ats))
    decreases |ids|
  {
    if ids != [] {
      RestoringArmsNow(Scheduled(p, ids[0], ats[0]), ids[1..], ats[1..], clock);
    }
  }

  lemma {:induction false} DrainingArmsNow(p: Port, readings: seq<int>, clock: int)
    requires ArmedSince(p, clock) && Rising(clock, readings)
    ensures ArmedSince(Drained(p, readings), clock) && OnlyCloses(p, Drained(p, readings))
    decreases |readings|
  {
    if p.queue != [] && readings != [] {
      var q := ClosedOrDeferred(p.(queue := p.queue[1..]), p.queue[0], readings[0], readings[0]);
      assert ArmedSince(q, clock) && OnlyCloses(p, q);
      DrainingArmsNow(q, readings[1..], clock);
    }
  }

  /**
   Start-up with any stored lots leaves every active lot with its wake-up, and none that had expired before
   it began: those are closed.
   */
  lemma StartUpSettles(p: Port, ids: seq<LotId>, ats: seq<int>, clock: int, readings: seq<int>, last: int)
    requires p.timers == map[] && p.queue == []
    requires |ids| == |ats| && AllLive(p, ids) && forall x :: Live(p, x) ==> x in ids
    requires Rising(clock, ats) && clock <= last && forall i :: 0 <= i < |ats| ==> ats[i] <= last
    requires |readings| >= |Restored(p, ids, ats).queue| && Rising(last, readings)
    ensures var end := if readings == [] then last else readings[|readings| - 1];
            Settled(Drained(Restored(p, ids, ats), readings), end)
    ensures var q := Drained(Restored(p, ids, ats), readings);
            forall x: LotId :: Live(p, x) && p.lots[x].closing <= clock ==> x in q.lots && q.lots[x].status == Closed
  {
    var missing := set x | x in ids;
    RestoreKeeps(p, ids, ats, missing, clock, last);
    var q, end := Restored(p, ids, ats), if readings == [] then last else readings[|readings| - 1];
    DrainSettles(q, last, readings, end);
    RestoringArmsNow(p, ids, ats, clock);
    DrainingArmsNow(q, readings, clock);
    var r := Drained(q, readings);
    forall x: LotId | Live(p, x) && p.lots[x].closing <= clock ensures x in r.lots && r.lots[x].status == Closed {
      assert LotOk(r, x, end);
      assert q.lots[x].closing == p.lots[x].closing;
    }
  }

  // ---- the chain of capped timers ----

  /** The timer of a lot goes off again and again, at these readings, and nothing else happens. */
  function Chained(p: Port, id: LotId, times: seq<int>): Port {
    if times == [] then p
    else
      var now := times[|times| - 1];
      ClosedOrDeferred(Chained(p, id, times[..|times| - 1]), id, now, now)
  }

  /** No timer of the chain goes off before its deadline. */
  predicate NotEarly(p: Port, id: LotId, times: seq<int>) {
    if times == [] then true
    else
      var front, q := times[..|times| - 1], Chained(p, id, times[..|times| - 1]);
      NotEarly(p, id, front) && (id in q.timers ==> q.timers[id].deadline <= times[|times| - 1])
  }

  /**
   However distant the closing time, the lot never closes before it, and as long as it has not closed
   each firing has used up a whole delay: so it is closed by the firing that makes up the rest.
   */
  lemma {:induction false} CappedTimersChain(p: Port, id: LotId, times: seq<int>)
    requires Live(p, id) && id in p.timers && id !in p.queue
    requires TimerOk(p.timers[id], p.lots[id].closing, p.timers[id].armedAt)
    requires NotEarly(p, id, times)
    ensures var q, closing, first := Chained(p, id, times), p.lots[id].closing, p.timers[id].armedAt;
            && id in q.lots && q.lots[id].closing == closing
            && (q.lots[id].status == Closed ==> exists i :: 0 <= i < |times| && times[i] >= closing)
            && (q.lots[id].status != Closed ==>
                  && Live(q, id) && id in q.timers
                  && q.timers[id].deadline == Min(closing, q.timers[id].armedAt + MAX_DELAY_MS)
                  && first + |times| * MAX_DELAY_MS <= q.timers[id].armedAt < closing)
  {
    if times != [] {
      var front, now := times[..|times| - 1], times[|times| - 1];
      CappedTimersChain(p, id, front);
      var q := Chained(p, id, front);
      if Live(q, id) {
        assert |times| * MAX_DELAY_MS == |front| * MAX_DELAY_MS + MAX_DELAY_MS;
      } else {
        var i :| 0 <= i < |front| && front[i] >= p.lots[id].closing;
        assert times[i] == front[i];
      }
    }
  }

  /** So ceil(remaining / cap) firings are enough. */
  lemma ChainEnds(p: Port, id: LotId, times: seq<int>)
    requires Live(p, id) && id in p.timers && id !in p.queue
    requires TimerOk(p.timers[id], p.lots[id].closing, p.timers[id].armedAt)
    requires NotEarly(p, id, times)
    requires |times| * MAX_DELAY_MS >= p.lots[id].closing - p.timers[id].armedAt
    ensures var q := Chained(p, id, times); id in q.lots && q.lots[id].status == Closed
  {
    CappedTimersChain(p, id, times);
  }
}
