/** What a crash of the process, and its restart, do to the calls on a lot. */
module Restart {
  import opened Wrappers
  import opened Auction
  import opened Protocol
  import opened Invariant
  import opened Steps

  /** A call that has not committed is over, its transaction rolled back; one that has stays where it was, for ever. */
  function Stopped(row: Lot, call: Call): Call {
    if !Abortable(call) then call
    else
      match call
      case Placing(_, _, _, _, _) => call.(pc := Refused(DbError, row, 0))
      case _ => Closing(Finished(Broken))
  }

  function Crashed(s: State): State {
    s.(owner := None, calls := map c | c in s.calls :: Stopped(s.row, s.calls[c]))
  }

  /** GetActiveLots: the lots that start-up schedules. */
  predicate IsRestored(row: Lot, now: int) {
    row.status == Active && row.closing > now
  }

  /**
   After a crash the process starts again; for a restored lot somebody, with the row in hand, is about to
   call scheduleClose.  A query that fails is only logged, and then there is nobody.
   */
  function Restarted(s: State, now: int, restorer: CallId, loaded: bool): State {
    if loaded && IsRestored(s.row, now) then Put(Crashed(s), restorer, Closing(Deferred(s.row))) else Crashed(s)
  }

  lemma StoppedIsOk(d: Deployment, init: Auction, s: State, c: CallId)
    requires c in s.calls && CallOk(d, init, s, c, s.calls[c])
    ensures CallOk(d, init, Crashed(s), c, Stopped(s.row, s.calls[c]))
    ensures Product(Stopped(s.row, s.calls[c])) == Product(s.calls[c])
    ensures Announced(c, Stopped(s.row, s.calls[c])) == Announced(c, s.calls[c])
  {
  }

  lemma CrashKeeps(d: Deployment, init: Auction, s: State)
    requires Inv(d, init, s)
    ensures Inv(d, init, Crashed(s))
  {
    var t := Crashed(s);
    forall c | c in t.calls
      ensures CallOk(d, init, t, c, t.calls[c])
      ensures Product(t.calls[c]) == Product(s.calls[c]) && Announced(c, t.calls[c]) == Announced(c, s.calls[c])
    {
      StoppedIsOk(d, init, s, c);
    }
    forall i | 0 <= i < |t.log| ensures Owned(t, i) {
      assert Owned(s, i);
    }
    forall c: CallId ensures Sent(t.events, c) == if c in t.calls then Announced(c, t.calls[c]) else [] {
      assert Sent(s.events, c) == if c in s.calls then Announced(c, s.calls[c]) else [];
    }
  }

  lemma RestartKeeps(d: Deployment, init: Auction, s: State, now: int, restorer: CallId, loaded: bool)
    requires Inv(d, init, s) && restorer !in s.calls
    ensures Inv(d, init, Restarted(s, now, restorer, loaded))
  {
    CrashKeeps(d, init, s);
    if loaded && IsRestored(s.row, now) {
      var u, t := Crashed(s), Restarted(s, now, restorer, loaded);
      RowIsSnap(d, init, u);
      Silent(u, t, restorer, t.calls[restorer]);
      SilentMetrics(u, t, restorer, t.calls[restorer]);
      QuietStepKeeps(d, init, u, t, restorer, t.calls[restorer]);
    }
  }
}
