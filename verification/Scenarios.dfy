/** Runs that show where a promise stops: a hold id used twice lets an older timer end the
    newer hold, and a rebuild beside live projections can lose a row. */
module Scenarios {
  import opened Base
  import opened Seat
  import opened EventStore
  import opened Envelopes
  import opened Engine
  import opened Invariants
  import opened Runs
  import opened Uncontended
  import opened EarlyExpiry
  import ViewRuns

  // ---- a hold id used twice ----

  function Letter(id: string): Envelope { Envelope(id, "/saga", "command", "", "", "", "") }

  const HELD := SeatHeld("h", "b", "1A", Some(10))
  const FREED := SeatHoldReleased("h", "b", "1A", "")
  const RETAKEN := SeatHeld("h", "b", "1A", Some(100))

  /** So far seat 1A has this stream, these letters arrived, these message ids were used, and
      the timer of the first hold is pending. */
  ghost predicate SoFar(c: State, stream: seq<Message>, letters: set<string>, ids: set<string>) {
    && Reachable(c) && Leads(Init(0), c) && c.txs == map[] && c.now == 0 && c.usedIds == ids
    && Bodies(StreamOf(c.store.streams, "1A")) == stream
    && c.store.mail.inbox == (set l | l in letters :: KeyOf(Letter(l)))
    && Unfired(c.store.deadlines, 0) && c.store.deadlines.timers[0] == TimerRow(10, "1A", "h", None)
    && c.nextTimer > 0
  }

  lemma FirstHold() returns (c: State)
    ensures SoFar(c, [HELD], {"1"}, {"x"})
  {
    LeadsToItself(Init(0));
    c := OneCommand(Init(0), Init(0), Letter("1"), HoldSeat("h", "b", "1A", Some(10)), "x");
  }

  lemma ThenReleased() returns (c: State)
    ensures SoFar(c, [HELD, FREED], {"1", "2"}, {"x", "y"})
  {
    var before := FirstHold();
    FoldMeaning([HELD]);
    c := OneCommand(Init(0), before, Letter("2"), ReleaseSeatHold("h", "b", "1A", ""), "y");
  }

  lemma ThenHeldAgain() returns (c: State)
    ensures SoFar(c, [HELD, FREED, RETAKEN], {"1", "2", "3"}, {"x", "y", "z"})
  {
    var before := ThenReleased();
    FoldMeaning([HELD, FREED]);
    c := OneCommand(Init(0), before, Letter("3"), HoldSeat("h", "b", "1A", Some(100)), "z");
  }

  /** Hold "h" until 10 is released and "h" is held again until 100. The first timer still
      carries "h", so some continuation ends the second hold while the clock is before 100. */
  lemma ReusedHoldIdEndsEarly() returns (c: State)
    ensures Reachable(c) && SeatNow(c, "1A") == SeatState(3, Held, "h", "b", 100)
    ensures CanEndEarly(c, "1A")
  {
    c := ThenHeldAgain();
    FoldMeaning([HELD, FREED, RETAKEN]);
    assert EarlierTimer(c, "1A", 0);
    CanEndEarlyIff(c, "1A");
  }

  // ---- a rebuild beside live projections ----

  lemma {:induction false} DatabaseRunsInSite(s: ViewRuns.Site, acts: seq<Action>)
    requires ViewRuns.ReachableSite(s)
    ensures ViewRuns.ReachableSite(s.(db := Run(s.db, acts)))
  {
    if acts == [] {
      assert s.(db := Run(s.db, acts)) == s;
    } else {
      var n := |acts| - 1;
      DatabaseRunsInSite(s, acts[..n]);
      ViewRuns.MoveIsReachable(s.(db := Run(s.db, acts[..n])), ViewRuns.Database(acts[n]));
    }
  }

  /** A rebuild lists the streams of an empty log; then a seat is held and projected; then
      the rebuild clears the view and commits. The row is gone though its stream is not. */
  lemma RebuildCanLoseARow() returns (s: ViewRuns.Site, seat: string)
    ensures ViewRuns.ReachableSite(s) && ViewRuns.CanFinish(s, 0)
    ensures seat in s.view && Length(ViewRuns.StreamsIn(s), seat) > 0
    ensures seat !in ViewRuns.CommitRebuild(s, 0).view
  {
    seat := "1A";
    var s0 := ViewRuns.Start(0);
    assert s0 == ViewRuns.After(s0, []);
    ViewRuns.MoveIsReachable(s0, ViewRuns.List(0));
    assert StreamIds(s0.db.store.events) == {};
    var c := FirstHold();
    var acts :| c == Run(Init(0), acts);
    DatabaseRunsInSite(ViewRuns.Apply(s0, ViewRuns.List(0)), acts);
    s := RowLostAfterListing(ViewRuns.Apply(s0, ViewRuns.List(0)).(db := c), seat);
  }

  /** A rebuild listed an empty log, and the seat has a stream by now. */
  lemma RowLostAfterListing(listed: ViewRuns.Site, seat: string) returns (s: ViewRuns.Site)
    requires ViewRuns.ReachableSite(listed) && listed.view == map[] && Length(ViewRuns.StreamsIn(listed), seat) > 0
    requires listed.jobs == map[0 := ViewRuns.Rebuilding({}, {}, false, {}, map[], {}, None)]
    ensures ViewRuns.ReachableSite(s) && ViewRuns.CanFinish(s, 0)
    ensures seat in s.view && Length(ViewRuns.StreamsIn(s), seat) > 0
    ensures seat !in ViewRuns.CommitRebuild(s, 0).view
  {
    assert ViewRuns.CanProject(listed, 1, seat) && ViewRuns.LoadNow(listed.db, seat).value.folded.version > 0
           && ViewRuns.LoadNow(listed.db, seat).value.seat == seat by {
      ViewRuns.ReachableSiteOk(listed);
      ViewRuns.LoadIsTrue(listed.db, seat);
    }
    ViewRuns.MoveIsReachable(listed, ViewRuns.Project(1, seat));
    var loaded := ViewRuns.Apply(listed, ViewRuns.Project(1, seat));
    ViewRuns.MoveIsReachable(loaded, ViewRuns.Write(1));
    s := ClearedAfterWrite(ViewRuns.Apply(loaded, ViewRuns.Write(1)), seat);
  }

  lemma ClearedAfterWrite(written: ViewRuns.Site, seat: string) returns (s: ViewRuns.Site)
    requires ViewRuns.ReachableSite(written) && seat in written.view
    requires written.jobs == map[0 := ViewRuns.Rebuilding({}, {}, false, {}, map[], {}, None)]
    ensures ViewRuns.ReachableSite(s) && ViewRuns.CanFinish(s, 0) && s.db == written.db && seat in s.view
    ensures seat !in ViewRuns.CommitRebuild(s, 0).view
  {
    ViewRuns.MoveIsReachable(written, ViewRuns.Clear(0));
    s := ViewRuns.Apply(written, ViewRuns.Clear(0));
  }
}
