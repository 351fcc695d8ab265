/** When a live hold can be ended before its deadline: exactly when the clock is before that
    deadline and the timers table still holds a pending timer of the seat, due earlier, that
    carries the hold's id. */
module EarlyExpiry {
  import opened Base
  import opened Seat
  import opened EventStore
  import opened Engine
  import opened Invariants
  import opened Runs
  import opened Postgres
  import opened Uncontended
  import Handlers

  // ---- runs only add ----

  lemma {:induction false} RunGrows(c: State, acts: seq<Action>)
    requires Reachable(c)
    ensures Reachable(Run(c, acts)) && Grew(c, Run(c, acts))
  {
    if acts != [] {
      var n := |acts| - 1;
      RunGrows(c, acts[..n]);
      StepIsReachable(Run(c, acts[..n]), acts[n]);
      StepGrows(Run(c, acts[..n]), acts[n]);
      Handlers.GrewTrans(c, Run(c, acts[..n]), Run(c, acts));
    }
  }

  /** A step that makes a timer the one that fired an expiry finds it pending and due. */
  lemma FiringStep(c: State, a: Action, r: Ref)
    requires Reachable(c) && r in Step(c, a).store.deadlines.firedBy
    ensures var t := Step(c, a).store.deadlines.firedBy[r];
      || (r in c.store.deadlines.firedBy && c.store.deadlines.firedBy[r] == t)
      || (Unfired(c.store.deadlines, t) && c.store.deadlines.timers[t].fireAt <= c.now)
  {
    if a.Finish? && a.tx in c.txs { ReachableTx(c, a.tx); }
  }

  /** A timer that fires an expiry in some continuation is pending now, if it exists by now,
      and due by then. */
  lemma {:induction false} FiredLater(c: State, acts: seq<Action>, r: Ref)
    requires Reachable(c) && r !in c.store.deadlines.firedBy && r in Run(c, acts).store.deadlines.firedBy
    ensures var t, c' := Run(c, acts).store.deadlines.firedBy[r], Run(c, acts);
      t in c.store.deadlines.holdOf ==>
        Unfired(c.store.deadlines, t) && c.store.deadlines.timers[t].fireAt <= c'.now
  {
    var n := |acts| - 1;
    var before := Run(c, acts[..n]);
    RunGrows(c, acts[..n]);
    StepGrows(before, acts[n]);
    FiringStep(before, acts[n], r);
    var t := Run(c, acts).store.deadlines.firedBy[r];
    if r in before.store.deadlines.firedBy && before.store.deadlines.firedBy[r] == t {
      FiredLater(c, acts[..n], r);
    } else if t in c.store.deadlines.holdOf {
      assert c.store.deadlines.timers[t].(firedAt := None) == before.store.deadlines.timers[t].(firedAt := None);
    }
  }

  // ---- the condition ----

  ghost predicate HeldNow(c: State, seat: string) { SeatNow(c, seat).status.Held? }

  /** After what the seat's stream holds in c comes an expiry in c', and the clock has not
      reached the deadline. */
  ghost predicate ExpiredBefore(c: State, c': State, seat: string, deadline: Instant) {
    var n := Length(c.store.streams, seat);
    && n < Length(c'.store.streams, seat) && StreamOf(c'.store.streams, seat)[n].body.SeatHoldExpired?
    && c'.now < deadline
  }

  /** Some continuation ends the live hold before its deadline. */
  ghost predicate CanEndEarly(c: State, seat: string) {
    exists acts :: ExpiredBefore(c, Run(c, acts), seat, SeatNow(c, seat).expiresAt)
  }

  /** A pending timer of the seat carries the live hold's id and is due before its deadline. */
  ghost predicate EarlierTimer(c: State, seat: string, t: nat) {
    && Unfired(c.store.deadlines, t)
    && c.store.deadlines.timers[t].subject == seat
    && c.store.deadlines.timers[t].token == SeatNow(c, seat).holdId
    && c.store.deadlines.timers[t].fireAt < SeatNow(c, seat).expiresAt
  }

  /** The live hold is the last event of its stream. */
  lemma LiveHold(c: State, seat: string)
    requires Reachable(c) && HeldNow(c, seat)
    ensures seat != "" && Length(c.store.streams, seat) > 0
    ensures var live := Ref(seat, Length(c.store.streams, seat));
      && HoldAt(c.store.streams, live)
      && SeatNow(c, seat).holdId == EventAt(c.store.streams, live).body.holdId
      && SeatNow(c, seat).expiresAt == AsTime(EventAt(c.store.streams, live).body.expiresAt)
  {
    ReachableStreams(c);
    LoadFolds(c, seat);
    FoldMeaning(Bodies(StreamOf(c.store.streams, seat)));
  }

  /** A hold taken by now keeps the one timer it has. */
  lemma HoldKeepsItsTimer(streams: Streams, d: Deadlines, streams': Streams, d': Deadlines, t: nat)
    requires TimersOk(streams, d) && TimersOk(streams', d') && Postgres.TimersKept(d, d')
    requires t in d'.holdOf && HoldAt(streams, d'.holdOf[t])
    ensures t in d.holdOf && d.holdOf[t] == d'.holdOf[t]
  {
    var mine := d.timerOf[d'.holdOf[t]];
    assert TimerOk(streams', d', mine) && TimerOk(streams', d', t);
  }

  /** The timer behind an expiry belongs to a hold of the same seat and id; where that hold was
      taken before c, the timer is c's timer of it. */
  lemma TimerOfOldHold(c: State, c': State, r: Ref)
    requires Reachable(c) && Reachable(c') && Grew(c, c')
    requires ExpiryAt(c'.store.streams, r) && r.version == Length(c.store.streams, r.seat) + 1 && r.version > 1
    requires HoldAt(c.store.streams, Ref(r.seat, r.version - 1))
    ensures r !in c.store.deadlines.firedBy && r in c'.store.deadlines.firedBy
    ensures var t := c'.store.deadlines.firedBy[r];
      && t in c.store.deadlines.holdOf
      && (t in c.store.deadlines.timers ==>
            && c.store.deadlines.timers[t].subject == r.seat
            && c.store.deadlines.timers[t].token == EventAt(c.store.streams, Ref(r.seat, r.version - 1)).body.holdId)
  {
    ReachableDeadlines(c);
    ReachableDeadlines(c');
    var d, d', streams, streams' := c.store.deadlines, c'.store.deadlines, c.store.streams, c'.store.streams;
    assert !ExpiryAt(streams, r) && ExpiryOk(streams', d', r);
    var t := d'.firedBy[r];
    NamedHold(streams, streams', d', r);
    HoldKeepsItsTimer(streams, d, streams', d', t);
    assert TimerOk(streams, d, t);
  }

  /** The hold an expiry's timer was set for stood before it, with the id it ended. */
  lemma NamedHold(streams: Streams, streams': Streams, d': Deadlines, r: Ref)
    requires r in d'.firedBy && ExpiryOk(streams', d', r)
    requires StreamOf(streams, r.seat) <= StreamOf(streams', r.seat) && r.version == Length(streams, r.seat) + 1
    requires HoldAt(streams, Ref(r.seat, r.version - 1))
    ensures var named := d'.holdOf[d'.firedBy[r]];
      && named.seat == r.seat && HoldAt(streams, named)
      && EventAt(streams, named).body.holdId == EventAt(streams, Ref(r.seat, r.version - 1)).body.holdId
  {
    var named, live := d'.holdOf[d'.firedBy[r]], Ref(r.seat, r.version - 1);
    assert EventAt(streams, named) == EventAt(streams', named);
    assert EventAt(streams, live) == EventAt(streams', live);
  }

  lemma EndingEarlyNeedsATimer(c: State, acts: seq<Action>, seat: string) returns (t: nat)
    requires Reachable(c) && HeldNow(c, seat)
    requires ExpiredBefore(c, Run(c, acts), seat, SeatNow(c, seat).expiresAt)
    ensures c.now < SeatNow(c, seat).expiresAt && EarlierTimer(c, seat, t)
  {
    var c' := Run(c, acts);
    RunGrows(c, acts);
    LiveHold(c, seat);
    var r := Ref(seat, Length(c.store.streams, seat) + 1);
    assert ExpiryAt(c'.store.streams, r);
    TimerOfOldHold(c, c', r);
    FiredLater(c, acts, r);
    t := c'.store.deadlines.firedBy[r];
  }

  lemma ATimerCanEndEarly(c: State, seat: string, t: nat)
    requires Reachable(c) && HeldNow(c, seat) && c.now < SeatNow(c, seat).expiresAt && EarlierTimer(c, seat, t)
    ensures CanEndEarly(c, seat)
  {
    LiveHold(c, seat);
    LeadsToItself(c);
    var quiet := RollBackAll(c, c);
    var due := c.store.deadlines.timers[t].fireAt;
    var to := if c.now < due then due else c.now;
    StepIsReachable(quiet, Clock(to));
    LeadsOn(c, quiet, Clock(to));
    var id := FreshId(c.usedIds);
    var ended := OneFire(c, Step(quiet, Clock(to)), t, id);
    var acts :| ended == Run(c, acts);
    assert ExpiredBefore(c, Run(c, acts), seat, SeatNow(c, seat).expiresAt);
  }

  /** From any reachable state a live hold can be ended by an expiry before its deadline exactly
      when the clock is before that deadline and a pending timer of the seat, due earlier,
      carries the hold's id. */
  lemma CanEndEarlyIff(c: State, seat: string)
    requires Reachable(c) && HeldNow(c, seat)
    ensures CanEndEarly(c, seat) <==> c.now < SeatNow(c, seat).expiresAt && exists t :: EarlierTimer(c, seat, t)
  {
    if CanEndEarly(c, seat) {
      var acts :| ExpiredBefore(c, Run(c, acts), seat, SeatNow(c, seat).expiresAt);
      var t := EndingEarlyNeedsATimer(c, acts, seat);
    }
    if t :| c.now < SeatNow(c, seat).expiresAt && EarlierTimer(c, seat, t) {
      ATimerCanEndEarly(c, seat, t);
    }
  }
}
