/** The timer scheduler and the expiry it fires: claim and effect share one transaction, and
    any number of schedulers may run at once. */
module Schedulers {
  import opened Base
  import opened Seat
  import opened EventStore
  import opened Engine
  import opened Invariants
  import opened Runs
  import opened Postgres
  import opened Handlers
  import Guarantees
  import CommitStep

  /** How many due timers one pass takes. */
  const BATCH_SIZE := 100

  function Min(a: nat, b: nat): nat { if a <= b then a else b }

  /** The timers the clock has reached. */
  function Due(c: State): set<nat> {
    set t | t in c.store.deadlines.timers && c.store.deadlines.timers[t].firedAt.None? &&
            c.store.deadlines.timers[t].fireAt <= c.now
  }

  function FireAt(c: State, t: nat): Instant {
    if t in c.store.deadlines.timers then c.store.deadlines.timers[t].fireAt else ZERO_TIME
  }

  /** A timer read as due earlier is due still, unless it has fired or is gone. */
  ghost predicate WasDue(c: State, t: nat) {
    && t in c.store.deadlines.holdOf
    && (t in c.store.deadlines.timers ==> c.store.deadlines.timers[t].fireAt <= c.now)
  }

  lemma StillDue(a: State, b: State, t: nat)
    requires WasDue(a, t) && Grew(a, b)
    ensures WasDue(b, t)
  {
    if t in b.store.deadlines.timers {
      assert a.store.deadlines.timers[t].(firedAt := None) == b.store.deadlines.timers[t].(firedAt := None);
    }
  }

  /** Reads the earliest of some timers. */
  method Earliest(timers: map<nat, TimerRow>, among: set<nat>) returns (t: nat)
    requires among != {} && among <= timers.Keys
    ensures t in among && forall u | u in among :: timers[t].fireAt <= timers[u].fireAt
  {
    t :| t in among;
    var left := among - {t};
    while left != {}
      invariant left <= among && t in among
      invariant forall u | u in among && u !in left :: timers[t].fireAt <= timers[u].fireAt
      decreases left
    {
      var u :| u in left;
      left := left - {u};
      if timers[u].fireAt < timers[t].fireAt { t := u; }
    }
  }

  /** Reads up to limit due timers, earliest deadline first, and claims nothing. */
  method ReadDue(db: Database, limit: nat) returns (due: seq<nat>)
    requires db.Valid()
    ensures |due| == Min(limit, |Due(db.state)|)
    ensures forall t | t in due :: t in Due(db.state) && WasDue(db.state, t)
    ensures forall i, j | 0 <= i < j < |due| ::
      due[i] != due[j] && FireAt(db.state, due[i]) <= FireAt(db.state, due[j])
    ensures forall t, i | t in Due(db.state) && t !in due && 0 <= i < |due| ::
      FireAt(db.state, due[i]) <= FireAt(db.state, t)
  {
    var timers := db.state.store.deadlines.timers;
    var left := Due(db.state);
    due := [];
    while left != {} && |due| < limit
      invariant left <= Due(db.state) && |due| + |left| == |Due(db.state)| && |due| <= limit
      invariant forall t :: t in due <==> t in Due(db.state) && t !in left
      invariant forall i, j | 0 <= i < j < |due| ::
        due[i] != due[j] && FireAt(db.state, due[i]) <= FireAt(db.state, due[j])
      invariant forall t, i | t in left && 0 <= i < |due| :: FireAt(db.state, due[i]) <= FireAt(db.state, t)
      decreases left
    {
      var t := Earliest(timers, left);
      due, left := due + [t], left - {t};
    }
    ReachableDeadlines(db.state);
  }

  /** Expires the hold its timer was set for, if that hold is still the live one. When it
      is not, there is nothing to append and nothing to announce. */
  method Fire(db: Database, me: nat) returns (err: Option<Failure>)
    requires db.Valid() && me in db.state.txs && db.state.txs[me].phase.Marked?
    modifies db
    ensures db.Valid() && Meanwhile(old(db.state), db.state, me)
    ensures err.None? ==> me in db.state.txs && db.state.txs[me].phase.Ready?
    ensures err.None? ==> db.state.txs[me].work == old(db.state.txs[me].work)
    ensures err.Some? ==> me !in db.state.txs && Released(old(db.state.txs[me].work), db.state)
    ensures Alone(db, old(db.state), me) && old(db.state.txs[me]).work.Deadline? ==>
      err.None? && StillAlone(old(db.state), db.state, me)
  {
    ghost var start := db.state;
    var read;
    err, read := LoadAndAppend(db, me);
    if err.Some? { return; }
    ghost var written := db.state;
    if db.state.txs[me].work.Deadline? { DeadlineNamesASeat(db.state, me); }
    err := EnqueueOutcome(db, me);
    StillMeanwhile(start, written, db.state, me);
  }

  /** A timer exists only for a hold, and a hold only on a named seat. */
  lemma DeadlineNamesASeat(c: State, x: nat)
    requires Reachable(c) && x in c.txs && c.txs[x].work.Deadline?
    ensures c.txs[x].seat != "" && c.txs[x].work.timer in c.store.deadlines.holdOf
  {
    ReachableTx(c, x);
    ReachableStreams(c);
    ReachableDeadlines(c);
    assert TimerOk(c.store.streams, c.store.deadlines, c.txs[x].work.timer);
  }

  /** Firing a timer with nobody else around takes exactly that timer off the due list. */
  lemma FiringSettlesIt(c: State, x: nat)
    requires Reachable(c) && x in c.txs && c.txs[x].phase.Ready? && c.txs[x].work.Deadline?
    ensures var t := c.txs[x].work.timer; Due(Step(c, Finish(x))) == Due(c) - {t}
    ensures Step(c, Finish(x)).txs.Keys == c.txs.Keys - {x}
  {
    ReachableTx(c, x);
    ReachableStreams(c);
    CommitStep.ReadyIsCommitting(c, c.txs[x]);
    CommitStep.OutcomeShape(c.store, c.txs[x]);
    CommitStep.CommitGrowsDeadlines(c.store.deadlines, c.txs[x]);
  }

  /** Fires a claimed timer and commits its effect and its claim together. */
  method FireAndCommit(db: Database, me: nat) returns (err: Option<Failure>)
    requires db.Valid() && me in db.state.txs && db.state.txs[me].phase.Marked? && db.state.txs[me].work.Deadline?
    modifies db
    ensures db.Valid() && me !in db.state.txs && Grew(old(db.state), db.state)
    ensures err.None? ==> Spent(db.state.store, old(db.state.txs[me].work))
    ensures err.Some? ==>
      Spent(db.state.store, old(db.state.txs[me].work)) || Released(old(db.state.txs[me].work), db.state)
    ensures Alone(db, old(db.state), me) && CanDecideNow(old(db.state), me) ==>
      && err.None? && DecidedNow(old(db.state), db.state, me)
      && Due(db.state) == Due(old(db.state)) - {old(db.state.txs[me].work.timer)}
  {
    ghost var start := db.state;
    err := Fire(db, me);
    if err.Some? { return; }
    ghost var ready := db.state;
    FiringSettlesIt(ready, me);
    if Alone(db, start, me) && CanDecideNow(start, me) { CommitsTheDecision(ready, me); }
    err := CommitOutcome(db, me);
    GrewTrans(start, ready, db.state);
  }

  /** A claim copies the timer's row, and begins at its stream's present length. */
  lemma ClaimedAsItIs(c: State, x: nat, t: nat, began: Instant)
    requires Reachable(c) && CanClaim(c, x, t, began)
    ensures var c', row := Step(c, Claim(x, t, began)), c.store.deadlines.timers[t];
      && x in c'.txs && c'.txs[x].work == Deadline(t, row.token, row.fireAt) && c'.txs[x].seat == row.subject
      && c'.txs[x].beganAt == Length(c.store.streams, row.subject) && CanDecideNow(c', x)
  {
    StepIsReachable(c, Claim(x, t, began));
    DeadlineNamesASeat(Step(c, Claim(x, t, began)), x);
  }

  /** With nobody else around a timer's transaction commits exactly what its token and
      deadline mean for the seat as it is: the expiry of that hold, or nothing. */
  ghost predicate FiredAlone(a: State, b: State, me: nat, t: nat)
    requires t in a.store.deadlines.timers
  {
    var row := a.store.deadlines.timers[t];
    var n, f := Length(a.store.streams, row.subject), Fold(Bodies(StreamOf(a.store.streams, row.subject)));
    && f.Ok?
    && b.store.commits == a.store.commits +
       [Commit(me, Deadline(t, row.token, row.fireAt), row.subject, a.now, n, n, n,
               f.value.Expire(row.subject, row.token))]
  }

  /** Claims one timer and applies its effect in one transaction. If firing fails the claim
      is rolled back with it. */
  method FireOne(db: Database, me: nat, t: nat) returns (claimed: bool, err: Option<Failure>)
    requires db.Valid() && me !in db.state.txs && WasDue(db.state, t)
    modifies db
    ensures db.Valid() && me !in db.state.txs && Grew(old(db.state), db.state)
    ensures err.None? ==> !Unfired(db.state.store.deadlines, t)
    ensures err.Some? ==> !claimed
    ensures !claimed && err.None? ==> NoCommitBy(old(db.state), db.state, me)
    ensures db.quiet && old(db.state).txs == map[] && t in Due(old(db.state)) ==>
      && claimed && err.None? && db.state.txs == map[] && Due(db.state) == Due(old(db.state)) - {t}
      && FiredAlone(old(db.state), db.state, me, t)
  {
    ghost var start := db.state;
    claimed := false;
    var began := db.state.now;
    err := BetweenStatements(db, me);
    if err.Some? { return; }
    StillDue(start, db.state, t);
    ghost var claiming := db.state;
    assert t in db.state.store.deadlines.timers ==> db.state.store.deadlines.timers[t].fireAt <= began by {
      if t in db.state.store.deadlines.timers {
        assert start.store.deadlines.timers[t].(firedAt := None) == db.state.store.deadlines.timers[t].(firedAt := None);
      }
    }
    ghost var at := db.state;
    var got;
    got, err, at := db.MarkFired(me, t, began);
    StillMeanwhile(start, claiming, at, me);
    StillMeanwhile(start, at, db.state, me);
    if !got { return; }
    ghost var firing := db.state;
    ClaimedAsItIs(at, me, t, began);
    err := FireAndCommit(db, me);
    GrewTrans(start, firing, db.state);
    claimed := err.None?;
  }

  /** How one timer of a pass went: fired here, fired or gone already, or failed. */
  datatype Firing = Fired | Spared | Failed

  function CountFired(firings: seq<Firing>): (n: nat)
    ensures n <= |firings|
  {
    if firings == [] then 0
    else CountFired(firings[..|firings| - 1]) + if firings[|firings| - 1].Fired? then 1 else 0
  }

  lemma FiredStaysFired(a: State, b: State, t: nat)
    requires Grew(a, b) && t in a.store.deadlines.holdOf && !Unfired(a.store.deadlines, t)
    ensures !Unfired(b.store.deadlines, t)
  {
  }

  /** Every timer of a pass whose firing did not fail has fired. */
  ghost predicate FiringsShow(c: State, due: seq<nat>, firings: seq<Firing>) {
    forall i | 0 <= i < |firings| && i < |due| && !firings[i].Failed? :: !Unfired(c.store.deadlines, due[i])
  }

  lemma FiringsStillShow(a: State, b: State, due: seq<nat>, firings: seq<Firing>)
    requires Grew(a, b) && FiringsShow(a, due, firings) && forall t | t in due :: WasDue(a, t)
    ensures FiringsShow(b, due, firings) && forall t | t in due :: WasDue(b, t)
  {
    forall t | t in due ensures WasDue(b, t) { StillDue(a, b, t); }
    forall i | 0 <= i < |firings| && i < |due| && !firings[i].Failed? ensures !Unfired(b.store.deadlines, due[i]) {
      assert due[i] in due && WasDue(a, due[i]);
      FiredStaysFired(a, b, due[i]);
    }
  }

  lemma OneMoreFiring(c: State, due: seq<nat>, firings: seq<Firing>, next: Firing)
    requires FiringsShow(c, due, firings) && |firings| < |due|
    requires !next.Failed? ==> !Unfired(c.store.deadlines, due[|firings|])
    ensures FiringsShow(c, due, firings + [next])
    ensures CountFired(firings + [next]) == CountFired(firings) + if next.Fired? then 1 else 0
  {
    var firings' := firings + [next];
    assert firings'[..|firings'| - 1] == firings;
    forall i | 0 <= i < |firings'| && i < |due| && !firings'[i].Failed? ensures !Unfired(c.store.deadlines, due[i]) {
      assert i < |firings| ==> firings'[i] == firings[i];
    }
  }

  /** A pass with nobody else around: the first i timers it read are off the due list. */
  ghost predicate AloneSoFar(start: State, c: State, due: seq<nat>, i: nat) {
    && c.txs == map[] && Due(c) <= Due(start) && |Due(c)| == |Due(start)| - i
    && (forall j | i <= j < |due| :: due[j] in Due(c))
  }

  lemma OneMoreAlone(start: State, c: State, c': State, due: seq<nat>, i: nat)
    requires AloneSoFar(start, c, due, i) && i < |due| && forall j, k | 0 <= j < k < |due| :: due[j] != due[k]
    requires c'.txs == map[] && Due(c') == Due(c) - {due[i]}
    ensures AloneSoFar(start, c', due, i + 1)
  {
    assert due[i] in Due(c);
  }

  /** One pass over the due timers. Every one it read is tried, whichever of them fail, and one
      that did not fail has fired by the end of the pass. */
  method Tick(db: Database, me: nat) returns (fired: nat, due: seq<nat>, firings: seq<Firing>)
    requires db.Valid() && me !in db.state.txs
    modifies db
    ensures db.Valid() && me !in db.state.txs && Grew(old(db.state), db.state)
    ensures |firings| == |due| == Min(100, |Due(old(db.state))|)
    ensures forall t | t in due :: t in Due(old(db.state))
    ensures FiringsShow(db.state, due, firings) && fired == CountFired(firings)
    ensures db.quiet && old(db.state).txs == map[] ==>
      && db.state.txs == map[] && Due(db.state) <= Due(old(db.state))
      && fired == |due| && |Due(db.state)| == |Due(old(db.state))| - fired
  {
    ghost var start := db.state;
    due := ReadDue(db, BATCH_SIZE);
    fired, firings := 0, [];
    for i := 0 to |due|
      invariant db.Valid() && me !in db.state.txs && Grew(start, db.state)
      invariant |firings| == i && fired == CountFired(firings)
      invariant (forall t | t in due :: WasDue(db.state, t)) && FiringsShow(db.state, due, firings)
      invariant db.quiet && start.txs == map[] ==> fired == i && AloneSoFar(start, db.state, due, i)
    {
      ghost var before := db.state;
      var claimed, err := FireOne(db, me, due[i]);
      GrewTrans(start, before, db.state);
      FiringsStillShow(before, db.state, due, firings);
      if db.quiet && start.txs == map[] { OneMoreAlone(start, before, db.state, due, i); }
      if err.None? && claimed { fired := fired + 1; }
      var firing := if err.Some? then Failed else if claimed then Fired else Spared;
      OneMoreFiring(db.state, due, firings, firing);
      firings := firings + [firing];
    }
  }

  /** A number of passes, one after the other. */
  method Passes(db: Database, me: nat, n: nat)
    requires db.Valid() && me !in db.state.txs
    modifies db
    ensures db.Valid() && me !in db.state.txs && Grew(old(db.state), db.state)
    ensures db.quiet && old(db.state).txs == map[] && |Due(old(db.state))| <= n * 100 ==>
      Due(db.state) == {} && NothingOverdue(db.state)
  {
    ghost var start := db.state;
    for i := 0 to n
      invariant db.Valid() && me !in db.state.txs && Grew(start, db.state)
      invariant db.quiet && start.txs == map[] && |Due(start)| <= n * BATCH_SIZE ==>
        db.state.txs == map[] && |Due(db.state)| <= (n - i) * BATCH_SIZE
    {
      ghost var before := db.state;
      var _, _, _ := Tick(db, me);
      GrewTrans(start, before, db.state);
    }
    if db.quiet && start.txs == map[] && |Due(start)| <= n * BATCH_SIZE {
      NoDueTimerNoOverdueHold(db.state);
    }
  }

  /** No seat is held past its deadline. */
  ghost predicate NothingOverdue(c: State) {
    forall seat :: var f := Fold(Bodies(StreamOf(c.store.streams, seat)));
      f.Ok? && f.value.status.Held? ==> c.now < f.value.expiresAt
  }

  /** With no timer due, no hold is overdue: every live hold has its timer. */
  lemma NoDueTimerNoOverdueHold(c: State)
    requires Reachable(c) && Due(c) == {}
    ensures NothingOverdue(c)
  {
    forall seat | Fold(Bodies(StreamOf(c.store.streams, seat))).Ok? &&
                  Fold(Bodies(StreamOf(c.store.streams, seat))).value.status.Held?
      ensures c.now < Fold(Bodies(StreamOf(c.store.streams, seat))).value.expiresAt
    {
      Guarantees.LiveHoldHasADeadline(c, seat);
      var s := Fold(Bodies(StreamOf(c.store.streams, seat))).value;
      var timers := c.store.deadlines.timers;
      var t :| t in timers && timers[t] == TimerRow(s.expiresAt, seat, s.holdId, None);
      assert t !in Due(c);
    }
  }
}
