/** The command handler: one command, one seat, one transaction, retried on a version
    conflict; and the consumer-side wrapper that says which failures are permanent. */
module Handlers {
  import opened Base
  import opened Seat
  import opened EventStore
  import opened Envelopes
  import opened Engine
  import opened Invariants
  import opened Runs
  import opened Postgres

  /** How many times a version conflict is retried. */
  const CONFLICT_RETRIES := 3

  lemma GrewTrans(a: State, b: State, c: State)
    requires Grew(a, b) && Grew(b, c)
    ensures Grew(a, c)
  {
    forall s ensures StreamOf(a.store.streams, s) <= StreamOf(c.store.streams, s) {
      assert StreamOf(a.store.streams, s) <= StreamOf(b.store.streams, s);
    }
  }

  /** Committed state grew from a to b, and transaction me committed none of it. */
  ghost predicate Meanwhile(a: State, b: State, me: nat) { Grew(a, b) && NoCommitBy(a, b, me) }

  /** Neither others' moves nor a statement that does not commit ends a meanwhile. */
  lemma StillMeanwhile(a: State, b: State, c: State, me: nat)
    requires Meanwhile(a, b, me)
    requires Others(b, c, me) || (c.store == b.store && c.now == b.now) || Meanwhile(b, c, me)
    ensures Meanwhile(a, c, me)
  {
    assert Meanwhile(b, c, me);
    GrewTrans(a, b, c);
    forall i | |a.store.commits| <= i < |c.store.commits| ensures c.store.commits[i].tx != me {
      if i < |b.store.commits| { assert c.store.commits[i] == b.store.commits[i]; }
    }
  }

  lemma LengthGrows(a: State, b: State, seat: string)
    requires Grew(a, b)
    ensures Length(a.store.streams, seat) <= Length(b.store.streams, seat)
  {
    assert StreamOf(a.store.streams, seat) <= StreamOf(b.store.streams, seat);
  }

  /** Transaction me runs with nobody else connected and nothing failing. */
  ghost predicate Alone(db: Database, a: State, me: nat) { db.quiet && a.txs.Keys == {me} }

  ghost predicate StillAlone(a: State, b: State, me: nat)
    requires me in a.txs
  {
    && b.txs.Keys == {me} && b.store == a.store && b.now == a.now
    && b.txs[me].work == a.txs[me].work && b.txs[me].seat == a.txs[me].seat
    && b.txs[me].beganAt == a.txs[me].beganAt && b.txs[me].began == a.txs[me].began
  }

  /** A command handled with nobody else around: consumed before, it changes nothing; else it
      commits exactly the decision on everything its stream holds. Before means a commit of a
      command with the same source and the same id. */
  ghost predicate HandledAlone(a: State, b: State, me: nat, e: Envelope, cmd: Message)
    requires cmd.IsCommand()
  {
    var n, seat := Length(a.store.streams, cmd.seatId), Fold(Bodies(StreamOf(a.store.streams, cmd.seatId)));
    if SeenBefore(a.store.commits, e.source, e.id) then b.store == a.store
    else
      && seat.Ok? && Decide(seat.value, cmd).Ok?
      && b.store.commits == a.store.commits +
         [Commit(me, Command(e, cmd), cmd.seatId, a.now, n, n, n, Decide(seat.value, cmd).value)]
  }

  /** The transaction began at its stream's present length, on a named seat. */
  ghost predicate CanDecideNow(c: State, x: nat)
    requires x in c.txs
  {
    c.txs[x].seat != "" && c.txs[x].beganAt == Length(c.store.streams, c.txs[x].seat)
  }

  /** The transaction committed its decision on everything its stream holds. */
  ghost predicate DecidedNow(c: State, c': State, x: nat)
    requires x in c.txs
  {
    var tx, n := c.txs[x], c.txs[x].beganAt;
    var f := Fold(Bodies(StreamOf(c.store.streams, tx.seat)));
    && f.Ok? && c'.txs == c.txs - {x}
    && c'.store.commits == c.store.commits +
       [Commit(x, tx.work, tx.seat, tx.began, n, n, n, DecideWork(tx.work, tx.seat, f.value))]
  }

  lemma CommitsTheDecision(c: State, x: nat)
    requires Reachable(c) && x in c.txs && c.txs[x].phase.Ready? && CanDecideNow(c, x)
    ensures DecidedNow(c, Step(c, Finish(x)), x)
  {
    ReachableTx(c, x);
    var whole := StreamOf(c.store.streams, c.txs[x].seat);
    assert whole[..|whole|] == whole;
  }

  /** A command that a quiet database can be expected to take. */
  ghost predicate Acceptable(e: Envelope, cmd: Message) {
    cmd.IsCommand() && cmd.seatId != "" && e.source != "" && e.id != ""
  }

  /** No command, or one whose envelope lacks what the inbox needs to know it by. */
  ghost predicate Unusable(e: Envelope, cmd: Message) {
    !cmd.IsCommand() || e.source == "" || e.id == ""
  }

  /** A transaction's claim is free again: its timer has not fired, and nobody holds it. */
  ghost predicate Released(work: Work, c: State) {
    work.Deadline? ==> Unfired(c.store.deadlines, work.timer) && !TimerLocked(c.txs, work.timer)
  }

  lemma RollbackReleases(c: State, x: nat)
    requires Reachable(c) && x in c.txs
    ensures Released(c.txs[x].work, Drop(c, x))
  {
    ReachableTx(c, x);
    forall y | y in c.txs && y != x ensures !SameClaim(c.txs[x].work, c.txs[y].work) {
      ReachableApart(c, x, y);
    }
  }

  /** Between two statements: everybody else moves, and then the connection may turn out
      broken, which rolls the transaction back. */
  method BetweenStatements(db: Database, me: nat) returns (err: Option<Failure>)
    requires db.Valid()
    modifies db
    ensures db.Valid() && Meanwhile(old(db.state), db.state, me)
    ensures err.None? ==> Others(old(db.state), db.state, me)
    ensures err.Some? ==> err == Some(Unavailable) && me !in db.state.txs
    ensures err.Some? && me in old(db.state).txs ==> Released(old(db.state.txs[me].work), db.state)
    ensures db.quiet ==> err.None? && db.state == old(db.state)
  {
    ghost var start := db.state;
    db.Interleave(me);
    var broken := db.Broken();
    if !broken { return None; }
    ghost var failing := db.state;
    if me in db.state.txs { RollbackReleases(db.state, me); }
    db.Rollback(me);
    StillMeanwhile(start, failing, db.state, me);
    return Some(Unavailable);
  }

  /** Appends the decided events. A conflict means the stream has moved past the version the
      decision was taken at. */
  method AppendDecided(db: Database, me: nat) returns (err: Option<Failure>)
    requires db.Valid() && me in db.state.txs && db.state.txs[me].phase.Read?
    modifies db
    ensures db.Valid() && Meanwhile(old(db.state), db.state, me)
    ensures err.None? ==> me in db.state.txs && db.state.txs[me].phase.Written?
    ensures err.None? ==> db.state.txs[me].work == old(db.state.txs[me].work)
    ensures err.Some? ==> me !in db.state.txs && (err == Some(VersionConflict) || err == Some(Unavailable))
    ensures err.Some? ==> Released(old(db.state.txs[me].work), db.state)
    ensures err == Some(VersionConflict) ==>
      old(db.state.txs[me].state.version) < Length(db.state.store.streams, old(db.state.txs[me].seat))
    ensures Alone(db, old(db.state), me) &&
            old(db.state.txs[me].state.version == Length(db.state.store.streams, db.state.txs[me].seat)) ==>
      err.None? && StillAlone(old(db.state), db.state, me)
  {
    ghost var start := db.state;
    err := BetweenStatements(db, me);
    if err.Some? { return; }
    ghost var appending, at := db.state, db.state;
    err, at := db.AppendSeat(me);
    StillMeanwhile(start, appending, at, me);
    StillMeanwhile(start, at, db.state, me);
    if err.Some? { RollbackReleases(at, me); }
    if err == Some(Unavailable) {
      db.Rollback(me);
      StillMeanwhile(start, at, db.state, me);
    }
  }

  /** Loads the seat and appends what the work decides. A conflict reports the version that
      was read, which the stream has moved past. */
  method LoadAndAppend(db: Database, me: nat) returns (err: Option<Failure>, read: nat)
    requires db.Valid() && me in db.state.txs && db.state.txs[me].phase.Marked?
    modifies db
    ensures db.Valid() && Meanwhile(old(db.state), db.state, me)
    ensures err.None? ==> me in db.state.txs && db.state.txs[me].phase.Written?
    ensures err.None? ==> db.state.txs[me].work == old(db.state.txs[me].work)
    ensures err.Some? ==> me !in db.state.txs && (err == Some(VersionConflict) || err == Some(Unavailable))
    ensures err.Some? ==> Released(old(db.state.txs[me].work), db.state)
    ensures err == Some(VersionConflict) ==>
      var seat := old(db.state.txs[me].seat);
      Length(old(db.state).store.streams, seat) <= read < Length(db.state.store.streams, seat)
    ensures Alone(db, old(db.state), me) ==> err.None? && StillAlone(old(db.state), db.state, me)
  {
    ghost var start := db.state;
    read := 0;
    err := BetweenStatements(db, me);
    if err.Some? { return; }
    LengthGrows(start, db.state, db.state.txs[me].seat);

    ghost var loading := db.state;
    var s, _ := db.LoadSeat(me);
    StillMeanwhile(start, loading, db.state, me);
    read := s.version;

    ghost var loaded := db.state;
    err := AppendDecided(db, me);
    StillMeanwhile(start, loaded, db.state, me);
  }

  /** Frames and enqueues the decision's messages, and schedules its timers. */
  method EnqueueOutcome(db: Database, me: nat) returns (err: Option<Failure>)
    requires db.Valid() && me in db.state.txs && db.state.txs[me].phase.Written?
    modifies db
    ensures db.Valid() && Meanwhile(old(db.state), db.state, me)
    ensures err.None? ==> me in db.state.txs && db.state.txs[me].phase.Ready?
    ensures err.None? ==> db.state.txs[me].work == old(db.state.txs[me].work)
    ensures err.Some? ==> me !in db.state.txs && err == Some(Unavailable)
    ensures err.Some? ==> Released(old(db.state.txs[me].work), db.state)
    ensures Alone(db, old(db.state), me) && old(db.state.txs[me]).seat != "" ==>
      err.None? && StillAlone(old(db.state), db.state, me)
  {
    ghost var start := db.state;
    err := BetweenStatements(db, me);
    if err.Some? { return; }
    var tx := db.state.txs[me];
    var out, ids := db.Outgoing(tx.outcome.Messages(), Template(tx));
    ghost var enqueuing := db.state;
    RollbackReleases(db.state, me);
    err := db.Enqueue(me, out, ids);
    StillMeanwhile(start, enqueuing, db.state, me);
  }

  /** Commits, unless the connection breaks first. */
  method CommitOutcome(db: Database, me: nat) returns (err: Option<Failure>)
    requires db.Valid() && me in db.state.txs && db.state.txs[me].phase.Ready?
    modifies db
    ensures db.Valid() && me !in db.state.txs && Grew(old(db.state), db.state)
    ensures err.None? ==> Spent(db.state.store, old(db.state.txs[me].work))
    ensures err.Some? ==>
      Spent(db.state.store, old(db.state.txs[me].work)) || Released(old(db.state.txs[me].work), db.state)
    ensures err.None? || err == Some(Unavailable)
    ensures db.quiet ==> err.None? && db.state == Step(old(db.state), Finish(me))
  {
    ghost var start := db.state;
    err := BetweenStatements(db, me);
    if err.Some? { return; }
    ghost var committing := db.state;
    RollbackReleases(db.state, me);
    err := db.Commit(me);
    GrewTrans(start, committing, db.state);
  }

  /** From the load to the commit. */
  method SettleMarked(db: Database, me: nat) returns (err: Option<Failure>, read: nat)
    requires db.Valid() && me in db.state.txs && db.state.txs[me].phase.Marked?
    modifies db
    ensures db.Valid() && me !in db.state.txs && Grew(old(db.state), db.state)
    ensures err.None? ==> Spent(db.state.store, old(db.state.txs[me].work))
    ensures err.None? || err == Some(VersionConflict) || err == Some(Unavailable)
    ensures err == Some(VersionConflict) ==>
      var seat := old(db.state.txs[me].seat);
      && NoCommitBy(old(db.state), db.state, me)
      && Length(old(db.state).store.streams, seat) <= read < Length(db.state.store.streams, seat)
    ensures Alone(db, old(db.state), me) && CanDecideNow(old(db.state), me) ==>
      err.None? && DecidedNow(old(db.state), db.state, me)
  {
    ghost var start := db.state;
    err, read := LoadAndAppend(db, me);
    if err.Some? { return; }
    ghost var written := db.state;
    err := EnqueueOutcome(db, me);
    StillMeanwhile(start, written, db.state, me);
    if err.Some? { return; }
    ghost var ready := db.state;
    if Alone(db, start, me) && CanDecideNow(start, me) { CommitsTheDecision(ready, me); }
    err := CommitOutcome(db, me);
    GrewTrans(start, ready, db.state);
  }

  /** Marks the command consumed, in a transaction of its own from here on. */
  method MarkIncoming(db: Database, me: nat, incoming: Envelope, cmd: Message)
    returns (first: bool, err: Option<Failure>)
    requires db.Valid() && me !in db.state.txs && cmd.IsCommand() && incoming.source != "" && incoming.id != ""
    modifies db
    ensures db.Valid() && Meanwhile(old(db.state), db.state, me)
    ensures err.None? || (err == Some(Unavailable) && !first)
    ensures first <==> me in db.state.txs
    ensures first ==> db.state.txs[me].phase.Marked? && db.state.txs[me].work == Command(incoming, cmd)
    ensures first ==> db.state.txs[me].seat == cmd.seatId
    ensures !first && err.None? ==> KeyOf(incoming) in db.state.store.mail.inbox
    ensures db.quiet && old(db.state).txs == map[] ==>
      && err.None? && db.state.store == old(db.state).store && db.state.now == old(db.state).now
      && (first <==> !SeenBefore(old(db.state).store.commits, incoming.source, incoming.id))
      && db.state.txs.Keys == (if first then {me} else {})
      && (first ==> db.state.txs[me].beganAt == Length(db.state.store.streams, cmd.seatId))
      && (first ==> db.state.txs[me].began == db.state.now)
  {
    ghost var start := db.state;
    MarkFinds(start, incoming);
    db.Interleave(me);
    ghost var marking, at := db.state, db.state;
    first, err, at := db.MarkConsumed(me, incoming, cmd);
    StillMeanwhile(start, marking, at, me);
    StillMeanwhile(start, at, db.state, me);
  }

  /** Applies one command in one transaction. On a version conflict nothing of the attempt
      remains, the version it had read is reported, and the stream has moved past it. */
  method ApplyInOneTransaction(db: Database, me: nat, incoming: Envelope, cmd: Message)
    returns (err: Option<Failure>, read: nat)
    requires db.Valid() && me !in db.state.txs
    modifies db
    ensures db.Valid() && me !in db.state.txs && Grew(old(db.state), db.state)
    ensures err.None? ==>
      && KeyOf(incoming) in db.state.store.mail.inbox
      && SeenBefore(db.state.store.commits, incoming.source, incoming.id)
    ensures err == Some(NotACommand) <==> !cmd.IsCommand()
    ensures Unusable(incoming, cmd) ==> err.Some? && err != Some(VersionConflict) && db.state == old(db.state)
    ensures err == Some(VersionConflict) ==>
      && NoCommitBy(old(db.state), db.state, me)
      && Length(old(db.state).store.streams, cmd.seatId) <= read < Length(db.state.store.streams, cmd.seatId)
    ensures err != Some(RetriesExhausted)
    ensures db.quiet && old(db.state).txs == map[] && Acceptable(incoming, cmd) ==>
      err.None? && db.state.txs == map[] && HandledAlone(old(db.state), db.state, me, incoming, cmd)
  {
    read := 0;
    if !cmd.IsCommand() { return Some(NotACommand), read; }
    if incoming.source == "" || incoming.id == "" { return Some(Unavailable), read; }

    ghost var start := db.state;
    var first;
    first, err := MarkIncoming(db, me, incoming, cmd);
    MarkFinds(db.state, incoming);
    if err.Some? || !first { return; }

    ghost var marked := db.state;
    LengthGrows(start, marked, cmd.seatId);
    err, read := SettleMarked(db, me);
    GrewTrans(start, marked, db.state);
    if err == Some(VersionConflict) { StillMeanwhile(start, marked, db.state, me); }
    MarkFinds(db.state, incoming);
  }

  /** Applies one command, reloading and deciding again after a version conflict. It gives
      up only when every attempt lost to events others committed to the stream: the
      versions it read strictly increase, and the stream has gained one event at least for
      each attempt, none of them by this handler. */
  method Handle(db: Database, me: nat, incoming: Envelope, cmd: Message)
    returns (err: Option<Failure>, seen: seq<nat>)
    requires db.Valid() && me !in db.state.txs
    modifies db
    ensures db.Valid() && me !in db.state.txs && Grew(old(db.state), db.state)
    ensures err.None? ==>
      && KeyOf(incoming) in db.state.store.mail.inbox
      && SeenBefore(db.state.store.commits, incoming.source, incoming.id)
    ensures err == Some(NotACommand) <==> !cmd.IsCommand()
    ensures Unusable(incoming, cmd) ==> err.Some? && seen == [] && db.state == old(db.state)
    ensures err != Some(VersionConflict)
    ensures forall i, j | 0 <= i < j < |seen| :: seen[i] < seen[j]
    ensures err == Some(RetriesExhausted) ==>
      && |seen| == 4 && NoCommitBy(old(db.state), db.state, me)
      && Length(old(db.state).store.streams, cmd.seatId) + 4 <= Length(db.state.store.streams, cmd.seatId)
    ensures |seen| <= 4 && (|seen| == 4 <==> err == Some(RetriesExhausted))
    ensures db.quiet && old(db.state).txs == map[] && Acceptable(incoming, cmd) ==>
      err.None? && db.state.txs == map[] && HandledAlone(old(db.state), db.state, me, incoming, cmd)
  {
    seen := [];
    ghost var start := db.state;
    for attempt := 0 to CONFLICT_RETRIES + 1
      invariant db.Valid() && me !in db.state.txs && |seen| == attempt
      invariant Meanwhile(start, db.state, me)
      invariant attempt > 0 ==> cmd.IsCommand() && !Unusable(incoming, cmd)
      invariant attempt == 0 ==> db.state == start
      invariant db.quiet && start.txs == map[] && Acceptable(incoming, cmd) ==> attempt == 0 && db.state == start
      invariant forall i, j | 0 <= i < j < |seen| :: seen[i] < seen[j]
      invariant cmd.IsCommand() ==> forall i | 0 <= i < |seen| ::
        seen[i] < Length(db.state.store.streams, cmd.seatId)
      invariant cmd.IsCommand() ==>
        Length(start.store.streams, cmd.seatId) + attempt <= Length(db.state.store.streams, cmd.seatId)
    {
      ghost var before := db.state;
      var e, read := ApplyInOneTransaction(db, me, incoming, cmd);
      GrewTrans(start, before, db.state);
      if e != Some(VersionConflict) { return e, seen; }
      StillMeanwhile(start, before, db.state, me);
      seen := seen + [read];
    }
    return Some(RetriesExhausted), seen;
  }

  datatype Verdict = Done | Permanent | Transient

  /** The consumer's handler: parse, decode, apply. Done means the command is consumed.
      Permanent means redelivery could not help: the headers are no CloudEvent, the bytes
      are no known message, or the message is no command. */
  method Deliver(db: Database, me: nat, headers: Headers, decoded: Option<Message>) returns (r: Verdict)
    requires db.Valid() && me !in db.state.txs
    modifies db
    ensures db.Valid() && me !in db.state.txs && Grew(old(db.state), db.state)
    ensures r.Done? ==>
      && Parse(headers).Ok? && KeyOf(Parse(headers).value) in db.state.store.mail.inbox
      && SeenBefore(db.state.store.commits, Parse(headers).value.source, Parse(headers).value.id)
    ensures r.Permanent? ==> db.state == old(db.state)
    ensures r.Permanent? <==> Parse(headers).Err? || decoded.None? || !decoded.value.IsCommand()
    ensures db.quiet && old(db.state).txs == map[] && !r.Permanent? && decoded.value.seatId != "" ==>
      r.Done? && HandledAlone(old(db.state), db.state, me, Parse(headers).value, decoded.value)
  {
    var parsed := ParseHeaders(headers);
    if parsed.Err? || decoded.None? { return Permanent; }
    var err, _ := Handle(db, me, parsed.value, decoded.value);
    if err == Some(NotACommand) { return Permanent; }
    return if err.None? then Done else Transient;
  }
}
