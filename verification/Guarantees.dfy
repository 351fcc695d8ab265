/** What the database promises over every run: any interleaving of commands and timer
    fires, any redelivery, any crash. */
module Guarantees {
  import opened Base
  import opened Seat
  import opened EventStore
  import opened Engine
  import opened Invariants
  import opened Runs

  // ---- concurrent handlers refine the sequential seat ----

  /** A seat served by one writer: the commits that changed it, one after the other, each
      deciding on everything before it. */
  ghost function OneWriter(commits: seq<Commit>, seat: string): seq<Message> {
    if commits == [] then []
    else
      var n := |commits| - 1;
      var before := OneWriter(commits[..n], seat);
      if commits[n].seat != seat || commits[n].outcome.events == [] || Fold(before).Err? then before
      else before + DecideWork(commits[n].work, seat, Fold(before).value).events
  }

  lemma {:induction false} SerialPrefix(commits: seq<Commit>, i: nat, seat: string)
    requires i <= |commits|
    ensures Serial(commits[..i], seat) <= Serial(commits, seat)
    decreases |commits|
  {
    if i < |commits| {
      var n := |commits| - 1;
      assert commits[..n][..i] == commits[..i];
      SerialPrefix(commits[..n], i, seat);
    } else {
      assert commits[..i] == commits;
    }
  }

  /** An event-producing commit decided on exactly what the commits before it had written. */
  ghost predicate DecidesOnItsPast(commits: seq<Commit>, i: nat)
    requires i < |commits|
  {
    var before := Serial(commits[..i], commits[i].seat);
    commits[i].outcome.events != [] ==>
      Fold(before).Ok? && commits[i].outcome == DecideWork(commits[i].work, commits[i].seat, Fold(before).value)
  }

  lemma DecidedOnItsPast(streams: Streams, commits: seq<Commit>, i: nat)
    requires CommitsOk(streams, commits) && i < |commits|
    ensures DecidesOnItsPast(commits, i)
  {
    var m := commits[i];
    if m.outcome.events != [] {
      SerialPrefix(commits, i, m.seat);
      assert CommitOk(streams, m);
      var whole := StreamOf(streams, m.seat);
      assert Serial(commits, m.seat) == Bodies(whole);
      assert Serial(commits[..i], m.seat) == Bodies(whole[..m.decidedAt]);
    }
  }

  lemma {:induction false} OneWriterIsSerial(commits: seq<Commit>, seat: string)
    requires forall i: nat | i < |commits| :: DecidesOnItsPast(commits, i)
    ensures OneWriter(commits, seat) == Serial(commits, seat)
  {
    if commits != [] {
      var n := |commits| - 1;
      var rest := commits[..n];
      forall i: nat | i < n ensures DecidesOnItsPast(rest, i) {
        assert DecidesOnItsPast(commits, i);
        assert rest[..i] == commits[..i];
      }
      OneWriterIsSerial(rest, seat);
      assert DecidesOnItsPast(commits, n);
    }
  }

  /** Any number of concurrent handlers and schedulers leave each seat as one writer would:
      replaying the commits one at a time, each deciding afresh, gives the same stream. */
  lemma ConcurrentSeatIsSequential(c: State, seat: string)
    requires Reachable(c)
    ensures var st := c.store;
      OneWriter(st.commits, seat) == Bodies(StreamOf(st.streams, seat))
  {
    ReachableCommits(c);
    var st := c.store;
    forall i: nat | i < |st.commits| ensures DecidesOnItsPast(st.commits, i) {
      DecidedOnItsPast(st.streams, st.commits, i);
    }
    OneWriterIsSerial(st.commits, seat);
  }

  /** What the transaction's work means for the seat as it was. */
  ghost predicate Decides(work: Work, seat: string, past: SeatState, o: Outcome) {
    match work
    case Command(_, cmd) => cmd.IsCommand() && cmd.seatId == seat && Decide(past, cmd) == Ok(o)
    case Deadline(_, token, _) => o == past.Expire(seat, token)
  }

  /** Event i of a commit, as its stream has it: the message decided, the instant the
      transaction began, and the flow. A command's event carries the command's correlation id
      and its id as the cause; an expiry carries the correlation id of the event right before
      it and no cause. */
  ghost predicate StandsInItsStream(streams: Streams, m: Commit, i: nat)
    requires i < |m.outcome.events|
  {
    var stream, v := StreamOf(streams, m.seat), m.decidedAt + i;
    && v < |stream| && stream[v].body == m.outcome.events[i] && stream[v].recordedAt == m.at
    && (m.work.Command? ==>
          && stream[v].meta.correlationId == m.work.envelope.correlationId
          && stream[v].meta.causationId == m.work.envelope.id)
    && (m.work.Deadline? ==>
          && v > 0 && stream[v].meta.correlationId == stream[v - 1].meta.correlationId
          && stream[v].meta.causationId == "")
  }

  /** Every committed command or expiry, replies included, decided on a version its stream
      had between its beginning and its commit; if it produced events they stand right after
      that version, each with the flow it belongs to. */
  lemma EveryCommitIsADecision(c: State, i: nat)
    requires Reachable(c)
    requires i < |c.store.commits|
    ensures var st := c.store; var m := st.commits[i];
      && m.beganAt <= m.decidedAt <= m.committedAt <= Length(st.streams, m.seat)
      && var past := Fold(Bodies(StreamOf(st.streams, m.seat)[..m.decidedAt]));
      && past.Ok? && Decides(m.work, m.seat, past.value, m.outcome)
      && |m.outcome.events| <= 1 && m.decidedAt + |m.outcome.events| <= Length(st.streams, m.seat)
      && forall k: nat | k < |m.outcome.events| :: StandsInItsStream(st.streams, m, k)
  {
    CommitsAreInOrder(c, i);
    var st := c.store;
    CommitIsShort(st, st.commits[i]);
    CommitStands(st.streams, st.commits[i]);
  }

  lemma CommitsAreInOrder(c: State, i: nat)
    requires Reachable(c) && i < |c.store.commits|
    ensures CommitOk(c.store.streams, c.store.commits[i]) && RecordedOk(c.store.streams, c.store.commits[i])
    ensures StreamsOk(c.store.events, c.store.streams)
  {
    ReachableCommits(c);
    ReachableTraces(c);
    ReachableStreams(c);
  }

  lemma CommitStands(streams: Streams, m: Commit)
    requires RecordedOk(streams, m) && |m.outcome.events| <= 1
    ensures forall k: nat | k < |m.outcome.events| :: StandsInItsStream(streams, m, k)
  {
    forall k: nat | k < |m.outcome.events| ensures StandsInItsStream(streams, m, k) {
      assert RecordedAs(streams, m, k);
    }
  }

  /** A commit has one event at most: a deadline's is an expiry, and a command takes a hold only
      when it asks for that hold. */
  lemma CommitIsShort(st: Store, m: Commit)
    requires StreamsOk(st.events, st.streams) && CommitOk(st.streams, m)
    ensures |m.outcome.events| <= 1
    ensures m.outcome.events != [] && m.outcome.events[0].SeatHeld? ==>
      m.work.Command? && m.work.cmd.HoldSeat? && m.work.cmd.holdId == m.outcome.events[0].holdId
  {
    var stream := StreamOf(st.streams, m.seat);
    PrefixAlternates(stream, m.decidedAt);
    match m.work
    case Command(_, cmd) => DecideKeepsAlternation(Bodies(stream[..m.decidedAt]), cmd);
    case Deadline(_, token, _) => ExpireKeepsAlternation(Bodies(stream[..m.decidedAt]), m.seat, token);
  }

  /** Commit i wrote this event. */
  ghost predicate WroteIt(commits: seq<Commit>, i: nat, r: Ref)
    requires i < |commits|
  {
    && commits[i].seat == r.seat
    && commits[i].decidedAt < r.version <= commits[i].decidedAt + |commits[i].outcome.events|
  }

  lemma {:induction false} SomeCommitWrote(commits: seq<Commit>, seat: string, k: nat) returns (i: nat)
    requires k < |Serial(commits, seat)|
    ensures i < |commits| && commits[i].seat == seat
    ensures |Serial(commits[..i], seat)| <= k < |Serial(commits[..i], seat)| + |commits[i].outcome.events|
  {
    var n := |commits| - 1;
    if k < |Serial(commits[..n], seat)| {
      i := SomeCommitWrote(commits[..n], seat, k);
      assert commits[..n][..i] == commits[..i];
    } else {
      i := n;
    }
  }

  /** Every event was written by a commit. */
  lemma EveryEventHasItsCommit(c: State, r: Ref) returns (i: nat)
    requires Reachable(c) && ValidRef(c.store.streams, r)
    ensures i < |c.store.commits| && WroteIt(c.store.commits, i, r)
    ensures StandsInItsStream(c.store.streams, c.store.commits[i], 0)
    ensures c.store.commits[i].decidedAt == r.version - 1
  {
    ReachableCommits(c);
    var st := c.store;
    assert Serial(st.commits, r.seat) == Bodies(StreamOf(st.streams, r.seat));
    i := SomeCommitWrote(st.commits, r.seat, r.version - 1);
    assert CommitOk(st.streams, st.commits[i]);
    EveryCommitIsADecision(c, i);
  }

  // ---- well-formed streams ----

  /** In every reachable state the table holds versions 1..n of each stream and no others,
      the stream alternates, and loading folds all of it. */
  lemma StreamsAreWellFormed(c: State, seat: string)
    requires Reachable(c)
    ensures var st := c.store;
      var n := Length(st.streams, seat);
      && (forall v :: Key(seat, v) in st.events <==> 1 <= v <= n)
      && Loaded(st.events, seat) == StreamOf(st.streams, seat)
      && Alternates(Bodies(Loaded(st.events, seat)))
      && Fold(Bodies(Loaded(st.events, seat))).Ok?
      && Fold(Bodies(Loaded(st.events, seat))).value.version == n
  {
    ReachableStreams(c);
    LoadFolds(c, seat);
  }

  // ---- a live hold always has a deadline ----

  /** In every reachable state a seat that folds to held has a pending timer for exactly
      that hold and deadline, even when hold ids are reused. */
  lemma LiveHoldHasADeadline(c: State, seat: string)
    requires Reachable(c)
    requires Fold(Bodies(StreamOf(c.store.streams, seat))).Ok?
    requires Fold(Bodies(StreamOf(c.store.streams, seat))).value.status.Held?
    ensures var s := Fold(Bodies(StreamOf(c.store.streams, seat))).value; var timers := c.store.deadlines.timers;
      exists t :: t in timers && timers[t] == TimerRow(s.expiresAt, seat, s.holdId, None)
  {
    ReachableDeadlines(c);
    var stream := StreamOf(c.store.streams, seat);
    FoldMeaning(Bodies(stream));
    var r := Ref(seat, |stream|);
    assert HoldAt(c.store.streams, r);
    var t := c.store.deadlines.timerOf[r];
    assert TimerOk(c.store.streams, c.store.deadlines, t);
  }

  // ---- expiry is fenced and on time ----

  /** Hold ids are never taken twice on a seat. */
  ghost predicate HoldIdsUnique(streams: Streams, seat: string) {
    forall r, q | HoldAt(streams, r) && HoldAt(streams, q) && r.seat == seat && q.seat == seat && r != q ::
      EventAt(streams, r).body.holdId != EventAt(streams, q).body.holdId
  }

  /** With hold ids unique on the seat, the timer that fired an expiry is the one committed
      with the hold it ends, and it was due. */
  lemma UniqueIdsExpireTheirOwnHold(streams: Streams, d: Deadlines, r: Ref)
    requires HoldIdsUnique(streams, r.seat) && r in d.firedBy && ExpiryOk(streams, d, r)
    ensures var live := Ref(r.seat, r.version - 1);
      && d.holdOf[d.firedBy[r]] == live
      && AsTime(EventAt(streams, live).body.expiresAt) <= EventAt(streams, r).recordedAt
  {
    var live, named := Ref(r.seat, r.version - 1), d.holdOf[d.firedBy[r]];
    assert HoldAt(streams, live) && HoldAt(streams, named);
    assert EventAt(streams, live).body.holdId == EventAt(streams, named).body.holdId;
  }

  /** Commit i took the hold the expiry ends, and the expiry carries its command's flow. */
  ghost predicate TookInFlow(st: Store, i: nat, r: Ref)
    requires i < |st.commits| && ExpiryAt(st.streams, r)
  {
    var m := st.commits[i];
    && m.work.Command? && m.work.cmd.HoldSeat? && m.work.cmd.seatId == m.seat == r.seat
    && m.decidedAt + 1 == r.version - 1 && m.work.cmd.holdId == EventAt(st.streams, r).body.holdId
    && EventAt(st.streams, r).meta.correlationId == m.work.envelope.correlationId
    && EventAt(st.streams, r).meta.causationId == ""
  }

  lemma ExpiryIsInItsFlow(c: State, r: Ref)
    requires Reachable(c) && ExpiryAt(c.store.streams, r)
    ensures exists i: nat :: i < |c.store.commits| && TookInFlow(c.store, i, r)
  {
    ReachableDeadlines(c);
    var st, live := c.store, Ref(r.seat, r.version - 1);
    assert ExpiryOk(st.streams, st.deadlines, r);
    var i := EveryEventHasItsCommit(c, live);
    ReachableCommits(c);
    ReachableStreams(c);
    assert CommitOk(st.streams, st.commits[i]);
    CommitIsShort(st, st.commits[i]);
    assert TookInFlow(st, i, r);
  }

  /** In every run an expiry ends the hold right before it, whose id is its timer's token,
      in the flow that took that hold, once its timer is due (ExpiryOk spells this out).
      Where hold ids are unique it ends exactly the hold its timer was committed with, and
      never before that hold's own deadline. Its flow is the correlation id of the command
      whose commit took the hold. */
  lemma ExpiryIsFenced(c: State, r: Ref)
    requires Reachable(c)
    requires ExpiryAt(c.store.streams, r)
    ensures exists i: nat :: i < |c.store.commits| && TookInFlow(c.store, i, r)
    ensures var st := c.store; var live := Ref(r.seat, r.version - 1);
      && r in st.deadlines.firedBy && ExpiryOk(st.streams, st.deadlines, r)
      && (HoldIdsUnique(st.streams, r.seat) ==>
            && st.deadlines.holdOf[st.deadlines.firedBy[r]] == live
            && AsTime(EventAt(st.streams, live).body.expiresAt) <= EventAt(st.streams, r).recordedAt)
  {
    ReachableDeadlines(c);
    var st := c.store;
    assert ExpiryOk(st.streams, st.deadlines, r);
    if HoldIdsUnique(st.streams, r.seat) { UniqueIdsExpireTheirOwnHold(st.streams, st.deadlines, r); }
    ExpiryIsInItsFlow(c, r);
  }

  /** Where an expiry did come before the deadline of the hold it ended, its timer belongs to
      an older hold of the same seat that carried the same id and was due earlier. */
  lemma EarlyExpiryReusedAnId(c: State, r: Ref)
    requires Reachable(c) && ExpiryAt(c.store.streams, r)
    ensures var st := c.store; var live := Ref(r.seat, r.version - 1);
      && HoldAt(st.streams, live)
      && r in st.deadlines.firedBy && st.deadlines.firedBy[r] in st.deadlines.holdOf
      && (EventAt(st.streams, r).recordedAt < AsTime(EventAt(st.streams, live).body.expiresAt) ==>
            var named := st.deadlines.holdOf[st.deadlines.firedBy[r]];
            && HoldAt(st.streams, named) && named.seat == live.seat && named.version < live.version
            && EventAt(st.streams, named).body.holdId == EventAt(st.streams, live).body.holdId
            && AsTime(EventAt(st.streams, named).body.expiresAt) < AsTime(EventAt(st.streams, live).body.expiresAt))
  {
    ReachableDeadlines(c);
    assert ExpiryOk(c.store.streams, c.store.deadlines, r);
  }

  // ---- claims are taken once ----

  /** No command is applied twice and no timer fires twice, by any number of consumers and
      schedulers; what was consumed is exactly what committed. A command is known by the source
      and the id of its envelope together: neither is ever empty, and two commits never agree in
      both. */
  lemma ClaimsCommitOnce(c: State)
    requires Reachable(c)
    ensures var st := c.store;
      && (forall i | 0 <= i < |st.commits| && st.commits[i].work.Command? ::
            st.commits[i].work.envelope.source != "" && st.commits[i].work.envelope.id != "")
      && (forall i, j | 0 <= i < j < |st.commits| && st.commits[i].work.Command? && st.commits[j].work.Command? ::
            || st.commits[i].work.envelope.source != st.commits[j].work.envelope.source
            || st.commits[i].work.envelope.id != st.commits[j].work.envelope.id)
      && (forall i, j | 0 <= i < j < |st.commits| && st.commits[i].work.Deadline? && st.commits[j].work.Deadline? ::
            st.commits[i].work.timer != st.commits[j].work.timer)
      && (forall key :: key in st.mail.inbox <==>
            key.consumer == "inventory.commands" && SeenBefore(st.commits, key.source, key.eventId))
      && (forall r, q | r in st.deadlines.firedBy && q in st.deadlines.firedBy && r != q ::
            st.deadlines.firedBy[r] != st.deadlines.firedBy[q])
  {
    ReachableCommits(c);
    ReachableDeadlines(c);
    InboxIsWhatWasSeen(c.store);
    forall i | 0 <= i < |c.store.commits| && c.store.commits[i].work.Command?
      ensures c.store.commits[i].work.envelope.source != "" && c.store.commits[i].work.envelope.id != ""
    {
      assert CommitOk(c.store.streams, c.store.commits[i]);
    }
  }

  /** A timer that fired was the one scheduled with its hold, and it was due. While its row is
      kept it repeats that hold and names the instant its transaction began. */
  lemma FiredTimersWereDue(c: State, i: nat)
    requires Reachable(c) && i < |c.store.commits| && c.store.commits[i].work.Deadline?
    ensures var d, m := c.store.deadlines, c.store.commits[i]; var t := m.work.timer;
      && t in d.holdOf && d.holdOf[t].seat == m.seat && HoldAt(c.store.streams, d.holdOf[t])
      && var held := EventAt(c.store.streams, d.holdOf[t]).body;
      && var due := if held.expiresAt.Some? then held.expiresAt.value else 0;
      && m.work.token == held.holdId && m.work.fireAt == due <= m.at
      && (t in d.timers ==> d.timers[t] == TimerRow(due, m.seat, held.holdId, Some(m.at)))
  {
    ReachableTraces(c);
    ReachableDeadlines(c);
    var d, m := c.store.deadlines, c.store.commits[i];
    assert Traced(c.store.streams, c.store.mail, d, m);
    assert TimerOk(c.store.streams, d, m.work.timer);
  }

  /** Pruning deletes exactly the timers that fired at or before the cutoff, each of a hold that
      is over, and touches nothing else. */
  lemma PruneForgetsOnlyHistory(c: State, cutoff: Instant)
    requires Reachable(c)
    ensures var d, d' := c.store.deadlines, Step(c, PruneTimers(cutoff)).store.deadlines;
      && Step(c, PruneTimers(cutoff)) == c.(store := c.store.(deadlines := d.(timers := d'.timers)))
      && (forall t :: t in d'.timers <==>
            t in d.timers && (d.timers[t].firedAt.None? || d.timers[t].firedAt.value > cutoff))
      && (forall t | t in d'.timers :: d'.timers[t] == d.timers[t])
      && (forall t | t in d.timers && t !in d'.timers ::
            t in d.holdOf && d.holdOf[t].version < Length(c.store.streams, d.holdOf[t].seat))
  {
    ReachableDeadlines(c);
    var d := c.store.deadlines;
    forall t | t in d.timers && d.timers[t].firedAt.Some?
      ensures t in d.holdOf && d.holdOf[t].version < Length(c.store.streams, d.holdOf[t].seat)
    {
      assert TimerOk(c.store.streams, d, t);
    }
  }

  // ---- every message finds its saga ----

  /** The row is commit i's: filed under its cause, and saying what it decided. */
  ghost predicate IsRowOf(st: Store, id: nat, i: nat)
    requires i < |st.commits|
  {
    && id in st.mail.outbox && id in st.mail.causeOf && st.mail.causeOf[id] == OwnCause(st.commits[i])
    && Announces(st.streams, st.commits[i], st.mail.outbox[id])
  }

  /** In every reachable state the outgoing messages are the commits' own. Each row belongs to a
      commit and carries that commit's one message, event or reply, keyed by the seat; a
      command's row is in the command's flow and trace and names its id as the cause, an
      expiry's is in the flow recorded with the hold it ended and names none. Each commit that
      says anything has its row, and exactly one. */
  lemma EveryMessageIsInItsFlow(c: State)
    requires Reachable(c)
    ensures forall id | id in c.store.mail.outbox ::
      exists i: nat :: i < |c.store.commits| && IsRowOf(c.store, id, i)
    ensures forall i: nat | i < |c.store.commits| &&
                            c.store.commits[i].outcome.events + c.store.commits[i].outcome.replies != [] ::
      exists id :: IsRowOf(c.store, id, i) && forall j :: IsRowOf(c.store, j, i) ==> j == id
    ensures forall i: nat | i < |c.store.commits| && c.store.commits[i].work.Command? ::
      c.store.commits[i].outcome.events + c.store.commits[i].outcome.replies != []
    ensures IdsDistinct(c.store.mail.outbox)
  {
    ReachableMail(c);
    ReachableTraces(c);
    ReachableCommits(c);
    ReachableStreams(c);
    var st := c.store;
    forall id | id in st.mail.outbox ensures exists i: nat :: i < |st.commits| && IsRowOf(st, id, i) {
      var i := RowHasItsCommit(c, id);
    }
    forall i: nat | i < |st.commits| && st.commits[i].outcome.events + st.commits[i].outcome.replies != []
      ensures exists id :: IsRowOf(st, id, i) && forall j :: IsRowOf(st, j, i) ==> j == id
    {
      CommitHasItsRow(c, i);
    }
    forall i: nat | i < |st.commits| && st.commits[i].work.Command?
      ensures st.commits[i].outcome.events + st.commits[i].outcome.replies != []
    {
      assert CommitOk(st.streams, st.commits[i]);
      CommandSpeaks(st, st.commits[i]);
    }
  }

  lemma CommandSpeaks(st: Store, m: Commit)
    requires StreamsOk(st.events, st.streams) && CommitOk(st.streams, m) && m.work.Command?
    ensures m.outcome.events + m.outcome.replies != []
    ensures m.outcome.events != [] ==> !m.outcome.events[0].SeatHoldExpired?
  {
    var stream := StreamOf(st.streams, m.seat);
    PrefixAlternates(stream, m.decidedAt);
    DecideKeepsAlternation(Bodies(stream[..m.decidedAt]), m.work.cmd);
  }

  lemma CommitHasItsRow(c: State, i: nat)
    requires Reachable(c) && i < |c.store.commits|
    requires c.store.commits[i].outcome.events + c.store.commits[i].outcome.replies != []
    ensures exists id :: IsRowOf(c.store, id, i) && forall j :: IsRowOf(c.store, j, i) ==> j == id
  {
    ReachableMail(c);
    ReachableTraces(c);
    var st := c.store;
    assert Traced(st.streams, st.mail, st.deadlines, st.commits[i]);
    var id := st.mail.outOf[OwnCause(st.commits[i])];
    assert IsRowOf(st, id, i);
  }

  lemma RowHasItsCommit(c: State, id: nat) returns (i: nat)
    requires Reachable(c) && id in c.store.mail.outbox
    ensures i < |c.store.commits| && IsRowOf(c.store, id, i)
  {
    ReachableMail(c);
    var st := c.store;
    var cause := st.mail.causeOf[id];
    if cause.Consumed? {
      assert Consumed(cause.key) in st.mail.outOf;
      i := ConsumedByItsCommit(c, cause.key);
    } else {
      assert Expired(cause.ref) in st.mail.outOf && ExpiryAt(st.streams, cause.ref);
      i := ExpiredByItsCommit(c, cause.ref);
    }
    assert OwnCause(st.commits[i]) == st.mail.causeOf[id];
    ReachableTraces(c);
    assert Traced(st.streams, st.mail, st.deadlines, st.commits[i]);
  }

  lemma ConsumedByItsCommit(c: State, key: InboxKey) returns (i: nat)
    requires Reachable(c) && key in c.store.mail.inbox
    ensures i < |c.store.commits| && OwnCause(c.store.commits[i]) == Consumed(key)
    ensures c.store.commits[i].outcome.events + c.store.commits[i].outcome.replies != []
  {
    ReachableCommits(c);
    ReachableStreams(c);
    InboxIsWhatWasSeen(c.store);
    i :| 0 <= i < |c.store.commits| && CarriesOut(c.store.commits[i], key.source, key.eventId);
    assert CommitOk(c.store.streams, c.store.commits[i]);
    CommandSpeaks(c.store, c.store.commits[i]);
  }

  lemma ExpiredByItsCommit(c: State, r: Ref) returns (i: nat)
    requires Reachable(c) && ExpiryAt(c.store.streams, r)
    ensures i < |c.store.commits| && OwnCause(c.store.commits[i]) == Expired(r)
    ensures c.store.commits[i].outcome.events + c.store.commits[i].outcome.replies != []
  {
    i := EveryEventHasItsCommit(c, r);
    ReachableCommits(c);
    ReachableStreams(c);
    assert CommitOk(c.store.streams, c.store.commits[i]);
    if c.store.commits[i].work.Command? { CommandSpeaks(c.store, c.store.commits[i]); }
  }

  // ---- conservation ----

  ghost function HoldRefs(streams: Streams): (refs: set<Ref>)
    ensures forall r :: r in refs <==> HoldAt(streams, r)
  {
    set s, v | s in streams && 1 <= v <= |streams[s]| && streams[s][v - 1].body.SeatHeld? :: Ref(s, v)
  }

  ghost function ExpiryRefs(streams: Streams): (refs: set<Ref>)
    ensures forall r :: r in refs <==> ExpiryAt(streams, r)
  {
    set s, v | s in streams && 1 <= v <= |streams[s]| && streams[s][v - 1].body.SeatHoldExpired? :: Ref(s, v)
  }

  ghost function ConsumedCauses(keys: set<InboxKey>): set<Cause> { set k | k in keys :: Consumed(k) }

  ghost function ExpiredCauses(refs: set<Ref>): set<Cause> { set r | r in refs :: Expired(r) }

  lemma {:induction false} AsManyConsumed(keys: set<InboxKey>)
    ensures |ConsumedCauses(keys)| == |keys|
  {
    if keys != {} {
      var k :| k in keys;
      AsManyConsumed(keys - {k});
      assert ConsumedCauses(keys) == ConsumedCauses(keys - {k}) + {Consumed(k)};
    }
  }

  lemma {:induction false} AsManyExpired(refs: set<Ref>)
    ensures |ExpiredCauses(refs)| == |refs|
  {
    if refs != {} {
      var r :| r in refs;
      AsManyExpired(refs - {r});
      assert ExpiredCauses(refs) == ExpiredCauses(refs - {r}) + {Expired(r)};
    }
  }

  /** Outbox rows ever committed are as many as commands consumed plus holds expired. */
  lemma OutboxIsConserved(streams: Streams, m: Mail)
    requires LinksOk(m) && CausesOk(streams, m)
    ensures |m.outbox.Keys| == |m.inbox| + |ExpiryRefs(streams)|
  {
    InverseMapsHaveEqualSize(m.causeOf, m.outOf);
    assert m.outOf.Keys == ConsumedCauses(m.inbox) + ExpiredCauses(ExpiryRefs(streams));
    AsManyConsumed(m.inbox);
    AsManyExpired(ExpiryRefs(streams));
  }

  /** In every reachable state nothing was lost or invented between the tables: rows ever
      enqueued = commands consumed + holds expired, timers ever scheduled = holds taken, and
      each consumed command is the cause of exactly one row, which carries its id. */
  lemma Conservation(c: State)
    requires Reachable(c)
    ensures var st := c.store;
      && |st.mail.outbox.Keys| == |st.mail.inbox| + |ExpiryRefs(st.streams)|
      && |st.deadlines.holdOf.Keys| == |HoldRefs(st.streams)|
      && (forall key | key in st.mail.inbox ::
            && Consumed(key) in st.mail.outOf
            && var id := st.mail.outOf[Consumed(key)];
            && id in st.mail.outbox && st.mail.outbox[id].envelope.causationId == key.eventId
            && (forall j | j in st.mail.causeOf && st.mail.causeOf[j] == Consumed(key) :: j == id))
  {
    ReachableMail(c);
    ReachableDeadlines(c);
    var st := c.store;
    OutboxIsConserved(st.streams, st.mail);
    TimersAreConserved(st.streams, st.deadlines);
  }

  lemma TimersAreConserved(streams: Streams, d: Deadlines)
    requires TimersOk(streams, d)
    ensures |d.holdOf.Keys| == |HoldRefs(streams)|
  {
    forall t | t in d.holdOf ensures d.holdOf[t] in d.timerOf && d.timerOf[d.holdOf[t]] == t {
      assert TimerOk(streams, d, t);
    }
    InverseMapsHaveEqualSize(d.holdOf, d.timerOf);
    assert d.timerOf.Keys == HoldRefs(streams);
  }
}
