/** The database as the service's code meets it: an object whose methods are the statements
    of a transaction, each one atomic and each one a step of the state machine. Between two
    statements of one caller, everybody else may move. */
module Postgres {
  import opened Base
  import opened Seat
  import opened EventStore
  import opened Envelopes
  import opened Engine
  import opened Invariants
  import opened Runs
  import CommitStep

  // ---- what others may do ----

  predicate By(a: Action, me: nat) {
    match a
    case Receive(x, _, _) => x == me
    case Claim(x, _, _) => x == me
    case Load(x) => x == me
    case Append(x) => x == me
    case Enqueue(x, _) => x == me
    case Finish(x) => x == me
    case Abort(x) => x == me
    case Clock(_) => false
    case PruneTimers(_) => false
  }

  /** Committed state only grows: streams at their end, the inbox, the commit history, the
      clock. A timer stays with its hold, and its row never changes except that it fires, or
      is pruned once it has. */
  ghost predicate Grew(a: State, b: State) {
    && (forall s :: StreamOf(a.store.streams, s) <= StreamOf(b.store.streams, s))
    && a.store.mail.inbox <= b.store.mail.inbox
    && |a.store.commits| <= |b.store.commits| && b.store.commits[..|a.store.commits|] == a.store.commits
    && a.now <= b.now
    && TimersKept(a.store.deadlines, b.store.deadlines)
  }

  ghost predicate TimersKept(a: Deadlines, b: Deadlines) {
    && (forall t | t in a.holdOf :: t in b.holdOf && b.holdOf[t] == a.holdOf[t])
    && (forall t | t in a.holdOf && Unfired(b, t) :: Unfired(a, t))
    && (forall t | t in b.timers && t in a.holdOf ::
          t in a.timers && a.timers[t].(firedAt := None) == b.timers[t].(firedAt := None))
  }

  /** No commit between the two states is by this transaction. */
  ghost predicate NoCommitBy(a: State, b: State, me: nat) {
    forall i | |a.store.commits| <= i < |b.store.commits| :: b.store.commits[i].tx != me
  }

  /** What transaction me can count on while it is not moving. */
  ghost predicate Others(a: State, b: State, me: nat) {
    && Grew(a, b) && NoCommitBy(a, b, me)
    && (me in a.txs <==> me in b.txs)
    && (me in a.txs ==> b.txs[me] == a.txs[me])
  }

  lemma OthersTrans(a: State, b: State, c: State, me: nat)
    requires Others(a, b, me) && Others(b, c, me)
    ensures Others(a, c, me)
  {
    forall s ensures StreamOf(a.store.streams, s) <= StreamOf(c.store.streams, s) {
      assert StreamOf(a.store.streams, s) <= StreamOf(b.store.streams, s);
    }
    forall i | |a.store.commits| <= i < |c.store.commits| ensures c.store.commits[i].tx != me {
      if i < |b.store.commits| { assert c.store.commits[i] == b.store.commits[i]; }
    }
  }

  lemma CommitGrowsStore(c: State, x: nat)
    requires x in c.txs && CommitStep.Committing(c.store, c.txs[x])
    requires Shaped(c.txs[x].outcome)
    ensures Grew(c, DoFinish(c, x))
  {
    var tx, c' := c.txs[x], DoFinish(c, x);
    CommitStep.CommitGrows(c.store.streams, tx);
    CommitStep.CommitGrowsDeadlines(c.store.deadlines, tx);
    forall s ensures StreamOf(c.store.streams, s) <= StreamOf(c'.store.streams, s) {
      assert StreamOf(c'.store.streams, s) ==
        StreamOf(c.store.streams, s) + if s == tx.seat then Pending(tx) else [];
    }
  }

  lemma FinishGrows(c: State, x: nat)
    requires Reachable(c) && x in c.txs && c.txs[x].phase.Ready?
    ensures |c.txs[x].ids| == |c.txs[x].outcome.Messages()|
    ensures Grew(c, DoFinish(c, x))
  {
    assert CommitStep.Committing(c.store, c.txs[x]) && Shaped(c.txs[x].outcome) by {
      ReachableTx(c, x);
      ReachableStreams(c);
      CommitStep.ReadyIsCommitting(c, c.txs[x]);
    }
    CommitGrowsStore(c, x);
  }

  lemma FinishSpends(c: State, x: nat)
    requires Reachable(c) && x in c.txs && c.txs[x].phase.Ready?
    ensures |c.txs[x].ids| == |c.txs[x].outcome.Messages()|
    ensures Spent(DoFinish(c, x).store, c.txs[x].work)
  {
    ReachableTx(c, x);
    ReachableStreams(c);
    CommitStep.ReadyIsCommitting(c, c.txs[x]);
    CommitStep.OutcomeShape(c.store, c.txs[x]);
    CommitStep.CommitSpendsOwn(c.store, x, c.txs[x]);
  }

  lemma FinishIsAStep(c: State, x: nat)
    requires x in c.txs && c.txs[x].phase.Ready? && |c.txs[x].ids| == |c.txs[x].outcome.Messages()|
    ensures DoFinish(c, x) == Step(c, Finish(x))
  {
  }

  /** A transaction that can commit: the commit is a step, it grew the store, and the
      transaction's claim is spent. */
  lemma CommitIsAStep(c: State, x: nat)
    requires Reachable(c) && x in c.txs && c.txs[x].phase.Ready?
    ensures |c.txs[x].ids| == |c.txs[x].outcome.Messages()|
    ensures DoFinish(c, x) == Step(c, Finish(x)) && Reachable(DoFinish(c, x))
    ensures Grew(c, DoFinish(c, x)) && Spent(DoFinish(c, x).store, c.txs[x].work)
  {
    FinishGrows(c, x);
    FinishSpends(c, x);
    StepIsReachable(c, Finish(x));
    FinishIsAStep(c, x);
  }

  /** A statement that does not commit leaves committed state as it is. */
  lemma QuietStepGrows(c: State, a: Action)
    requires !a.Finish?
    ensures Grew(c, Step(c, a)) && Step(c, a).store.commits == c.store.commits
  {
  }

  lemma StepKeepsOthers(c: State, a: Action, me: nat)
    requires !By(a, me)
    ensures me in c.txs <==> me in Step(c, a).txs
    ensures me in c.txs ==> Step(c, a).txs[me] == c.txs[me]
  {
  }

  /** A step of somebody else is something me can count on. */
  lemma StepOfOthers(c: State, a: Action, me: nat)
    requires Reachable(c) && !By(a, me)
    ensures Others(c, Step(c, a), me)
  {
    StepKeepsOthers(c, a, me);
    if a.Finish? {
      if a.tx in c.txs && c.txs[a.tx].phase.Ready? { FinishGrows(c, a.tx); }
    } else {
      QuietStepGrows(c, a);
    }
  }

  /** Every step only adds. */
  lemma StepGrows(c: State, a: Action)
    requires Reachable(c)
    ensures Grew(c, Step(c, a))
  {
    if a.Finish? {
      StepOfOthers(c, a, a.tx + 1);
    } else {
      QuietStepGrows(c, a);
    }
  }

  // ---- what a statement finds ----

  /** The append of a loaded transaction: its stream has reached the version it read, and it
      conflicts exactly when the stream has moved on since. */
  lemma AppendFinds(c: State, x: nat)
    requires Reachable(c) && x in c.txs && c.txs[x].phase.Read?
    ensures c.txs[x].state.version <= Length(c.store.streams, c.txs[x].seat)
    ensures c.txs[x].outcome.events != [] ==>
      (Conflicts(c.store, c.txs[x]) <==> c.txs[x].state.version < Length(c.store.streams, c.txs[x].seat))
  {
    ReachableTx(c, x);
    ReachableStreams(c);
    if c.txs[x].outcome.events != [] { ConflictMeansProgress(c, c.txs[x]); }
  }

  /** What the append does, and how its rows show it. */
  lemma AppendDoes(c: State, x: nat)
    requires Reachable(c) && x in c.txs && c.txs[x].phase.Read?
    ensures var tx := c.txs[x]; var written := c.(txs := c.txs[x := tx.(phase := Written)]);
      && Reachable(Step(c, Append(x)))
      && Step(c, Append(x)) ==
         (if tx.outcome.events == [] then written
          else if tx.state.version < Length(c.store.streams, tx.seat) then Drop(c, x)
          else if VersionLocked(c.txs, tx.seat, tx.state.version + 1) then c
          else written)
    ensures var tx := c.txs[x];
      tx.outcome.events != [] ==>
        ((exists k | k in RowsAt(tx.seat, tx.state.version, Pending(tx)) :: k in c.store.events) <==>
         tx.state.version < Length(c.store.streams, tx.seat))
  {
    StepIsReachable(c, Append(x));
    AppendFinds(c, x);
    var tx := c.txs[x];
    if tx.outcome.events != [] { ConflictShows(c.store, tx); }
  }

  lemma ConflictShows(st: Store, tx: Tx)
    ensures Conflicts(st, tx) <==> exists k | k in RowsAt(tx.seat, tx.state.version, Pending(tx)) :: k in st.events
  {
    var rows := RowsAt(tx.seat, tx.state.version, Pending(tx));
    forall v | tx.state.version < v <= tx.state.version + |Pending(tx)| ensures Key(tx.seat, v) in rows {
    }
    forall k | k in rows ensures k == Key(tx.seat, k.version) {
    }
  }

  // ---- what a statement waits for ----

  /** Transaction x is open and has marked the command with this source and id. */
  ghost predicate MarkedBy(c: State, x: nat, source: string, id: string) {
    && x in c.txs && c.txs[x].work.Command?
    && c.txs[x].work.envelope.source == source && c.txs[x].work.envelope.id == id
  }

  /** Transaction x is open and has claimed this timer. */
  ghost predicate ClaimedBy(c: State, x: nat, timer: nat) {
    x in c.txs && c.txs[x].work.Deadline? && c.txs[x].work.timer == timer
  }

  /** Transaction x is open and has written an event of this stream at this version. */
  ghost predicate WritesAt(c: State, x: nat, seat: string, version: int) {
    && x in c.txs && c.txs[x].seat == seat && (c.txs[x].phase.Written? || c.txs[x].phase.Ready?)
    && c.txs[x].state.version < version <= c.txs[x].state.version + |c.txs[x].outcome.events|
  }

  ghost predicate SomeoneElseWrites(c: State, me: nat, seat: string, version: int) {
    exists x :: x != me && WritesAt(c, x, seat, version)
  }

  /** A mark waits for one with the same source and id, and finds what has committed. */
  lemma MarkFinds(c: State, e: Envelope)
    requires Reachable(c)
    ensures KeyLocked(c.txs, KeyOf(e)) ==> exists x :: MarkedBy(c, x, e.source, e.id)
    ensures KeyOf(e) in c.store.mail.inbox <==> SeenBefore(c.store.commits, e.source, e.id)
  {
    ReachableCommits(c);
    InboxIsWhatWasSeen(c.store);
    if KeyLocked(c.txs, KeyOf(e)) {
      var x :| x in c.txs && c.txs[x].work.Command? && KeyOf(c.txs[x].work.envelope) == KeyOf(e);
      assert MarkedBy(c, x, e.source, e.id);
    }
  }

  lemma ClaimFinds(c: State, timer: nat)
    ensures TimerLocked(c.txs, timer) ==> exists x :: ClaimedBy(c, x, timer)
  {
    if TimerLocked(c.txs, timer) {
      var x :| x in c.txs && c.txs[x].work.Deadline? && c.txs[x].work.timer == timer;
      assert ClaimedBy(c, x, timer);
    }
  }

  lemma WriteFinds(c: State, me: nat, seat: string, version: int)
    requires me in c.txs ==> c.txs[me].phase.Read?
    ensures VersionLocked(c.txs, seat, version) ==> SomeoneElseWrites(c, me, seat, version)
  {
    if VersionLocked(c.txs, seat, version) {
      var x :| x in c.txs && HasPending(c.txs[x]) && c.txs[x].seat == seat &&
        c.txs[x].state.version < version <= c.txs[x].state.version + |c.txs[x].outcome.events|;
      assert WritesAt(c, x, seat, version);
    }
  }

  /** While a transaction holds a timer's claim, the timer has not fired. */
  lemma LockedIsUnfired(c: State, timer: nat)
    requires Reachable(c) && TimerLocked(c.txs, timer)
    ensures Unfired(c.store.deadlines, timer)
  {
    var x :| x in c.txs && c.txs[x].work.Deadline? && c.txs[x].work.timer == timer;
    ReachableTx(c, x);
  }

  lemma LoadFinds(c: State, seat: string)
    requires Reachable(c)
    ensures Loaded(c.store.events, seat) == StreamOf(c.store.streams, seat)
    ensures var f := Fold(Bodies(Loaded(c.store.events, seat)));
      f.Ok? && f.value.version == Length(c.store.streams, seat)
  {
    ReachableStreams(c);
    LoadFolds(c, seat);
  }

  datatype Failure =
    | VersionConflict
    | RetriesExhausted   // a version conflict that outlived its retries
    | NotACommand
    | Unavailable        // anything else: a broken connection, a wait that was cancelled

  class Database {
    var state: State
    /** Nobody else is connected and nothing fails. */
    const quiet: bool

    constructor (now: Instant, quiet: bool)
      ensures Valid() && state == Init(now) && this.quiet == quiet
    {
      state, this.quiet := Init(now), quiet;
      new;
      assert Run(Init(now), []) == Init(now);
    }

    /** Some run of the machine led here, so every invariant of Runs holds. */
    ghost predicate Valid()
      reads this
    {
      Reachable(state)
    }

    /** Everybody but me moves, any number of times, in any way the machine allows. */
    method Interleave(me: nat)
      requires Valid()
      modifies this
      ensures Valid() && Others(old(state), state, me)
      ensures quiet ==> state == old(state)
    {
      if quiet { return; }
      var acts: seq<Action> := *;
      for i := 0 to |acts|
        invariant Valid() && Others(old(state), state, me)
      {
        if !By(acts[i], me) {
          StepOfOthers(state, acts[i], me);
          StepIsReachable(state, acts[i]);
          OthersTrans(old(state), state, Step(state, acts[i]), me);
          state := Step(state, acts[i]);
        }
      }
    }

    /** Whether the next statement fails. */
    method Broken() returns (broken: bool)
      ensures quiet ==> !broken
    {
      broken := *;
      if quiet { broken := false; }
    }

    /** A new message id: not empty and not used before. */
    method NewId(used: set<string>) returns (id: string)
      ensures id !in used && id != ""
    {
      var left, longest := used, 0;
      while left != {}
        invariant left <= used && 0 <= longest
        invariant forall s | s in used && s !in left :: |s| <= longest
        decreases left
      {
        var s :| s in left;
        left := left - {s};
        longest := if |s| > longest then |s| else longest;
      }
      id := seq(longest + 1, i => '0');
    }

    // ---- statements ----

    /** Marks a command consumed; not first means it was consumed before. An uncommitted mark
        with the same key makes it wait, while others move, until that transaction ends or the
        wait is cancelled. The statement takes effect on the state at. */
    method MarkConsumed(me: nat, e: Envelope, cmd: Message)
      returns (first: bool, err: Option<Failure>, ghost at: State)
      requires Valid() && me !in state.txs && cmd.IsCommand() && e.source != "" && e.id != ""
      modifies this
      ensures Valid() && Reachable(at) && Others(old(state), at, me) && (quiet ==> at == old(state))
      ensures err.None? || err == Some(Unavailable)
      ensures err.None? ==> state == Step(at, Receive(me, e, cmd))
      ensures err.Some? ==> !first && state == at && exists x :: MarkedBy(at, x, e.source, e.id)
      ensures err.None? ==> (first <==> !SeenBefore(at.store.commits, e.source, e.id))
      ensures first <==> me in state.txs
      ensures first ==> state.txs[me].work == Command(e, cmd) && state.txs[me].phase.Marked?
      ensures first ==> state.store == at.store && state.now == at.now
      ensures !first ==> state == at
      ensures !first && err.None? ==> KeyOf(e) in state.store.mail.inbox
    {
      first, err := false, None;
      var patience: nat := *;
      while KeyOf(e) !in state.store.mail.inbox && KeyLocked(state.txs, KeyOf(e)) && patience > 0
        invariant Valid() && Others(old(state), state, me) && (quiet ==> state == old(state))
        decreases patience
      {
        ghost var before := state;
        Interleave(me);
        OthersTrans(old(state), before, state, me);
        patience := patience - 1;
      }
      at := state;
      StepIsReachable(state, Receive(me, e, cmd));
      MarkFinds(state, e);
      if KeyOf(e) in state.store.mail.inbox { return; }
      if KeyLocked(state.txs, KeyOf(e)) {
        err := Some(Unavailable);
        return;
      }
      first := true;
      state := DoReceive(state, me, e, cmd);
    }

    /** Claims a timer for a transaction that began at the given instant; not got means it has
        fired or is gone. A claim that has not committed makes it wait, while others move,
        until that transaction ends or the wait is cancelled. */
    method MarkFired(me: nat, timer: nat, began: Instant)
      returns (got: bool, err: Option<Failure>, ghost at: State)
      requires Valid() && me !in state.txs && began <= state.now && timer in state.store.deadlines.holdOf
      requires timer in state.store.deadlines.timers ==> state.store.deadlines.timers[timer].fireAt <= began
      modifies this
      ensures Valid() && Reachable(at) && Others(old(state), at, me) && (quiet ==> at == old(state))
      ensures err.None? || err == Some(Unavailable)
      ensures err.None? ==> state == Step(at, Claim(me, timer, began))
      ensures err.Some? ==> !got && state == at && exists x :: ClaimedBy(at, x, timer)
      ensures got <==> me in state.txs
      ensures err.None? ==> (got <==> Unfired(at.store.deadlines, timer))
      ensures got ==> CanClaim(at, me, timer, began)
      ensures got ==> state.txs[me].work.Deadline? && state.txs[me].work.timer == timer
      ensures got ==> state.txs[me].phase.Marked? && state.txs.Keys == at.txs.Keys + {me}
      ensures got ==> state.store == at.store && state.now == at.now
      ensures !got ==> state == at
    {
      got, err := false, None;
      var patience: nat := *;
      while TimerLocked(state.txs, timer) && patience > 0
        invariant Valid() && Others(old(state), state, me) && (quiet ==> state == old(state))
        decreases patience
      {
        ghost var before := state;
        Interleave(me);
        OthersTrans(old(state), before, state, me);
        patience := patience - 1;
      }
      at := state;
      StepIsReachable(state, Claim(me, timer, began));
      ClaimFinds(state, timer);
      if TimerLocked(state.txs, timer) { LockedIsUnfired(state, timer); }
      if timer !in state.store.deadlines.timers || state.store.deadlines.timers[timer].firedAt.Some? { return; }
      if TimerLocked(state.txs, timer) {
        err := Some(Unavailable);
        return;
      }
      got := true;
      state := DoClaim(state, me, timer, began);
    }

    /** Reads the transaction's seat: decodes row by row, folds, and keeps the metadata of
        the last event. */
    method LoadSeat(me: nat) returns (s: SeatState, last: Meta)
      requires Valid() && me in state.txs && state.txs[me].phase.Marked?
      modifies this
      ensures Valid() && state == Step(old(state), Load(me))
      ensures me in state.txs && state.txs[me].phase.Read?
      ensures state.txs[me].work == old(state.txs[me].work) && state.txs[me].seat == old(state.txs[me].seat)
      ensures state.txs[me].beganAt == old(state.txs[me].beganAt)
      ensures s == state.txs[me].state && last == state.txs[me].last
      ensures s.version == Length(state.store.streams, state.txs[me].seat)
      ensures state.txs.Keys == old(state.txs.Keys)
      ensures state.store == old(state.store) && state.now == old(state.now)
    {
      var tx := state.txs[me];
      StepIsReachable(state, Load(me));
      LoadFinds(state, tx.seat);
      var recs := EventStore.Read(state.store.events, tx.seat);
      var msgs: seq<Message> := [];
      for i := 0 to |recs|
        invariant msgs == Bodies(recs)[..i]
      {
        assert Bodies(recs)[..i + 1] == Bodies(recs)[..i] + [recs[i].body];
        msgs := msgs + [recs[i].body];
      }
      assert msgs == Bodies(recs);
      var folded := Replay(msgs);
      last := LastMeta(recs);
      s := folded.value;
      state := state.(txs := state.txs[me := tx.(phase := Engine.Read, state := s, last := last,
                                                  outcome := DecideWork(tx.work, tx.seat, s))]);
    }

    /** Waits for an uncommitted row at this version, while others move, until its transaction
        ends or the wait is cancelled. */
    method AwaitVersion(me: nat, seat: string, version: int)
      requires Valid()
      modifies this
      ensures Valid() && Others(old(state), state, me) && (quiet ==> state == old(state))
    {
      var patience: nat := *;
      while VersionLocked(state.txs, seat, version) && patience > 0
        invariant Valid() && Others(old(state), state, me) && (quiet ==> state == old(state))
        decreases patience
      {
        ghost var before := state;
        Interleave(me);
        OthersTrans(old(state), before, state, me);
        patience := patience - 1;
      }
    }

    /** The insert itself, once it no longer waits: a committed row at this version is a version
        conflict, an uncommitted one means the wait was cancelled. */
    method InsertEvents(me: nat) returns (err: Option<Failure>)
      requires Valid() && me in state.txs && state.txs[me].phase.Read?
      modifies this
      ensures Valid() && state.store == old(state.store) && state.now == old(state.now)
      ensures err.None? || err == Some(VersionConflict) || err == Some(Unavailable)
      ensures err != Some(Unavailable) ==> state == Step(old(state), Append(me))
      ensures err == Some(Unavailable) ==>
        state == old(state) && VersionLocked(state.txs, state.txs[me].seat, state.txs[me].state.version + 1)
      ensures var tx := old(state.txs[me]);
        && (err == Some(VersionConflict) <==>
              tx.outcome.events != [] && tx.state.version < Length(old(state.store.streams), tx.seat))
        && (err == Some(VersionConflict) ==> state == Drop(old(state), me))
        && (err.None? ==> state.txs == old(state.txs)[me := tx.(phase := Written)])
        && (tx.outcome.events == [] ==> err.None?)
    {
      var tx := state.txs[me];
      var rows := FillRows(tx.seat, tx.state.version, Pending(tx));
      AppendDoes(state, me);
      if |tx.outcome.events| > 0 {
        if exists k | k in rows :: k in state.store.events {
          state := Drop(state, me);
          return Some(VersionConflict);
        }
        if VersionLocked(state.txs, tx.seat, tx.state.version + 1) { return Some(Unavailable); }
      }
      state := state.(txs := state.txs[me := tx.(phase := Written)]);
      return None;
    }

    /** Inserts the decided events after the version that was read. A committed row there is a
        version conflict at once; an uncommitted one makes it wait, while others move, until
        that transaction ends or the wait is cancelled. */
    method AppendSeat(me: nat) returns (err: Option<Failure>, ghost at: State)
      requires Valid() && me in state.txs && state.txs[me].phase.Read?
      modifies this
      ensures Valid() && Reachable(at) && Others(old(state), at, me) && (quiet ==> at == old(state))
      ensures state.store == at.store && state.now == at.now
      ensures err.None? || err == Some(VersionConflict) || err == Some(Unavailable)
      ensures err != Some(Unavailable) ==> state == Step(at, Append(me))
      ensures err == Some(Unavailable) ==>
        && state == at && me in at.txs
        && SomeoneElseWrites(at, me, at.txs[me].seat, at.txs[me].state.version + 1)
      ensures err == Some(VersionConflict) <==>
        at.txs[me].outcome.events != [] && at.txs[me].state.version < Length(at.store.streams, at.txs[me].seat)
      ensures err == Some(VersionConflict) ==> me !in state.txs && state == Drop(at, me)
      ensures err.None? ==> state.txs == at.txs[me := at.txs[me].(phase := Written)]
      ensures old(state.txs[me].outcome.events) == [] ==> err.None?
    {
      var tx := state.txs[me];
      if |tx.outcome.events| > 0 { AwaitVersion(me, tx.seat, tx.state.version + 1); }
      at := state;
      WriteFinds(state, me, tx.seat, tx.state.version + 1);
      err := InsertEvents(me);
    }

    /** Frames each message of a decision in an envelope of its own. */
    method Outgoing(msgs: seq<Message>, template: Envelope) returns (out: seq<OutRow>, ids: seq<string>)
      ensures |out| == |ids| == |msgs| && Fresh(state.usedIds, ids)
      ensures forall i | 0 <= i < |msgs| :: out[i] == Frame(template, ids[i], msgs[i])
    {
      out, ids := [], [];
      var used := state.usedIds;
      for i := 0 to |msgs|
        invariant |out| == |ids| == i && Fresh(state.usedIds, ids)
        invariant used == state.usedIds + set id | id in ids
        invariant forall j | 0 <= j < i :: out[j] == Frame(template, ids[j], msgs[j])
      {
        var id := NewId(used);
        out := out + [OutRow(EVENTS_TOPIC, template.subject,
                             template.(id := id, ceType := msgs[i].TypeName()), msgs[i])];
        ids := ids + [id];
        used := used + {id};
      }
    }

    /** Schedules the decided timers and enqueues the messages. */
    method Enqueue(me: nat, out: seq<OutRow>, ids: seq<string>) returns (err: Option<Failure>)
      requires Valid() && me in state.txs && state.txs[me].phase.Written?
      requires |out| == |ids| == |state.txs[me].outcome.Messages()| && Fresh(state.usedIds, ids)
      requires forall i | 0 <= i < |out| ::
        out[i] == Frame(Template(state.txs[me]), ids[i], state.txs[me].outcome.Messages()[i])
      modifies this
      ensures Valid() && state == Step(old(state), Engine.Enqueue(me, ids))
      ensures state.store == old(state.store) && state.now == old(state.now)
      ensures err.None? || err == Some(Unavailable)
      ensures err.None? <==> me in state.txs
      ensures err.Some? <==> out != [] && old(state.txs[me].seat) == ""
      ensures err.Some? ==> state == Drop(old(state), me)
      ensures err.None? ==> state.txs[me].phase.Ready? && state.txs[me].work == old(state.txs[me].work)
      ensures err.None? ==> state.txs[me].seat == old(state.txs[me].seat)
      ensures err.None? ==> state.txs[me].beganAt == old(state.txs[me].beganAt)
      ensures err.None? ==> state.txs.Keys == old(state.txs.Keys)
    {
      var tx := state.txs[me];
      StepIsReachable(state, Engine.Enqueue(me, ids));
      if out != [] && out[0].key == "" {
        state := Drop(state, me);
        return Some(Unavailable);
      }
      state := state.(
        txs := state.txs[me := tx.(phase := Ready, firstTimer := state.nextTimer,
                                   firstOut := state.nextOut, ids := ids)],
        nextTimer := state.nextTimer + |tx.outcome.timers|,
        nextOut := state.nextOut + |out|,
        usedIds := state.usedIds + set id | id in ids);
      return None;
    }

    /** Commits, or fails before the commit, or commits and reports a failure all the same. */
    method Commit(me: nat) returns (err: Option<Failure>)
      requires Valid() && me in state.txs && state.txs[me].phase.Ready?
      modifies this
      ensures Valid() && me !in state.txs
      ensures || (state == Step(old(state), Finish(me)) && Spent(state.store, old(state.txs[me].work)))
              || (err.Some? && state == Drop(old(state), me))
      ensures Grew(old(state), state)
      ensures err.None? || err == Some(Unavailable)
      ensures err.None? ==> state == Step(old(state), Finish(me))
      ensures quiet ==> err.None?
    {
      var lost := Broken();
      if lost {
        QuietStepGrows(state, Abort(me));
        Rollback(me);
        return Some(Unavailable);
      }
      CommitIsAStep(state, me);
      state := DoFinish(state, me);
      var unheard := Broken();
      return if unheard then Some(Unavailable) else None;
    }

    method Rollback(me: nat)
      requires Valid()
      modifies this
      ensures Valid() && state == Drop(old(state), me)
    {
      StepIsReachable(state, Abort(me));
      state := Drop(state, me);
    }
  }
}
