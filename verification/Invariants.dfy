/** What holds in every reachable state of the database: one predicate per table, one per
    transaction in flight, and one for pairs of transactions. */
module Invariants {
  import opened Base
  import opened Seat
  import opened EventStore
  import opened Engine

  // ---- committed state ----

  ghost predicate ValidRef(streams: Streams, r: Ref) { 1 <= r.version <= Length(streams, r.seat) }

  ghost function EventAt(streams: Streams, r: Ref): Recorded
    requires ValidRef(streams, r)
  {
    StreamOf(streams, r.seat)[r.version - 1]
  }

  ghost predicate HoldAt(streams: Streams, r: Ref) {
    ValidRef(streams, r) && EventAt(streams, r).body.SeatHeld?
  }

  ghost predicate ExpiryAt(streams: Streams, r: Ref) {
    ValidRef(streams, r) && EventAt(streams, r).body.SeatHoldExpired?
  }

  predicate Unfired(d: Deadlines, t: nat) { t in d.timers && d.timers[t].firedAt.None? }

  /** The event table holds the streams without gaps, and every stream alternates. */
  ghost predicate StreamsOk(events: Table, streams: Streams) {
    && Stores(events, streams)
    && (forall s | s in streams :: s != "" && streams[s] != [] && Alternates(Bodies(streams[s])))
  }

  /** A timer's row repeats the hold it was committed with, and once it has fired that hold
      is over. */
  ghost predicate TimerOk(streams: Streams, d: Deadlines, t: nat)
    requires t in d.holdOf
  {
    var r := d.holdOf[t];
    && HoldAt(streams, r) && r in d.timerOf && d.timerOf[r] == t
    && (t in d.timers ==>
          d.timers[t].(firedAt := None) ==
          TimerRow(AsTime(EventAt(streams, r).body.expiresAt), r.seat, EventAt(streams, r).body.holdId, None))
    && (Unfired(d, t) || r.version < Length(streams, r.seat))
  }

  /** Timers ever committed and holds ever taken are in bijection. */
  ghost predicate TimersOk(streams: Streams, d: Deadlines) {
    && (forall t | t in d.timers :: t in d.holdOf)
    && (forall t | t in d.holdOf :: TimerOk(streams, d, t))
    && (forall r | r in d.timerOf :: d.timerOf[r] in d.holdOf && d.holdOf[d.timerOf[r]] == r)
    && (forall r :: HoldAt(streams, r) <==> r in d.timerOf)
  }

  /** An expiry ended the hold its timer names, in the flow that took that hold, and not
      before the timer was due. */
  ghost predicate ExpiryOk(streams: Streams, d: Deadlines, r: Ref)
    requires r in d.firedBy
  {
    var t, live := d.firedBy[r], Ref(r.seat, r.version - 1);
    && ExpiryAt(streams, r) && HoldAt(streams, live)
    && EventAt(streams, r).body ==
       SeatHoldExpired(EventAt(streams, live).body.holdId, EventAt(streams, live).body.bookingId, r.seat)
    && EventAt(streams, r).meta == Meta(EventAt(streams, live).meta.correlationId, "")
    && t in d.holdOf && !Unfired(d, t)
    && HoldAt(streams, d.holdOf[t]) && d.holdOf[t].seat == r.seat && d.holdOf[t].version < r.version
    && EventAt(streams, d.holdOf[t]).body.holdId == EventAt(streams, r).body.holdId
    && AsTime(EventAt(streams, d.holdOf[t]).body.expiresAt) <= EventAt(streams, r).recordedAt
  }

  ghost predicate ExpiriesOk(streams: Streams, d: Deadlines) {
    && (forall r :: ExpiryAt(streams, r) <==> r in d.firedBy)
    && (forall r | r in d.firedBy :: ExpiryOk(streams, d, r))
    && (forall r, q | r in d.firedBy && q in d.firedBy && r != q :: d.firedBy[r] != d.firedBy[q])
  }

  /** Every event has its outbox row, and along a stream the row ids increase. */
  ghost predicate RowsOk(streams: Streams, m: Mail) {
    && (forall r :: ValidRef(streams, r) <==> r in m.rowOf)
    && (forall r | r in m.rowOf :: RowOk(streams, m, r))
    && (forall r, q | r in m.rowOf && q in m.rowOf && r.seat == q.seat && r.version < q.version ::
          m.rowOf[r] < m.rowOf[q])
  }

  ghost predicate RowOk(streams: Streams, m: Mail, r: Ref)
    requires r in m.rowOf
  {
    && m.rowOf[r] in m.outbox && ValidRef(streams, r)
    && m.outbox[m.rowOf[r]].body == EventAt(streams, r).body
    && m.outbox[m.rowOf[r]].key == m.outbox[m.rowOf[r]].envelope.subject == r.seat
  }

  ghost predicate IdsDistinct(outbox: map<nat, OutRow>) {
    forall i, j | i in outbox && j in outbox && i != j :: outbox[i].envelope.id != outbox[j].envelope.id
  }

  function CausationOf(cause: Cause): string {
    match cause
    case Consumed(key) => key.eventId
    case Expired(_) => ""
  }

  /** Outbox rows ever committed and their causes are in bijection, and a row's causation
      header names its cause. */
  ghost predicate LinksOk(m: Mail) {
    && m.causeOf.Keys == m.outbox.Keys
    && (forall id | id in m.causeOf ::
          && m.causeOf[id] in m.outOf && m.outOf[m.causeOf[id]] == id
          && m.outbox[id].envelope.causationId == CausationOf(m.causeOf[id]))
    && (forall k | k in m.outOf :: m.outOf[k] in m.causeOf && m.causeOf[m.outOf[k]] == k)
  }

  /** The causes are the consumed commands and the expiries, and nothing else. */
  ghost predicate CausesOk(streams: Streams, m: Mail) {
    && (forall key :: key in m.inbox <==> Consumed(key) in m.outOf)
    && (forall r :: ExpiryAt(streams, r) <==> Expired(r) in m.outOf)
  }

  ghost predicate DecidedAt(streams: Streams, work: Work, seat: string, v: nat, o: Outcome) {
    && v <= Length(streams, seat)
    && Fold(Bodies(StreamOf(streams, seat)[..v])).Ok?
    && o == DecideWork(work, seat, Fold(Bodies(StreamOf(streams, seat)[..v])).value)
  }

  /** A command's work is a command for this seat, with a source and an id to know it by. */
  ghost predicate ProperWork(work: Work, seat: string) {
    work.Command? ==>
      work.cmd.IsCommand() && work.cmd.seatId == seat && work.envelope.source != "" && work.envelope.id != ""
  }

  /** The outcome of a commit is the decision at a version its stream had while it ran, and
      its events stand right after that version. */
  ghost predicate CommitOk(streams: Streams, m: Commit) {
    && m.beganAt <= m.decidedAt <= m.committedAt <= Length(streams, m.seat)
    && ProperWork(m.work, m.seat) && DecidedAt(streams, m.work, m.seat, m.decidedAt, m.outcome)
    && (m.outcome.events != [] ==>
          && m.decidedAt == m.committedAt && m.committedAt + |m.outcome.events| <= Length(streams, m.seat)
          && Bodies(StreamOf(streams, m.seat))[m.decidedAt..m.decidedAt + |m.outcome.events|]
             == m.outcome.events)
  }

  predicate SameClaim(a: Work, b: Work) {
    || (a.Command? && b.Command? && KeyOf(a.envelope) == KeyOf(b.envelope))
    || (a.Deadline? && b.Deadline? && a.timer == b.timer)
  }

  /** The claim a committed transaction took is spent: its inbox row is there, its timer
      will not be claimed again. */
  ghost predicate Spent(st: Store, work: Work) {
    match work
    case Command(e, _) => KeyOf(e) in st.mail.inbox
    case Deadline(t, _, _) => t in st.deadlines.holdOf && !Unfired(st.deadlines, t)
  }

  /** A commit of a command with this source and id. */
  predicate CarriesOut(m: Commit, source: string, id: string) {
    m.work.Command? && m.work.envelope.source == source && m.work.envelope.id == id
  }

  /** Some commit so far was of a command with this source and id. */
  ghost predicate SeenBefore(commits: seq<Commit>, source: string, id: string) {
    exists i :: 0 <= i < |commits| && CarriesOut(commits[i], source, id)
  }

  ghost predicate CommittedKey(commits: seq<Commit>, key: InboxKey) {
    exists i :: 0 <= i < |commits| && commits[i].work.Command? && KeyOf(commits[i].work.envelope) == key
  }

  ghost predicate ClaimsOk(st: Store) {
    && (forall i | 0 <= i < |st.commits| :: Spent(st, st.commits[i].work))
    && (forall i, j | 0 <= i < j < |st.commits| :: !SameClaim(st.commits[i].work, st.commits[j].work))
    && (forall key | key in st.mail.inbox :: CommittedKey(st.commits, key))
  }

  /** The inbox is what was seen: a key is there exactly when a command with that source and
      that id has committed, and no two commits are of the same command. */
  lemma InboxIsWhatWasSeen(st: Store)
    requires ClaimsOk(st)
    ensures forall key :: key in st.mail.inbox <==>
      key.consumer == "inventory.commands" && SeenBefore(st.commits, key.source, key.eventId)
    ensures forall i, j | 0 <= i < j < |st.commits| && st.commits[i].work.Command? && st.commits[j].work.Command? ::
      || st.commits[i].work.envelope.source != st.commits[j].work.envelope.source
      || st.commits[i].work.envelope.id != st.commits[j].work.envelope.id
  {
    forall key | key in st.mail.inbox
      ensures key.consumer == "inventory.commands" && SeenBefore(st.commits, key.source, key.eventId)
    {
      var i :| 0 <= i < |st.commits| && st.commits[i].work.Command? && KeyOf(st.commits[i].work.envelope) == key;
      assert CarriesOut(st.commits[i], key.source, key.eventId);
    }
    forall i | 0 <= i < |st.commits| && st.commits[i].work.Command?
      ensures InboxKey("inventory.commands", st.commits[i].work.envelope.source, st.commits[i].work.envelope.id)
              in st.mail.inbox
    {
      assert Spent(st, st.commits[i].work);
    }
    forall i, j | 0 <= i < j < |st.commits| && st.commits[i].work.Command? && st.commits[j].work.Command?
      ensures || st.commits[i].work.envelope.source != st.commits[j].work.envelope.source
              || st.commits[i].work.envelope.id != st.commits[j].work.envelope.id
    {
      assert !SameClaim(st.commits[i].work, st.commits[j].work);
    }
  }

  /** The seat as one writer would leave it: every commit's events in commit order. */
  ghost function Serial(commits: seq<Commit>, seat: string): seq<Message> {
    if commits == [] then []
    else
      var n := |commits| - 1;
      Serial(commits[..n], seat) + if commits[n].seat == seat then commits[n].outcome.events else []
  }

  ghost predicate CommitsOk(streams: Streams, commits: seq<Commit>) {
    && (forall i | 0 <= i < |commits| ::
          CommitOk(streams, commits[i]) && commits[i].committedAt == |Serial(commits[..i], commits[i].seat)|)
    && (forall s :: Serial(commits, s) == Bodies(StreamOf(streams, s)))
  }

  // ---- what a commit leaves behind ----

  /** Event i of a commit stands in its stream with the flow it belongs to: a command's
      correlation id and id, or for a deadline the flow of the hold it found and no cause. */
  ghost predicate RecordedAs(streams: Streams, m: Commit, i: nat)
    requires i < |m.outcome.events|
  {
    var stream := StreamOf(streams, m.seat);
    && m.decidedAt + i < |stream|
    && var rec := stream[m.decidedAt + i];
    && rec.body == m.outcome.events[i] && rec.recordedAt == m.at
    && match m.work
       case Command(e, _) => rec.meta.correlationId == e.correlationId && rec.meta.causationId == e.id
       case Deadline(_, _, _) =>
         && m.decidedAt > 0 && rec.meta.correlationId == stream[m.decidedAt - 1].meta.correlationId
         && rec.meta.causationId == ""
  }

  ghost predicate RecordedOk(streams: Streams, m: Commit) {
    forall i: nat | i < |m.outcome.events| :: RecordedAs(streams, m, i)
  }

  /** The row says what its commit decided, to whom it may concern: this service's event, keyed
      by the seat, in the flow of the command or of the hold the deadline found. */
  ghost predicate Announces(streams: Streams, m: Commit, row: OutRow) {
    && m.outcome.events + m.outcome.replies == [row.body]
    && row.topic == "inventory.events" && row.key == row.envelope.subject == m.seat != ""
    && row.envelope.source == "/sagaflow/inventory" && row.envelope.id != ""
    && TypedAs(row.body, row.envelope.ceType)
    && match m.work
       case Command(e, _) =>
         && row.envelope.correlationId == e.correlationId && row.envelope.causationId == e.id
         && row.envelope.traceParent == e.traceParent
       case Deadline(_, _, _) =>
         && 0 < m.decidedAt <= Length(streams, m.seat)
         && row.envelope.correlationId == StreamOf(streams, m.seat)[m.decidedAt - 1].meta.correlationId
         && row.envelope.causationId == "" && row.envelope.traceParent == ""
  }

  /** The type attribute is the full name of the message's protobuf type. */
  ghost predicate TypedAs(msg: Message, ceType: string) {
    && (msg.SeatHeld? ==> ceType == "sagaflow.inventory.v1.SeatHeld")
    && (msg.SeatHoldReleased? ==> ceType == "sagaflow.inventory.v1.SeatHoldReleased")
    && (msg.SeatHoldExpired? ==> ceType == "sagaflow.inventory.v1.SeatHoldExpired")
    && (msg.SeatUnavailable? ==> ceType == "sagaflow.inventory.v1.SeatUnavailable")
  }

  /** The cause a commit's message is filed under. */
  ghost function OwnCause(m: Commit): Cause {
    match m.work
    case Command(e, _) => Consumed(InboxKey("inventory.commands", e.source, e.id))
    case Deadline(_, _, _) => Expired(Ref(m.seat, m.decidedAt + 1))
  }

  ghost predicate AnnouncedOk(streams: Streams, mail: Mail, m: Commit) {
    m.outcome.events + m.outcome.replies != [] ==>
      && OwnCause(m) in mail.outOf && mail.outOf[OwnCause(m)] in mail.outbox
      && Announces(streams, m, mail.outbox[mail.outOf[OwnCause(m)]])
  }

  /** A deadline that committed was the one its timer was scheduled for, was due, and its
      timer's row, while it is kept, says when it fired. */
  ghost predicate FiredOk(streams: Streams, d: Deadlines, m: Commit) {
    m.work.Deadline? ==>
      && m.work.timer in d.holdOf && HoldAt(streams, d.holdOf[m.work.timer])
      && d.holdOf[m.work.timer].seat == m.seat
      && EventAt(streams, d.holdOf[m.work.timer]).body.holdId == m.work.token
      && AsTime(EventAt(streams, d.holdOf[m.work.timer]).body.expiresAt) == m.work.fireAt <= m.at
      && (m.work.timer in d.timers ==> d.timers[m.work.timer].firedAt == Some(m.at))
  }

  ghost predicate Traced(streams: Streams, mail: Mail, d: Deadlines, m: Commit) {
    RecordedOk(streams, m) && AnnouncedOk(streams, mail, m) && FiredOk(streams, d, m)
  }

  ghost predicate TracesOk(st: Store) {
    forall i | 0 <= i < |st.commits| :: Traced(st.streams, st.mail, st.deadlines, st.commits[i])
  }

  ghost predicate StoreOk(st: Store) {
    && StreamsOk(st.events, st.streams)
    && TimersOk(st.streams, st.deadlines) && ExpiriesOk(st.streams, st.deadlines)
    && RowsOk(st.streams, st.mail) && IdsDistinct(st.mail.outbox)
    && LinksOk(st.mail) && CausesOk(st.streams, st.mail)
    && CommitsOk(st.streams, st.commits) && ClaimsOk(st) && TracesOk(st)
  }

  // ---- in flight ----

  ghost predicate ClaimOk(st: Store, tx: Tx) {
    match tx.work
    case Command(e, cmd) =>
      && cmd.IsCommand() && Seat.SeatId(cmd) == Ok(tx.seat) && e.source != "" && e.id != ""
      && KeyOf(e) !in st.mail.inbox
    case Deadline(t, token, fireAt) =>
      && t in st.deadlines.timers && st.deadlines.timers[t] == TimerRow(fireAt, tx.seat, token, None)
      && t in st.deadlines.holdOf && fireAt <= tx.began
  }

  ghost predicate ReadOk(streams: Streams, d: Deadlines, tx: Tx) {
    var v := tx.state.version;
    && tx.beganAt <= v <= Length(streams, tx.seat)
    && Fold(Bodies(StreamOf(streams, tx.seat)[..v])) == Ok(tx.state)
    && tx.last == LastMeta(StreamOf(streams, tx.seat)[..v])
    && tx.outcome == DecideWork(tx.work, tx.seat, tx.state)
    && (tx.work.Deadline? ==> tx.work.timer in d.holdOf && d.holdOf[tx.work.timer].version <= v)
  }

  ghost predicate ReadyOk(c: State, tx: Tx) {
    && |tx.ids| == |tx.outcome.Messages()|
    && (tx.outcome.Messages() != [] ==> tx.seat != "")
    && tx.firstOut + |tx.ids| <= c.nextOut
    && tx.firstTimer + |tx.outcome.timers| <= c.nextTimer
    && UnusedIds(c.store.mail.outbox, tx)
    && (forall t | tx.firstTimer <= t < tx.firstTimer + |tx.outcome.timers| :: t !in c.store.deadlines.holdOf)
    && (tx.outcome.events != [] ==> Newest(c.store.mail.rowOf, tx))
    && (forall i | 0 <= i < |tx.ids| :: tx.ids[i] in c.usedIds && tx.ids[i] != "")
  }

  /** The row ids and message ids a transaction drew are on no committed row. */
  ghost predicate UnusedIds(outbox: map<nat, OutRow>, tx: Tx) {
    && (forall id | tx.firstOut <= id < tx.firstOut + |tx.ids| :: id !in outbox)
    && (forall i, o | 0 <= i < |tx.ids| && o in outbox :: tx.ids[i] != outbox[o].envelope.id)
  }

  /** Every committed event row of the transaction's stream has a lower id. */
  ghost predicate Newest(rowOf: map<Ref, nat>, tx: Tx) {
    forall r | r in rowOf && r.seat == tx.seat :: rowOf[r] < tx.firstOut
  }

  ghost predicate TxOk(c: State, tx: Tx) {
    && ClaimOk(c.store, tx)
    && tx.began <= c.now
    && tx.beganAt <= Length(c.store.streams, tx.seat)
    && (!tx.phase.Marked? ==> ReadOk(c.store.streams, c.store.deadlines, tx))
    && (HasPending(tx) ==> tx.state.version == Length(c.store.streams, tx.seat))
    && (tx.phase.Ready? ==> ReadyOk(c, tx))
  }

  /** Two transactions never hold the same lock and never drew the same ids. */
  ghost predicate Apart(a: Tx, b: Tx) {
    && !SameClaim(a.work, b.work)
    && (HasPending(a) && HasPending(b) ==> a.seat != b.seat)
    && (a.phase.Ready? && b.phase.Ready? ==>
          && (a.firstOut + |a.ids| <= b.firstOut || b.firstOut + |b.ids| <= a.firstOut)
          && (a.firstTimer + |a.outcome.timers| <= b.firstTimer ||
              b.firstTimer + |b.outcome.timers| <= a.firstTimer)
          && (forall i, j | 0 <= i < |a.ids| && 0 <= j < |b.ids| :: a.ids[i] != b.ids[j]))
  }

  ghost predicate CountersOk(c: State) {
    && (forall id | id in c.store.mail.outbox ::
          id < c.nextOut && c.store.mail.outbox[id].envelope.id in c.usedIds)
    && (forall t | t in c.store.deadlines.holdOf :: t < c.nextTimer)
  }

  ghost predicate TxsOk(c: State) {
    && (forall x | x in c.txs :: TxOk(c, c.txs[x]))
    && (forall x, y | x in c.txs && y in c.txs && x != y :: Apart(c.txs[x], c.txs[y]))
  }

  ghost predicate Inv(c: State) { StoreOk(c.store) && CountersOk(c) && TxsOk(c) }

  // ---- decisions of a transaction ----

  /** Every decision a transaction can take has the shape the rest relies on. */
  lemma WorkIsShaped(st: Store, tx: Tx)
    requires StreamsOk(st.events, st.streams)
    requires tx.work.Command? ==> tx.work.cmd.IsCommand()
    requires DecidedAt(st.streams, tx.work, tx.seat, tx.state.version, tx.outcome)
    ensures Shaped(tx.outcome)
    ensures var stream := Bodies(StreamOf(st.streams, tx.seat)[..tx.state.version]);
      && Alternates(stream + tx.outcome.events)
      && (tx.work.Command? ==>
            |tx.outcome.Messages()| == 1 &&
            forall e | e in tx.outcome.events :: !e.SeatHoldExpired?)
      && (tx.work.Deadline? ==>
            && tx.outcome.Messages() == tx.outcome.events && tx.outcome.timers == []
            && (tx.outcome.events != [] <==>
                  && stream != [] && stream[|stream| - 1].SeatHeld?
                  && stream[|stream| - 1].holdId == tx.work.token)
            && (tx.outcome.events != [] ==>
                  tx.outcome.events ==
                  [SeatHoldExpired(tx.work.token, stream[|stream| - 1].bookingId, tx.seat)]))
  {
    var whole := StreamOf(st.streams, tx.seat);
    var stream := Bodies(whole[..tx.state.version]);
    PrefixAlternates(whole, tx.state.version);
    match tx.work
    case Command(_, cmd) => DecideKeepsAlternation(stream, cmd);
    case Deadline(_, token, _) => ExpireKeepsAlternation(stream, tx.seat, token);
  }

  lemma PrefixAlternates(recs: seq<Recorded>, n: nat)
    requires n <= |recs| && (recs == [] || Alternates(Bodies(recs)))
    ensures Alternates(Bodies(recs[..n]))
  {
    forall i: nat | i < n ensures LegalAt(Bodies(recs[..n]), i) {
      assert LegalAt(Bodies(recs), i);
    }
  }
}
