/** Committing a transaction keeps every invariant: one lemma per table, one for the
    transactions that are still in flight. */
module CommitStep {
  import opened Base
  import opened Seat
  import opened EventStore
  import opened Envelopes
  import opened Engine
  import opened Invariants

  // ---- what changes: at most one event, one timer and one message ----

  /** One stream grows at its end by at most one event; the others stay. */
  ghost predicate Grows(a: Streams, b: Streams, seat: string, evts: seq<Recorded>) {
    && |evts| <= 1
    && forall s :: StreamOf(b, s) == StreamOf(a, s) + if s == seat then evts else []
  }

  lemma CommitGrows(a: Streams, tx: Tx)
    requires Shaped(tx.outcome)
    ensures Grows(a, NewStreams(a, tx), tx.seat, Pending(tx))
  {
  }

  lemma RefGrows(a: Streams, b: Streams, seat: string, evts: seq<Recorded>, r: Ref)
    requires Grows(a, b, seat, evts)
    ensures ValidRef(b, r) <==> ValidRef(a, r) || (evts != [] && r == Ref(seat, Length(a, seat) + 1))
    ensures ValidRef(a, r) ==> EventAt(b, r) == EventAt(a, r)
    ensures evts != [] && r == Ref(seat, Length(a, seat) + 1) ==> !ValidRef(a, r) && EventAt(b, r) == evts[0]
  {
    assert StreamOf(b, r.seat) == StreamOf(a, r.seat) + if r.seat == seat then evts else [];
  }

  /** Old events keep their place; the only new place is the end of the grown stream. */
  lemma RefsGrow(a: Streams, b: Streams, seat: string, evts: seq<Recorded>)
    requires Grows(a, b, seat, evts)
    ensures forall r :: ValidRef(b, r) <==>
      ValidRef(a, r) || (evts != [] && r == Ref(seat, Length(a, seat) + 1))
    ensures forall r | ValidRef(a, r) :: EventAt(b, r) == EventAt(a, r)
    ensures evts != [] ==>
      var r := Ref(seat, Length(a, seat) + 1);
      !ValidRef(a, r) && ValidRef(b, r) && EventAt(b, r) == evts[0]
  {
    forall r
      ensures ValidRef(b, r) <==> ValidRef(a, r) || (evts != [] && r == Ref(seat, Length(a, seat) + 1))
      ensures ValidRef(a, r) ==> EventAt(b, r) == EventAt(a, r)
    {
      RefGrows(a, b, seat, evts, r);
    }
    if evts != [] { RefGrows(a, b, seat, evts, Ref(seat, Length(a, seat) + 1)); }
  }

  /** The only hold a commit can take is its own first event. */
  lemma HoldsGrow(a: Streams, b: Streams, tx: Tx)
    requires Grows(a, b, tx.seat, Pending(tx))
    requires tx.outcome.events != [] ==> tx.state.version == Length(a, tx.seat)
    ensures forall r :: HoldAt(b, r) <==>
      HoldAt(a, r) || (r == FirstEvent(tx) && tx.outcome.events != [] && tx.outcome.events[0].SeatHeld?)
  {
    forall r ensures HoldAt(b, r) <==>
      HoldAt(a, r) || (r == FirstEvent(tx) && tx.outcome.events != [] && tx.outcome.events[0].SeatHeld?)
    {
      RefGrows(a, b, tx.seat, Pending(tx), r);
    }
  }

  /** The only expiry a commit can add is its own first event. */
  lemma ExpiriesGrow(a: Streams, b: Streams, tx: Tx)
    requires Grows(a, b, tx.seat, Pending(tx))
    requires tx.outcome.events != [] ==> tx.state.version == Length(a, tx.seat)
    ensures forall r :: ExpiryAt(b, r) <==>
      ExpiryAt(a, r) || (r == FirstEvent(tx) && tx.outcome.events != [] && tx.outcome.events[0].SeatHoldExpired?)
  {
    forall r ensures ExpiryAt(b, r) <==>
      ExpiryAt(a, r) || (r == FirstEvent(tx) && tx.outcome.events != [] && tx.outcome.events[0].SeatHoldExpired?)
    {
      RefGrows(a, b, tx.seat, Pending(tx), r);
    }
  }

  lemma PrefixesStay(a: Streams, b: Streams, seat: string, evts: seq<Recorded>, s: string, n: nat)
    requires Grows(a, b, seat, evts) && n <= Length(a, s)
    ensures n <= Length(b, s) && StreamOf(b, s)[..n] == StreamOf(a, s)[..n]
  {
  }

  ghost predicate DeadlinesGrow(d: Deadlines, d': Deadlines, tx: Tx) {
    && (tx.outcome.timers == [] ==>
          d'.timers == MarkFired(d.timers, tx) && d'.holdOf == d.holdOf && d'.timerOf == d.timerOf)
    && (tx.outcome.timers != [] ==>
          && d'.timers == MarkFired(d.timers, tx)[tx.firstTimer :=
               TimerRow(tx.outcome.timers[0].fireAt, tx.seat, tx.outcome.timers[0].token, None)]
          && d'.holdOf == d.holdOf[tx.firstTimer := FirstEvent(tx)]
          && d'.timerOf == d.timerOf[FirstEvent(tx) := tx.firstTimer])
    && d'.firedBy == (if tx.work.Deadline? && tx.outcome.events != []
                      then d.firedBy[FirstEvent(tx) := tx.work.timer] else d.firedBy)
  }

  lemma CommitGrowsDeadlines(d: Deadlines, tx: Tx)
    requires |tx.outcome.timers| <= 1
    ensures DeadlinesGrow(d, NewDeadlines(d, tx), tx)
  {
    var rows := TimerRows(tx.seat, tx.outcome.timers, tx.firstTimer);
    if tx.outcome.timers == [] {
      assert MarkFired(d.timers, tx) + rows == MarkFired(d.timers, tx);
    } else {
      assert rows == map[tx.firstTimer :=
        TimerRow(tx.outcome.timers[0].fireAt, tx.seat, tx.outcome.timers[0].token, None)];
    }
  }

  ghost predicate MailGrows(m: Mail, m': Mail, tx: Tx) {
    && |tx.ids| == |tx.outcome.Messages()|
    && m'.inbox == (if tx.work.Command? then m.inbox + {KeyOf(tx.work.envelope)} else m.inbox)
    && m'.rowOf == (if tx.outcome.events == [] then m.rowOf else m.rowOf[FirstEvent(tx) := tx.firstOut])
    && (tx.ids == [] ==> m'.outbox == m.outbox && m'.causeOf == m.causeOf && m'.outOf == m.outOf)
    && (tx.ids != [] ==>
          && m'.outbox == m.outbox[tx.firstOut := Frame(Template(tx), tx.ids[0], tx.outcome.Messages()[0])]
          && m'.causeOf == m.causeOf[tx.firstOut := CauseOf(tx)]
          && m'.outOf == m.outOf[CauseOf(tx) := tx.firstOut])
  }

  lemma AtMostOneRow(template: Envelope, msgs: seq<Message>, ids: seq<string>, first: nat)
    requires |ids| == |msgs| <= 1
    ensures OutRows(template, msgs, ids, first) ==
      if msgs == [] then map[] else map[first := Frame(template, ids[0], msgs[0])]
  {
  }

  lemma AddNothing<K, V>(m: map<K, V>, n: map<K, V>)
    requires n == map[]
    ensures m + n == m
  {
  }

  lemma AddOne<K, V>(m: map<K, V>, k: K, v: V)
    ensures m + map[k := v] == m[k := v]
  {
  }

  lemma CommitGrowsMail(m: Mail, tx: Tx)
    requires |tx.ids| == |tx.outcome.Messages()| <= 1
    ensures MailGrows(m, NewMail(m, tx), tx)
  {
    var msgs := tx.outcome.Messages();
    AtMostOneRow(Template(tx), msgs, tx.ids, tx.firstOut);
    if tx.ids == [] {
      AddNothing(m.outbox, OutRows(Template(tx), msgs, tx.ids, tx.firstOut));
    } else {
      AddOne(m.outbox, tx.firstOut, Frame(Template(tx), tx.ids[0], msgs[0]));
    }
  }

  // ---- what a committing transaction brings ----

  /** A transaction about to commit, seen on its own. */
  ghost predicate Committing(st: Store, tx: Tx) {
    && tx.phase.Ready? && |tx.ids| == |tx.outcome.Messages()|
    && (forall i | 0 <= i < |tx.ids| :: tx.ids[i] != "") && (tx.ids != [] ==> tx.seat != "")
    && ClaimOk(st, tx) && ReadOk(st.streams, st.deadlines, tx)
    && (tx.outcome.events != [] ==> tx.seat != "" && tx.state.version == Length(st.streams, tx.seat))
    && (tx.outcome.timers != [] ==> tx.firstTimer !in st.deadlines.holdOf)
  }

  /** The shape of the outcome, and for a deadline what it found. */
  lemma OutcomeShape(st: Store, tx: Tx)
    requires StreamsOk(st.events, st.streams) && Committing(st, tx)
    ensures Shaped(tx.outcome) && |Pending(tx)| <= 1
    ensures tx.work.Command? ==>
      |tx.outcome.Messages()| == 1 && (tx.outcome.events != [] ==> !tx.outcome.events[0].SeatHoldExpired?)
    ensures tx.work.Deadline? ==> tx.outcome.Messages() == tx.outcome.events && tx.outcome.timers == []
    ensures tx.work.Deadline? && tx.outcome.events != [] ==>
      var live := Ref(tx.seat, tx.state.version);
      && HoldAt(st.streams, live) && EventAt(st.streams, live).body.holdId == tx.work.token
      && tx.last == EventAt(st.streams, live).meta
      && tx.outcome.events ==
         [SeatHoldExpired(tx.work.token, EventAt(st.streams, live).body.bookingId, tx.seat)]
  {
    WorkIsShaped(st, tx);
    if tx.work.Deadline? && tx.outcome.events != [] {
      var whole := StreamOf(st.streams, tx.seat);
      assert whole[..tx.state.version] == whole;
      assert Bodies(whole)[|whole| - 1] == whole[|whole| - 1].body;
    }
  }

  /** A deadline whose hold is the last event of the stream it read expires that hold. */
  lemma LiveHoldExpires(st: Store, tx: Tx, r: Ref)
    requires StreamsOk(st.events, st.streams) && tx.work.Deadline?
    requires DecidedAt(st.streams, tx.work, tx.seat, tx.state.version, tx.outcome)
    requires HoldAt(st.streams, r) && r == Ref(tx.seat, tx.state.version)
    requires EventAt(st.streams, r).body.holdId == tx.work.token
    ensures tx.outcome.events != []
  {
    WorkIsShaped(st, tx);
    var read := StreamOf(st.streams, tx.seat)[..tx.state.version];
    assert Bodies(read)[|read| - 1] == EventAt(st.streams, r).body;
  }

  /** A deadline that commits leaves the hold of its timer over: it ended that hold, or it
      found the hold already ended. */
  lemma FiredHoldIsOver(st: Store, tx: Tx)
    requires StreamsOk(st.events, st.streams) && TimersOk(st.streams, st.deadlines)
    requires Committing(st, tx) && tx.work.Deadline?
    ensures tx.work.timer in st.deadlines.holdOf
    ensures var r := st.deadlines.holdOf[tx.work.timer];
      r.seat == tx.seat && r.version < Length(NewStreams(st.streams, tx), tx.seat)
  {
    var t := tx.work.timer;
    assert TimerOk(st.streams, st.deadlines, t);
    var r := st.deadlines.holdOf[t];
    if r.version == Length(st.streams, tx.seat) { LiveHoldExpires(st, tx, r); }
  }

  // ---- streams ----

  lemma GrownStreamsOk(events: Table, streams: Streams, seat: string, grown: seq<Recorded>)
    requires forall s | s in streams :: s != "" && streams[s] != [] && Alternates(Bodies(streams[s]))
    requires Stores(events, streams[seat := grown]) && seat != "" && grown != [] && Alternates(Bodies(grown))
    ensures StreamsOk(events, streams[seat := grown])
  {
  }

  lemma StreamsStayOk(st: Store, tx: Tx)
    requires StreamsOk(st.events, st.streams) && Committing(st, tx)
    ensures StreamsOk(st.events + RowsAt(tx.seat, tx.state.version, Pending(tx)), NewStreams(st.streams, tx))
  {
    if tx.outcome.events == [] {
      AddNothing(st.events, RowsAt(tx.seat, tx.state.version, Pending(tx)));
    } else {
      AppendAtTheEnd(st.events, st.streams, tx.seat, Pending(tx));
      GrownStreamAlternates(st, tx);
      GrownStreamsOk(st.events + RowsAt(tx.seat, tx.state.version, Pending(tx)), st.streams, tx.seat,
                     StreamOf(st.streams, tx.seat) + Pending(tx));
    }
  }

  lemma GrownStreamAlternates(st: Store, tx: Tx)
    requires StreamsOk(st.events, st.streams) && Committing(st, tx) && tx.outcome.events != []
    ensures Alternates(Bodies(StreamOf(st.streams, tx.seat) + Pending(tx)))
  {
    var before := StreamOf(st.streams, tx.seat);
    WorkIsShaped(st, tx);
    assert before[..tx.state.version] == before;
    assert Bodies(before + Pending(tx)) == Bodies(before) + tx.outcome.events;
  }

  // ---- timers ----

  /** What keeping the timers in order needs to know about the transaction. */
  ghost predicate TimersCommit(a: Streams, b: Streams, d: Deadlines, d': Deadlines, tx: Tx) {
    && Shaped(tx.outcome) && Grows(a, b, tx.seat, Pending(tx)) && DeadlinesGrow(d, d', tx)
    && (tx.outcome.events != [] ==> tx.state.version == Length(a, tx.seat))
    && (tx.outcome.timers != [] ==> tx.firstTimer !in d.holdOf)
    && (tx.work.Deadline? ==>
          && tx.outcome.timers == [] && tx.work.timer in d.holdOf
          && d.holdOf[tx.work.timer].seat == tx.seat
          && d.holdOf[tx.work.timer].version < Length(b, tx.seat))
  }

  lemma OldTimerStaysOk(a: Streams, b: Streams, d: Deadlines, d': Deadlines, tx: Tx, t: nat)
    requires TimersCommit(a, b, d, d', tx) && t in d.holdOf && TimerOk(a, d, t)
    requires d.holdOf[t] in d'.timerOf && d'.timerOf[d.holdOf[t]] == t
    ensures t in d'.holdOf && TimerOk(b, d', t)
  {
    RefsGrow(a, b, tx.seat, Pending(tx));
    assert d'.holdOf[t] == d.holdOf[t];
    assert Length(a, d.holdOf[t].seat) <= Length(b, d.holdOf[t].seat);
  }

  lemma NewTimerOk(a: Streams, b: Streams, d: Deadlines, d': Deadlines, tx: Tx)
    requires TimersCommit(a, b, d, d', tx) && tx.outcome.timers != []
    ensures tx.firstTimer in d'.holdOf && TimerOk(b, d', tx.firstTimer)
  {
    RefsGrow(a, b, tx.seat, Pending(tx));
  }

  lemma TimersStayOk(a: Streams, b: Streams, d: Deadlines, d': Deadlines, tx: Tx)
    requires TimersOk(a, d) && TimersCommit(a, b, d, d', tx)
    ensures TimersOk(b, d')
  {
    HoldsGrow(a, b, tx);
    FirstEventIsNew(a, tx);
    HoldsStayLinked(a, b, d, d', tx, tx.outcome.timers != []);
    forall t | t in d'.holdOf ensures TimerOk(b, d', t) {
      if t in d.holdOf {
        assert TimerOk(a, d, t);
        OldTimerStaysOk(a, b, d, d', tx, t);
      } else {
        NewTimerOk(a, b, d, d', tx);
      }
    }
  }

  lemma FirstEventIsNew(a: Streams, tx: Tx)
    requires tx.outcome.events != [] ==> tx.state.version == Length(a, tx.seat)
    ensures tx.outcome.events != [] ==> !ValidRef(a, FirstEvent(tx))
  {
  }

  lemma HoldsStayLinked(a: Streams, b: Streams, d: Deadlines, d': Deadlines, tx: Tx, holds: bool)
    requires DeadlinesGrow(d, d', tx) && holds == (tx.outcome.timers != [])
    requires forall t | t in d.timers :: t in d.holdOf
    requires forall r | r in d.timerOf :: d.timerOf[r] in d.holdOf && d.holdOf[d.timerOf[r]] == r
    requires forall r :: HoldAt(a, r) <==> r in d.timerOf
    requires forall r :: HoldAt(b, r) <==> HoldAt(a, r) || (r == FirstEvent(tx) && holds)
    requires holds ==> tx.firstTimer !in d.holdOf && !HoldAt(a, FirstEvent(tx))
    ensures forall t | t in d'.timers :: t in d'.holdOf
    ensures forall r | r in d'.timerOf :: d'.timerOf[r] in d'.holdOf && d'.holdOf[d'.timerOf[r]] == r
    ensures forall r :: HoldAt(b, r) <==> r in d'.timerOf
    ensures forall t | t in d.holdOf :: d.holdOf[t] in d.timerOf && d.timerOf[d.holdOf[t]] == t ==>
      d.holdOf[t] in d'.timerOf && d'.timerOf[d.holdOf[t]] == t
  {
  }

  // ---- expiries ----

  lemma OldExpiryStaysOk(a: Streams, b: Streams, d: Deadlines, d': Deadlines, tx: Tx, r: Ref)
    requires TimersCommit(a, b, d, d', tx)
    requires r in d.firedBy && ExpiryOk(a, d, r) && r in d'.firedBy && d'.firedBy[r] == d.firedBy[r]
    ensures ExpiryOk(b, d', r)
  {
    RefsGrow(a, b, tx.seat, Pending(tx));
    var t := d.firedBy[r];
    assert ValidRef(a, r) && ValidRef(a, Ref(r.seat, r.version - 1)) && ValidRef(a, d.holdOf[t]);
    assert d'.holdOf[t] == d.holdOf[t];
  }

  /** The expiry a deadline appends, next to the hold it ends. */
  lemma NewExpiryStands(st: Store, tx: Tx, b: Streams)
    requires StreamsOk(st.events, st.streams)
    requires Committing(st, tx) && tx.work.Deadline? && tx.outcome.events != []
    requires Grows(st.streams, b, tx.seat, Pending(tx))
    ensures var r, live := FirstEvent(tx), Ref(tx.seat, tx.state.version);
      && ExpiryAt(b, r) && HoldAt(b, live)
      && EventAt(b, r) == Recorded(
           SeatHoldExpired(tx.work.token, EventAt(b, live).body.bookingId, tx.seat),
           Meta(EventAt(b, live).meta.correlationId, ""), tx.began)
      && EventAt(b, live).body.holdId == tx.work.token
  {
    OutcomeShape(st, tx);
    RefsGrow(st.streams, b, tx.seat, Pending(tx));
    assert ValidRef(st.streams, Ref(tx.seat, tx.state.version));
  }

  lemma NewExpiryOk(st: Store, tx: Tx, b: Streams, d': Deadlines)
    requires StreamsOk(st.events, st.streams) && TimersOk(st.streams, st.deadlines)
    requires Committing(st, tx) && tx.work.Deadline? && tx.outcome.events != [] && tx.outcome.timers == []
    requires Grows(st.streams, b, tx.seat, Pending(tx)) && DeadlinesGrow(st.deadlines, d', tx)
    ensures FirstEvent(tx) in d'.firedBy && ExpiryOk(b, d', FirstEvent(tx))
  {
    NewExpiryStands(st, tx, b);
    FiringTimerNamesItsHold(st, tx, b);
    TimerHasFired(st.deadlines, tx, d');
    ExpiryFromItsParts(b, d', tx);
  }

  /** What the expiry is, which timer fired it, and the hold that timer names. */
  lemma ExpiryFromItsParts(b: Streams, d': Deadlines, tx: Tx)
    requires tx.work.Deadline?
    requires var r, live := FirstEvent(tx), Ref(tx.seat, tx.state.version);
      && ExpiryAt(b, r) && HoldAt(b, live)
      && EventAt(b, r) == Recorded(
           SeatHoldExpired(tx.work.token, EventAt(b, live).body.bookingId, tx.seat),
           Meta(EventAt(b, live).meta.correlationId, ""), tx.began)
      && EventAt(b, live).body.holdId == tx.work.token
      && r in d'.firedBy && d'.firedBy[r] == tx.work.timer && !Unfired(d', tx.work.timer)
    requires tx.work.timer in d'.holdOf
    requires var named := d'.holdOf[tx.work.timer];
      && HoldAt(b, named) && named.seat == tx.seat && named.version <= tx.state.version
      && EventAt(b, named).body.holdId == tx.work.token
      && AsTime(EventAt(b, named).body.expiresAt) <= tx.began
    ensures ExpiryOk(b, d', FirstEvent(tx))
  {
  }

  lemma TimerHasFired(d: Deadlines, tx: Tx, d': Deadlines)
    requires DeadlinesGrow(d, d', tx) && tx.work.Deadline? && tx.outcome.events != [] && tx.outcome.timers == []
    requires tx.work.timer in d.holdOf
    ensures FirstEvent(tx) in d'.firedBy && d'.firedBy[FirstEvent(tx)] == tx.work.timer
    ensures !Unfired(d', tx.work.timer) && d'.holdOf == d.holdOf
  {
  }

  /** The hold the firing timer was committed with, seen after the commit. */
  lemma FiringTimerNamesItsHold(st: Store, tx: Tx, b: Streams)
    requires TimersOk(st.streams, st.deadlines) && ClaimOk(st, tx) && tx.work.Deadline?
    requires ReadOk(st.streams, st.deadlines, tx) && Grows(st.streams, b, tx.seat, Pending(tx))
    ensures var named := st.deadlines.holdOf[tx.work.timer];
      && HoldAt(b, named) && named.seat == tx.seat && named.version <= tx.state.version
      && EventAt(b, named).body.holdId == tx.work.token
      && AsTime(EventAt(b, named).body.expiresAt) <= tx.began
  {
    assert TimerOk(st.streams, st.deadlines, tx.work.timer);
    RefGrows(st.streams, b, tx.seat, Pending(tx), st.deadlines.holdOf[tx.work.timer]);
  }

  lemma ExpiriesStayOk(a: Streams, b: Streams, d: Deadlines, d': Deadlines, tx: Tx)
    requires ExpiriesOk(a, d) && TimersCommit(a, b, d, d', tx)
    requires tx.work.Deadline? ==> Unfired(d, tx.work.timer)
    requires tx.outcome.events != [] ==> (tx.outcome.events[0].SeatHoldExpired? <==> tx.work.Deadline?)
    requires tx.work.Deadline? && tx.outcome.events != [] ==>
      FirstEvent(tx) in d'.firedBy && ExpiryOk(b, d', FirstEvent(tx))
    ensures ExpiriesOk(b, d')
  {
    ExpiriesGrow(a, b, tx);
    FirstEventIsNew(a, tx);
    forall r | r in d'.firedBy ensures ExpiryOk(b, d', r) {
      if r in d.firedBy {
        assert ExpiryAt(a, r);
        OldExpiryStaysOk(a, b, d, d', tx, r);
      }
    }
    TimersFireOnce(a, d, d', tx);
  }

  lemma TimersFireOnce(a: Streams, d: Deadlines, d': Deadlines, tx: Tx)
    requires ExpiriesOk(a, d) && DeadlinesGrow(d, d', tx)
    requires tx.work.Deadline? ==> Unfired(d, tx.work.timer)
    ensures forall r, q | r in d'.firedBy && q in d'.firedBy && r != q :: d'.firedBy[r] != d'.firedBy[q]
  {
    forall r | r in d.firedBy ensures !Unfired(d, d.firedBy[r]) {
      assert ExpiryOk(a, d, r);
    }
  }

  // ---- outgoing messages ----

  lemma OldRowStaysOk(a: Streams, b: Streams, m: Mail, m': Mail, tx: Tx, r: Ref)
    requires Grows(a, b, tx.seat, Pending(tx)) && MailGrows(m, m', tx) && r in m.rowOf && RowOk(a, m, r)
    requires tx.outcome.events != [] ==> tx.state.version == Length(a, tx.seat)
    requires tx.ids != [] ==> tx.firstOut !in m.outbox
    ensures r in m'.rowOf && RowOk(b, m', r)
  {
    RefsGrow(a, b, tx.seat, Pending(tx));
    assert ValidRef(a, r);
  }

  lemma NewRowOk(a: Streams, b: Streams, m: Mail, m': Mail, tx: Tx)
    requires Grows(a, b, tx.seat, Pending(tx)) && MailGrows(m, m', tx) && tx.outcome.events != []
    requires tx.state.version == Length(a, tx.seat)
    ensures FirstEvent(tx) in m'.rowOf && RowOk(b, m', FirstEvent(tx))
  {
    RefsGrow(a, b, tx.seat, Pending(tx));
    assert tx.outcome.Messages()[0] == tx.outcome.events[0];
  }

  lemma RowsStayOrdered(a: Streams, m: Mail, m': Mail, tx: Tx)
    requires RowsOk(a, m) && MailGrows(m, m', tx)
    requires tx.outcome.events != [] ==> tx.state.version == Length(a, tx.seat) && Newest(m.rowOf, tx)
    ensures forall r, q | r in m'.rowOf && q in m'.rowOf && r.seat == q.seat && r.version < q.version ::
      m'.rowOf[r] < m'.rowOf[q]
  {
  }

  lemma RowsStayOk(a: Streams, b: Streams, m: Mail, m': Mail, tx: Tx)
    requires RowsOk(a, m) && Grows(a, b, tx.seat, Pending(tx)) && MailGrows(m, m', tx)
    requires tx.outcome.events != [] ==> tx.state.version == Length(a, tx.seat) && Newest(m.rowOf, tx)
    requires tx.ids != [] ==> tx.firstOut !in m.outbox
    ensures RowsOk(b, m')
  {
    RefsGrow(a, b, tx.seat, Pending(tx));
    RowsStayOrdered(a, m, m', tx);
    forall r | r in m'.rowOf ensures RowOk(b, m', r) {
      if r in m.rowOf {
        OldRowStaysOk(a, b, m, m', tx, r);
      } else {
        NewRowOk(a, b, m, m', tx);
      }
    }
  }

  lemma IdsStayDistinct(m: Mail, m': Mail, tx: Tx)
    requires IdsDistinct(m.outbox) && UnusedIds(m.outbox, tx) && MailGrows(m, m', tx)
    ensures IdsDistinct(m'.outbox)
  {
    if tx.ids != [] {
      assert forall o | o in m.outbox :: tx.ids[0] != m.outbox[o].envelope.id;
    }
  }

  lemma LinksStayOk(m: Mail, m': Mail, tx: Tx)
    requires LinksOk(m) && MailGrows(m, m', tx)
    requires tx.ids != [] ==> tx.firstOut !in m.outbox && CauseOf(tx) !in m.outOf
    ensures LinksOk(m')
  {
    if tx.ids != [] {
      assert Template(tx).causationId == CausationOf(CauseOf(tx));
      assert m'.outbox.Keys == m.outbox.Keys + {tx.firstOut};
    }
  }

  lemma CausesStayOk(a: Streams, b: Streams, m: Mail, m': Mail, tx: Tx, expired: bool)
    requires CausesOk(a, m) && MailGrows(m, m', tx)
    requires forall r :: ExpiryAt(b, r) <==> ExpiryAt(a, r) || (r == FirstEvent(tx) && expired)
    requires tx.work.Command? ==> tx.ids != [] && !expired
    requires tx.work.Deadline? ==> (tx.ids != [] <==> expired)
    ensures CausesOk(b, m')
  {
    if tx.ids == [] {
      assert m'.outOf == m.outOf;
    } else {
      var k := CauseOf(tx);
      assert m'.outOf == m.outOf[k := tx.firstOut];
    }
  }

  // ---- commits ----

  lemma OldCommitStaysOk(a: Streams, b: Streams, seat: string, evts: seq<Recorded>, m: Commit)
    requires Grows(a, b, seat, evts) && CommitOk(a, m)
    ensures CommitOk(b, m)
  {
    var before, after := StreamOf(a, m.seat), StreamOf(b, m.seat);
    PrefixesStay(a, b, seat, evts, m.seat, m.decidedAt);
    assert Bodies(after)[..|before|] == Bodies(before);
    if m.outcome.events != [] {
      var k := m.decidedAt + |m.outcome.events|;
      assert Bodies(after)[m.decidedAt..k] == Bodies(after)[..|before|][m.decidedAt..k];
    }
  }

  lemma NewEventsStand(a: Streams, b: Streams, tx: Tx)
    requires Shaped(tx.outcome) && Grows(a, b, tx.seat, Pending(tx)) && tx.outcome.events != []
    requires tx.state.version == Length(a, tx.seat)
    ensures var v, n := tx.state.version, |tx.outcome.events|;
      v + n <= Length(b, tx.seat) && Bodies(StreamOf(b, tx.seat))[v..v + n] == tx.outcome.events
  {
    assert StreamOf(b, tx.seat) == StreamOf(a, tx.seat) + Pending(tx);
    assert Bodies(StreamOf(b, tx.seat))[tx.state.version..tx.state.version + 1] == tx.outcome.events;
  }

  lemma NewCommitOk(a: Streams, b: Streams, d: Deadlines, x: nat, tx: Tx)
    requires Shaped(tx.outcome) && Grows(a, b, tx.seat, Pending(tx)) && ReadOk(a, d, tx)
    requires ProperWork(tx.work, tx.seat)
    requires tx.outcome.events != [] ==> tx.state.version == Length(a, tx.seat)
    ensures CommitOk(b, CommitOf(a, x, tx))
  {
    PrefixesStay(a, b, tx.seat, Pending(tx), tx.seat, tx.state.version);
    PrefixesStay(a, b, tx.seat, Pending(tx), tx.seat, Length(a, tx.seat));
    if tx.outcome.events != [] { NewEventsStand(a, b, tx); }
  }

  lemma SerialGrows(a: Streams, b: Streams, commits: seq<Commit>, m: Commit, evts: seq<Recorded>, s: string)
    requires Serial(commits, s) == Bodies(StreamOf(a, s))
    requires StreamOf(b, s) == StreamOf(a, s) + if s == m.seat then evts else []
    requires Bodies(evts) == m.outcome.events
    ensures Serial(commits + [m], s) == Bodies(StreamOf(b, s))
  {
    assert (commits + [m])[..|commits|] == commits;
    assert Bodies(StreamOf(b, s)) == Bodies(StreamOf(a, s)) + if s == m.seat then Bodies(evts) else [];
  }

  lemma CommitsStayOk(a: Streams, b: Streams, commits: seq<Commit>, m: Commit, evts: seq<Recorded>)
    requires CommitsOk(a, commits) && Grows(a, b, m.seat, evts) && CommitOk(b, m)
    requires m.committedAt == Length(a, m.seat)
    requires Bodies(evts) == m.outcome.events
    ensures CommitsOk(b, commits + [m])
  {
    var commits' := commits + [m];
    assert commits'[..|commits|] == commits;
    assert Serial(commits, m.seat) == Bodies(StreamOf(a, m.seat));
    forall i | 0 <= i < |commits'|
      ensures CommitOk(b, commits'[i]) && commits'[i].committedAt == |Serial(commits'[..i], commits'[i].seat)|
    {
      if i < |commits| {
        assert commits'[i] == commits[i] && commits'[..i] == commits[..i];
        OldCommitStaysOk(a, b, m.seat, evts, commits[i]);
      }
    }
    forall s ensures Serial(commits', s) == Bodies(StreamOf(b, s)) {
      SerialGrows(a, b, commits, m, evts, s);
    }
  }

  /** What committing does to the claims: its own is spent, spent ones stay spent. */
  ghost predicate SpendsOwn(st: Store, st': Store, tx: Tx) {
    && !Spent(st, tx.work) && Spent(st', tx.work)
    && st'.mail.inbox == (if tx.work.Command? then st.mail.inbox + {KeyOf(tx.work.envelope)} else st.mail.inbox)
    && (forall t | t in st.deadlines.holdOf && !Unfired(st.deadlines, t) ::
          t in st'.deadlines.holdOf && !Unfired(st'.deadlines, t))
  }

  lemma CommitSpendsOwn(st: Store, x: nat, tx: Tx)
    requires Committing(st, tx) && |tx.outcome.timers| <= 1 && (tx.work.Deadline? ==> tx.outcome.timers == [])
    requires |tx.outcome.Messages()| <= 1
    ensures SpendsOwn(st, Committed(st, x, tx), tx)
  {
    CommitGrowsDeadlines(st.deadlines, tx);
    CommitGrowsMail(st.mail, tx);
  }

  lemma ClaimsStayOk(st: Store, st': Store, tx: Tx)
    requires ClaimsOk(st) && SpendsOwn(st, st', tx)
    requires |st'.commits| == |st.commits| + 1 && st'.commits[..|st.commits|] == st.commits
    requires st'.commits[|st.commits|].work == tx.work
    ensures ClaimsOk(st')
  {
    var n := |st.commits|;
    assert forall i | 0 <= i < n :: st'.commits[i] == st.commits[i];
    forall i | 0 <= i <= n ensures Spent(st', st'.commits[i].work) {
      if i < n { assert Spent(st, st.commits[i].work); }
    }
    forall i, j | 0 <= i < j <= n ensures !SameClaim(st'.commits[i].work, st'.commits[j].work) {
      if j == n { assert Spent(st, st.commits[i].work); }
    }
    forall key | key in st'.mail.inbox ensures CommittedKey(st'.commits, key) {
      if key in st.mail.inbox {
        var i :| 0 <= i < n && st.commits[i].work.Command? && KeyOf(st.commits[i].work.envelope) == key;
        assert st'.commits[i] == st.commits[i];
      } else {
        assert st'.commits[n].work == tx.work;
      }
    }
  }

  // ---- what a commit leaves behind ----

  lemma OldRecordsStay(a: Streams, b: Streams, seat: string, evts: seq<Recorded>, m: Commit)
    requires Grows(a, b, seat, evts) && RecordedOk(a, m)
    ensures RecordedOk(b, m)
  {
    forall i: nat | i < |m.outcome.events| ensures RecordedAs(b, m, i) {
      assert RecordedAs(a, m, i);
      assert StreamOf(b, m.seat) == StreamOf(a, m.seat) + if m.seat == seat then evts else [];
    }
  }

  lemma OldMessageStays(a: Streams, b: Streams, m: Mail, m': Mail, tx: Tx, past: Commit)
    requires Grows(a, b, tx.seat, Pending(tx)) && MailGrows(m, m', tx) && AnnouncedOk(a, m, past)
    requires tx.ids != [] ==> tx.firstOut !in m.outbox && CauseOf(tx) !in m.outOf
    ensures AnnouncedOk(b, m', past)
  {
    assert StreamOf(b, past.seat) == StreamOf(a, past.seat) + if past.seat == tx.seat then Pending(tx) else [];
  }

  lemma OldFiringStays(a: Streams, b: Streams, d: Deadlines, d': Deadlines, tx: Tx, past: Commit)
    requires Grows(a, b, tx.seat, Pending(tx)) && DeadlinesGrow(d, d', tx) && FiredOk(a, d, past)
    requires tx.outcome.timers != [] ==> tx.firstTimer !in d.holdOf
    requires !SameClaim(past.work, tx.work)
    ensures FiredOk(b, d', past)
  {
    if past.work.Deadline? {
      RefGrows(a, b, tx.seat, Pending(tx), d.holdOf[past.work.timer]);
    }
  }

  /** The commit a transaction becomes. */
  ghost predicate Becomes(m: Commit, tx: Tx) {
    && m.work == tx.work && m.seat == tx.seat && m.at == tx.began && m.decidedAt == tx.state.version
    && m.outcome == tx.outcome
  }

  /** What a transaction about to write relies on: its events go to the end of its stream, and
      a deadline's flow is that of the last event there. */
  ghost predicate AtTheEnd(a: Streams, tx: Tx) {
    tx.outcome.events != [] ==>
      && tx.state.version == Length(a, tx.seat)
      && (tx.work.Deadline? ==> tx.state.version > 0 && tx.last == StreamOf(a, tx.seat)[tx.state.version - 1].meta)
  }

  /** And what its messages rely on: there is at most one, to be sent under a new id. */
  ghost predicate OneMessage(tx: Tx) {
    && |tx.ids| == |tx.outcome.Messages()| <= 1
    && (tx.ids != [] ==> tx.ids[0] != "" && tx.seat != "" && (tx.work.Deadline? ==> tx.outcome.events != []))
  }

  lemma NewRecordOk(a: Streams, b: Streams, tx: Tx, m: Commit)
    requires AtTheEnd(a, tx) && Becomes(m, tx) && Grows(a, b, tx.seat, Pending(tx))
    ensures RecordedOk(b, m)
  {
    var grown := StreamOf(b, tx.seat);
    assert grown == StreamOf(a, tx.seat) + Pending(tx);
    forall i: nat | i < |m.outcome.events| ensures RecordedAs(b, m, i) {
      assert grown[m.decidedAt + i] == Pending(tx)[i];
    }
  }

  lemma NewMessageOk(a: Streams, b: Streams, mail: Mail, mail': Mail, tx: Tx, m: Commit)
    requires AtTheEnd(a, tx) && OneMessage(tx) && Becomes(m, tx)
    requires Grows(a, b, tx.seat, Pending(tx)) && MailGrows(mail, mail', tx)
    ensures AnnouncedOk(b, mail', m)
  {
    assert StreamOf(b, tx.seat) == StreamOf(a, tx.seat) + Pending(tx);
    if tx.ids != [] {
      assert OwnCause(m) == CauseOf(tx);
      var row := Frame(Template(tx), tx.ids[0], tx.outcome.Messages()[0]);
      assert mail'.outbox[mail'.outOf[OwnCause(m)]] == row;
      assert m.outcome.events + m.outcome.replies == [row.body];
      assert Announces(b, m, row);
    }
  }

  lemma NewFiringOk(a: Streams, b: Streams, d: Deadlines, d': Deadlines, tx: Tx, m: Commit)
    requires Becomes(m, tx) && Grows(a, b, tx.seat, Pending(tx)) && DeadlinesGrow(d, d', tx)
    requires tx.work.Deadline? ==>
      && tx.outcome.timers == [] && tx.work.timer in d.holdOf && TimerOk(a, d, tx.work.timer)
      && tx.work.timer in d.timers && tx.work.fireAt <= tx.began
      && d.timers[tx.work.timer] == TimerRow(tx.work.fireAt, tx.seat, tx.work.token, None)
    ensures FiredOk(b, d', m)
  {
    if tx.work.Deadline? { RefGrows(a, b, tx.seat, Pending(tx), d.holdOf[tx.work.timer]); }
  }

  lemma CommitIsTraced(st: Store, b: Streams, mail': Mail, d': Deadlines, tx: Tx, m: Commit)
    requires Committing(st, tx) && AtTheEnd(st.streams, tx) && OneMessage(tx) && Becomes(m, tx)
    requires tx.work.Deadline? ==> tx.outcome.timers == [] && TimerOk(st.streams, st.deadlines, tx.work.timer)
    requires Grows(st.streams, b, tx.seat, Pending(tx))
    requires MailGrows(st.mail, mail', tx) && DeadlinesGrow(st.deadlines, d', tx)
    ensures RecordedOk(b, m) && AnnouncedOk(b, mail', m) && FiredOk(b, d', m)
  {
    NewRecordOk(st.streams, b, tx, m);
    NewMessageOk(st.streams, b, st.mail, mail', tx, m);
    NewFiringOk(st.streams, b, st.deadlines, d', tx, m);
  }

  /** The traces of earlier commits stay. */
  lemma OldCommitStaysTraced(st: Store, b: Streams, mail': Mail, d': Deadlines, tx: Tx, m: Commit)
    requires Traced(st.streams, st.mail, st.deadlines, m) && !SameClaim(m.work, tx.work)
    requires Grows(st.streams, b, tx.seat, Pending(tx))
    requires MailGrows(st.mail, mail', tx) && DeadlinesGrow(st.deadlines, d', tx)
    requires tx.ids != [] ==> tx.firstOut !in st.mail.outbox && CauseOf(tx) !in st.mail.outOf
    requires tx.outcome.timers != [] ==> tx.firstTimer !in st.deadlines.holdOf
    ensures Traced(b, mail', d', m)
  {
    OldRecordsStay(st.streams, b, tx.seat, Pending(tx), m);
    OldMessageStays(st.streams, b, st.mail, mail', tx, m);
    OldFiringStays(st.streams, b, st.deadlines, d', tx, m);
  }

  lemma WritesAtTheEnd(st: Store, tx: Tx)
    requires StreamsOk(st.events, st.streams) && Committing(st, tx)
    ensures AtTheEnd(st.streams, tx) && OneMessage(tx) && Shaped(tx.outcome)
    ensures tx.work.Deadline? ==> |tx.ids| == |tx.outcome.events| && tx.outcome.timers == []
  {
    OutcomeShape(st, tx);
  }

  lemma FinishKeepsTraces(st: Store, x: nat, tx: Tx)
    requires StreamsOk(st.events, st.streams) && TimersOk(st.streams, st.deadlines) && CausesOk(st.streams, st.mail)
    requires ClaimsOk(st) && TracesOk(st) && Committing(st, tx) && UnusedIds(st.mail.outbox, tx)
    ensures TracesOk(Committed(st, x, tx))
  {
    WritesAtTheEnd(st, tx);
    OwnCauseIsNew(st, tx);
    TracesGrow(st, x, tx);
  }

  lemma TracesGrow(st: Store, x: nat, tx: Tx)
    requires ClaimsOk(st) && TracesOk(st) && !Spent(st, tx.work) && Committing(st, tx)
    requires TimersOk(st.streams, st.deadlines) && (tx.work.Deadline? ==> tx.outcome.timers == [])
    requires AtTheEnd(st.streams, tx) && OneMessage(tx) && Shaped(tx.outcome)
    requires tx.ids != [] ==> tx.firstOut !in st.mail.outbox && CauseOf(tx) !in st.mail.outOf
    ensures TracesOk(Committed(st, x, tx))
  {
    CommitGrows(st.streams, tx);
    CommitGrowsMail(st.mail, tx);
    CommitGrowsDeadlines(st.deadlines, tx);
    TracesStayOk(st, Committed(st, x, tx), tx, CommitOf(st.streams, x, tx));
  }

  lemma TracesStayOk(st: Store, st': Store, tx: Tx, m: Commit)
    requires ClaimsOk(st) && TracesOk(st) && !Spent(st, tx.work) && Committing(st, tx)
    requires TimersOk(st.streams, st.deadlines) && (tx.work.Deadline? ==> tx.outcome.timers == [])
    requires AtTheEnd(st.streams, tx) && OneMessage(tx) && Becomes(m, tx) && st'.commits == st.commits + [m]
    requires Grows(st.streams, st'.streams, tx.seat, Pending(tx))
    requires MailGrows(st.mail, st'.mail, tx) && DeadlinesGrow(st.deadlines, st'.deadlines, tx)
    requires tx.ids != [] ==> tx.firstOut !in st.mail.outbox && CauseOf(tx) !in st.mail.outOf
    ensures TracesOk(st')
  {
    CommitIsTraced(st, st'.streams, st'.mail, st'.deadlines, tx, m);
    OldCommitsStayTraced(st, st'.streams, st'.mail, st'.deadlines, tx);
  }

  lemma OldCommitsStayTraced(st: Store, b: Streams, mail': Mail, d': Deadlines, tx: Tx)
    requires TracesOk(st) && ClaimsOk(st) && !Spent(st, tx.work)
    requires Grows(st.streams, b, tx.seat, Pending(tx))
    requires MailGrows(st.mail, mail', tx) && DeadlinesGrow(st.deadlines, d', tx)
    requires tx.ids != [] ==> tx.firstOut !in st.mail.outbox && CauseOf(tx) !in st.mail.outOf
    requires tx.outcome.timers != [] ==> tx.firstTimer !in st.deadlines.holdOf
    ensures forall i | 0 <= i < |st.commits| :: Traced(b, mail', d', st.commits[i])
  {
    forall i | 0 <= i < |st.commits| ensures Traced(b, mail', d', st.commits[i]) {
      assert Spent(st, st.commits[i].work);
      OldCommitStaysTraced(st, b, mail', d', tx, st.commits[i]);
    }
  }

  // ---- the transactions still in flight ----

  lemma OthersClaimStays(st: Store, x: nat, tx: Tx, ty: Tx)
    requires ClaimOk(st, ty) && !SameClaim(tx.work, ty.work)
    requires |tx.ids| == |tx.outcome.Messages()| <= 1 && |tx.outcome.timers| <= 1
    requires tx.outcome.timers != [] ==> tx.firstTimer !in st.deadlines.holdOf
    ensures ClaimOk(Committed(st, x, tx), ty)
  {
    CommitGrowsDeadlines(st.deadlines, tx);
    CommitGrowsMail(st.mail, tx);
  }

  lemma OthersReadStays(a: Streams, b: Streams, d: Deadlines, d': Deadlines, tx: Tx, ty: Tx)
    requires Grows(a, b, tx.seat, Pending(tx)) && DeadlinesGrow(d, d', tx) && ReadOk(a, d, ty)
    requires tx.outcome.timers != [] ==> tx.firstTimer !in d.holdOf
    ensures ReadOk(b, d', ty)
  {
    PrefixesStay(a, b, tx.seat, Pending(tx), ty.seat, ty.state.version);
  }

  lemma OthersIdsStayUnused(m: Mail, m': Mail, tx: Tx, ty: Tx)
    requires MailGrows(m, m', tx) && Apart(tx, ty) && tx.phase.Ready? && ty.phase.Ready? && |tx.ids| <= 1
    requires UnusedIds(m.outbox, ty)
    requires ty.outcome.events != [] ==> Newest(m.rowOf, ty)
    ensures UnusedIds(m'.outbox, ty)
    ensures ty.outcome.events != [] ==> Newest(m'.rowOf, ty)
  {
    if ty.outcome.events != [] && tx.outcome.events != [] {
      assert HasPending(tx) && HasPending(ty);
    }
  }

  /** The store only grows, and what the others rely on stays. */
  lemma OthersStreamStays(a: Streams, tx: Tx, ty: Tx)
    requires tx.phase.Ready? && HasPending(ty) && Apart(tx, ty) && Shaped(tx.outcome)
    ensures StreamOf(NewStreams(a, tx), ty.seat) == StreamOf(a, ty.seat)
  {
    assert tx.outcome.events != [] ==> HasPending(tx);
  }

  lemma OthersStayOk(c: State, x: nat, y: nat)
    requires x in c.txs && y in c.txs && x != y && c.txs[x].phase.Ready?
    requires TxOk(c, c.txs[y]) && Apart(c.txs[x], c.txs[y])
    requires Committing(c.store, c.txs[x]) && Shaped(c.txs[x].outcome)
    ensures TxOk(DoFinish(c, x), c.txs[y])
  {
    var tx, ty, c' := c.txs[x], c.txs[y], DoFinish(c, x);
    var a, b, d, d' := c.store.streams, c'.store.streams, c.store.deadlines, c'.store.deadlines;
    CommitGrows(a, tx);
    CommitGrowsDeadlines(d, tx);
    CommitGrowsMail(c.store.mail, tx);
    PrefixesStay(a, b, tx.seat, Pending(tx), ty.seat, ty.beganAt);
    OthersClaimStays(c.store, x, tx, ty);
    if !ty.phase.Marked? { OthersReadStays(a, b, d, d', tx, ty); }
    if HasPending(ty) { OthersStreamStays(a, tx, ty); }
    if ty.phase.Ready? { OthersIdsStayUnused(c.store.mail, c'.store.mail, tx, ty); }
  }

  lemma OutCounterStaysOk(c: State, m': Mail, tx: Tx)
    requires CountersOk(c) && ReadyOk(c, tx) && MailGrows(c.store.mail, m', tx)
    ensures forall id | id in m'.outbox :: id < c.nextOut && m'.outbox[id].envelope.id in c.usedIds
  {
    if tx.ids != [] {
      assert tx.ids[0] in c.usedIds;
    }
  }

  lemma CountersStayOk(c: State, x: nat)
    requires x in c.txs && CountersOk(c) && ReadyOk(c, c.txs[x]) && Shaped(c.txs[x].outcome)
    ensures CountersOk(DoFinish(c, x))
  {
    CommitGrowsDeadlines(c.store.deadlines, c.txs[x]);
    CommitGrowsMail(c.store.mail, c.txs[x]);
    OutCounterStaysOk(c, NewMail(c.store.mail, c.txs[x]), c.txs[x]);
  }

  // ---- together ----

  lemma FinishKeepsDeadlines(st: Store, tx: Tx)
    requires StreamsOk(st.events, st.streams) && Committing(st, tx)
    requires TimersOk(st.streams, st.deadlines) && ExpiriesOk(st.streams, st.deadlines)
    ensures TimersOk(NewStreams(st.streams, tx), NewDeadlines(st.deadlines, tx))
    ensures ExpiriesOk(NewStreams(st.streams, tx), NewDeadlines(st.deadlines, tx))
  {
    var a, b, d, d' := st.streams, NewStreams(st.streams, tx), st.deadlines, NewDeadlines(st.deadlines, tx);
    OutcomeShape(st, tx);
    CommitGrows(a, tx);
    CommitGrowsDeadlines(d, tx);
    if tx.work.Deadline? { FiredHoldIsOver(st, tx); }
    if tx.work.Deadline? && tx.outcome.events != [] { NewExpiryOk(st, tx, b, d'); }
    assert TimersCommit(a, b, d, d', tx);
    TimersStayOk(a, b, d, d', tx);
    ExpiriesStayOk(a, b, d, d', tx);
  }

  ghost predicate MailOk(streams: Streams, m: Mail) {
    RowsOk(streams, m) && IdsDistinct(m.outbox) && LinksOk(m) && CausesOk(streams, m)
  }

  lemma FinishKeepsMail(st: Store, tx: Tx)
    requires StreamsOk(st.events, st.streams) && Committing(st, tx) && MailOk(st.streams, st.mail)
    requires UnusedIds(st.mail.outbox, tx) && (tx.outcome.events != [] ==> Newest(st.mail.rowOf, tx))
    ensures MailOk(NewStreams(st.streams, tx), NewMail(st.mail, tx))
  {
    var a, b, m, m' := st.streams, NewStreams(st.streams, tx), st.mail, NewMail(st.mail, tx);
    OutcomeShape(st, tx);
    CommitGrows(a, tx);
    CommitGrowsMail(m, tx);
    RowsStayOk(a, b, m, m', tx);
    IdsStayDistinct(m, m', tx);
    OwnCauseIsNew(st, tx);
    LinksStayOk(m, m', tx);
    ExpiriesGrow(a, b, tx);
    CausesStayOk(a, b, m, m', tx, tx.outcome.events != [] && tx.outcome.events[0].SeatHoldExpired?);
  }

  /** What was claimed is work for the transaction's seat. */
  lemma ClaimIsProper(st: Store, tx: Tx)
    requires ClaimOk(st, tx)
    ensures ProperWork(tx.work, tx.seat)
  {
  }

  lemma FinishKeepsHistory(st: Store, x: nat, tx: Tx)
    requires StreamsOk(st.events, st.streams) && Committing(st, tx) && CommitsOk(st.streams, st.commits)
    ensures CommitsOk(NewStreams(st.streams, tx), st.commits + [CommitOf(st.streams, x, tx)])
  {
    OutcomeShape(st, tx);
    CommitGrows(st.streams, tx);
    ClaimIsProper(st, tx);
    NewCommitOk(st.streams, NewStreams(st.streams, tx), st.deadlines, x, tx);
    assert Bodies(Pending(tx)) == tx.outcome.events;
    CommitsStayOk(st.streams, NewStreams(st.streams, tx), st.commits, CommitOf(st.streams, x, tx), Pending(tx));
  }

  lemma FinishKeepsClaims(st: Store, x: nat, tx: Tx)
    requires StreamsOk(st.events, st.streams) && Committing(st, tx) && ClaimsOk(st)
    ensures ClaimsOk(Committed(st, x, tx))
  {
    OutcomeShape(st, tx);
    CommitSpendsOwn(st, x, tx);
    ClaimsStayOk(st, Committed(st, x, tx), tx);
  }

  lemma FinishKeepsStore(st: Store, x: nat, tx: Tx)
    requires StoreOk(st) && Committing(st, tx)
    requires UnusedIds(st.mail.outbox, tx) && (tx.outcome.events != [] ==> Newest(st.mail.rowOf, tx))
    ensures StoreOk(Committed(st, x, tx))
  {
    StreamsStayOk(st, tx);
    FinishKeepsDeadlines(st, tx);
    FinishKeepsMail(st, tx);
    FinishKeepsHistory(st, x, tx);
    FinishKeepsClaims(st, x, tx);
    FinishKeepsTraces(st, x, tx);
  }

  lemma OwnCauseIsNew(st: Store, tx: Tx)
    requires CausesOk(st.streams, st.mail) && Committing(st, tx)
    requires tx.work.Deadline? ==> |tx.ids| == |tx.outcome.events|
    ensures tx.ids != [] ==> CauseOf(tx) !in st.mail.outOf
  {
    if tx.work.Deadline? && tx.ids != [] {
      assert !ExpiryAt(st.streams, FirstEvent(tx));
    }
  }

  lemma FinishKeepsTxs(c: State, x: nat)
    requires CountersOk(c) && TxsOk(c) && x in c.txs && c.txs[x].phase.Ready?
    requires Committing(c.store, c.txs[x]) && Shaped(c.txs[x].outcome)
    ensures CountersOk(DoFinish(c, x)) && TxsOk(DoFinish(c, x))
  {
    var tx, c' := c.txs[x], DoFinish(c, x);
    assert TxOk(c, tx);
    CountersStayOk(c, x);
    forall y | y in c'.txs ensures TxOk(c', c'.txs[y]) {
      assert TxOk(c, c.txs[y]) && Apart(tx, c.txs[y]);
      OthersStayOk(c, x, y);
    }
  }

  lemma ReadyIsCommitting(c: State, tx: Tx)
    requires TxOk(c, tx) && tx.phase.Ready? && StreamsOk(c.store.events, c.store.streams)
    ensures Committing(c.store, tx) && Shaped(tx.outcome)
    ensures UnusedIds(c.store.mail.outbox, tx) && (tx.outcome.events != [] ==> Newest(c.store.mail.rowOf, tx))
  {
    WorkIsShaped(c.store, tx);
  }

  /** Committing keeps the whole invariant. */
  lemma FinishKeepsInv(c: State, x: nat)
    requires Inv(c) && x in c.txs && c.txs[x].phase.Ready?
    ensures |c.txs[x].ids| == |c.txs[x].outcome.Messages()|
    ensures Inv(DoFinish(c, x))
  {
    ReadyIsCommitting(c, c.txs[x]);
    FinishKeepsStore(c.store, x, c.txs[x]);
    FinishKeepsTxs(c, x);
  }
}
