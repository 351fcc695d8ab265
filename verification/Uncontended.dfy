/** What one transaction does when nobody else is around, and how runs are strung together. */
module Uncontended {
  import opened Base
  import opened Seat
  import opened EventStore
  import opened Envelopes
  import opened Engine
  import opened Invariants
  import opened Runs

  // ---- runs, end to end ----

  ghost predicate Leads(a: State, b: State) { exists acts :: b == Run(a, acts) }

  /** One more step at the end of a run. */
  lemma LeadsOn(a: State, b: State, act: Action)
    requires Leads(a, b)
    ensures Leads(a, Step(b, act))
  {
    var acts :| b == Run(a, acts);
    assert (acts + [act])[..|acts|] == acts;
    assert Step(b, act) == Run(a, acts + [act]);
  }

  lemma LeadsToItself(c: State)
    ensures Leads(c, c)
  {
    assert c == Run(c, []);
  }

  // ---- one transaction with nobody else around ----

  ghost function SeatNow(c: State, seat: string): SeatState {
    Folded(Bodies(StreamOf(c.store.streams, seat)))
  }

  /** The transaction as it commits when nothing moves between its statements. */
  ghost function AsCommitted(c: State, tx: Tx, ids: seq<string>): Tx {
    tx.(phase := Ready, state := SeatNow(c, tx.seat), last := LastMeta(StreamOf(c.store.streams, tx.seat)),
        outcome := DecideWork(tx.work, tx.seat, SeatNow(c, tx.seat)),
        firstTimer := c.nextTimer, firstOut := c.nextOut, ids := ids)
  }

  lemma LoadAlone(c: State, x: nat)
    requires Reachable(c) && x in c.txs && c.txs[x].phase.Marked?
    ensures var c' := Step(c, Load(x)); var tx := c.txs[x];
      && Reachable(c') && c' == c.(txs := c'.txs) && c'.txs.Keys == c.txs.Keys
      && c'.txs[x] == tx.(phase := Engine.Read, state := SeatNow(c, tx.seat), last := LastMeta(StreamOf(c.store.streams, tx.seat)),
                          outcome := DecideWork(tx.work, tx.seat, SeatNow(c, tx.seat)))
      && SeatNow(c, tx.seat).version == Length(c.store.streams, tx.seat)
  {
    StepIsReachable(c, Load(x));
    ReachableStreams(c);
    LoadFolds(c, c.txs[x].seat);
  }

  lemma AppendAlone(c: State, x: nat)
    requires Reachable(c) && c.txs.Keys == {x} && c.txs[x].phase.Read?
    requires c.txs[x].state.version == Length(c.store.streams, c.txs[x].seat)
    ensures var c' := Step(c, Append(x));
      Reachable(c') && c' == c.(txs := c.txs[x := c.txs[x].(phase := Written)])
  {
    StepIsReachable(c, Append(x));
    ReachableStreams(c);
    var tx := c.txs[x];
    if tx.outcome.events != [] {
      ConflictMeansProgress(c, tx);
      assert !VersionLocked(c.txs, tx.seat, tx.state.version + 1);
    }
  }

  lemma EnqueueAlone(c: State, x: nat, ids: seq<string>)
    requires Reachable(c) && x in c.txs && c.txs[x].phase.Written? && c.txs[x].seat != ""
    requires |ids| == |c.txs[x].outcome.Messages()| && Fresh(c.usedIds, ids)
    ensures Reachable(Step(c, Engine.Enqueue(x, ids)))
    ensures Step(c, Engine.Enqueue(x, ids)) == DoEnqueue(c, x, ids)
  {
    StepIsReachable(c, Engine.Enqueue(x, ids));
  }

  /** Load, append and enqueue with nothing between them. */
  lemma GetReady(start: State, c: State, x: nat, ids: seq<string>) returns (c': State)
    requires Leads(start, c) && Reachable(c) && c.txs.Keys == {x} && c.txs[x].phase.Marked? && c.txs[x].seat != ""
    requires |ids| == |AsCommitted(c, c.txs[x], ids).outcome.Messages()| && Fresh(c.usedIds, ids)
    ensures Reachable(c') && Leads(start, c')
    ensures var tx := AsCommitted(c, c.txs[x], ids);
      c' == c.(txs := c.txs[x := tx], nextTimer := c.nextTimer + |tx.outcome.timers|,
               nextOut := c.nextOut + |ids|, usedIds := c.usedIds + set id | id in ids)
  {
    LoadAlone(c, x);
    var loaded := Step(c, Load(x));
    AppendAlone(loaded, x);
    var written := Step(loaded, Append(x));
    EnqueueAlone(written, x, ids);
    c' := Step(written, Engine.Enqueue(x, ids));
    LeadsOn(start, c, Load(x));
    LeadsOn(start, loaded, Append(x));
    LeadsOn(start, written, Engine.Enqueue(x, ids));
  }

  /** Nothing between its statements: the transaction commits its decision on all there is. */
  lemma Settle(start: State, c: State, x: nat, ids: seq<string>) returns (c': State)
    requires Leads(start, c) && Reachable(c) && c.txs.Keys == {x} && c.txs[x].phase.Marked? && c.txs[x].seat != ""
    requires |ids| == |AsCommitted(c, c.txs[x], ids).outcome.Messages()| && Fresh(c.usedIds, ids)
    ensures Reachable(c') && Leads(start, c')
    ensures var tx := AsCommitted(c, c.txs[x], ids);
      c' == c.(store := Committed(c.store, x, tx), txs := map[],
               nextTimer := c.nextTimer + |tx.outcome.timers|, nextOut := c.nextOut + |ids|,
               usedIds := c.usedIds + set id | id in ids)
  {
    var ready := GetReady(start, c, x, ids);
    StepIsReachable(ready, Finish(x));
    LeadsOn(start, ready, Finish(x));
    c' := Step(ready, Finish(x));
    assert c'.txs == map[];
  }

  lemma CommandSaysOneThing(c: State, e: Envelope, cmd: Message)
    requires Reachable(c) && cmd.IsCommand()
    ensures |DecideWork(Command(e, cmd), cmd.seatId, SeatNow(c, cmd.seatId)).Messages()| == 1
  {
    ReachableStreams(c);
    LoadFolds(c, cmd.seatId);
    AnyStreamAlternates(c, cmd.seatId);
    DecideKeepsAlternation(Bodies(StreamOf(c.store.streams, cmd.seatId)), cmd);
  }

  lemma AnyStreamAlternates(c: State, seat: string)
    requires Reachable(c)
    ensures Alternates(Bodies(StreamOf(c.store.streams, seat)))
  {
    ReachableStreams(c);
  }

  /** What a command's commit adds to its stream, the timers and the inbox. */
  lemma CommittedCommand(st: Store, x: nat, tx: Tx)
    requires tx.work.Command? && |tx.ids| == |tx.outcome.Messages()|
    ensures var st' := Committed(st, x, tx);
      && Bodies(StreamOf(st'.streams, tx.seat)) == Bodies(StreamOf(st.streams, tx.seat)) + tx.outcome.events
      && st'.deadlines.timers == st.deadlines.timers + TimerRows(tx.seat, tx.outcome.timers, tx.firstTimer)
      && st'.mail.inbox == st.mail.inbox + {KeyOf(tx.work.envelope)}
  {
    StreamGains(st.streams, tx);
    assert Committed(st, x, tx).streams == NewStreams(st.streams, tx);
  }

  lemma StreamGains(streams: Streams, tx: Tx)
    ensures Bodies(StreamOf(NewStreams(streams, tx), tx.seat)) ==
      Bodies(StreamOf(streams, tx.seat)) + tx.outcome.events
  {
    var before, after := StreamOf(streams, tx.seat), StreamOf(NewStreams(streams, tx), tx.seat);
    assert after == before + Pending(tx);
    assert Bodies(Pending(tx)) == tx.outcome.events;
    assert Bodies(before + Pending(tx)) == Bodies(before) + Bodies(Pending(tx));
  }

  lemma Marking(start: State, c: State, e: Envelope, cmd: Message) returns (c': State)
    requires Leads(start, c) && Reachable(c) && CanReceive(c, 0, e, cmd) && cmd.IsCommand()
    ensures c' == DoReceive(c, 0, e, cmd) && Reachable(c') && Leads(start, c')
    ensures SeatNow(c', cmd.seatId) == SeatNow(c, cmd.seatId)
    ensures |DecideWork(Command(e, cmd), cmd.seatId, SeatNow(c, cmd.seatId)).Messages()| == 1
  {
    StepIsReachable(c, Receive(0, e, cmd));
    LeadsOn(start, c, Receive(0, e, cmd));
    CommandSaysOneThing(c, e, cmd);
    c' := Step(c, Receive(0, e, cmd));
  }

  /** One command, start to commit. */
  lemma OneCommand(start: State, c: State, e: Envelope, cmd: Message, id: string) returns (c': State)
    requires Leads(start, c) && Reachable(c) && c.txs == map[] && CanReceive(c, 0, e, cmd)
    requires cmd.IsCommand() && cmd.seatId != "" && id != "" && id !in c.usedIds
    ensures Reachable(c') && Leads(start, c')
    ensures c'.txs == map[] && c'.now == c.now && c'.usedIds == c.usedIds + {id}
    ensures c'.store.mail.inbox == c.store.mail.inbox + {KeyOf(e)}
    ensures var o := DecideWork(Command(e, cmd), cmd.seatId, SeatNow(c, cmd.seatId));
      && c'.nextTimer == c.nextTimer + |o.timers|
      && Bodies(StreamOf(c'.store.streams, cmd.seatId)) == Bodies(StreamOf(c.store.streams, cmd.seatId)) + o.events
      && c'.store.deadlines.timers ==
         c.store.deadlines.timers + TimerRows(cmd.seatId, o.timers, c.nextTimer)
  {
    var marked := Marking(start, c, e, cmd);
    c' := Settle(start, marked, 0, [id]);
    ghost var tx := AsCommitted(marked, marked.txs[0], [id]);
    assert tx.outcome == DecideWork(Command(e, cmd), cmd.seatId, SeatNow(c, cmd.seatId)) && tx.seat == cmd.seatId;
    CommittedCommand(c.store, 0, tx);
  }

  /** One timer, claimed when it is due, start to commit. */
  lemma OneFire(start: State, c: State, timer: nat, id: string) returns (c': State)
    requires Leads(start, c) && Reachable(c) && c.txs == map[] && Unfired(c.store.deadlines, timer)
    requires c.store.deadlines.timers[timer].fireAt <= c.now && id != "" && id !in c.usedIds
    requires c.store.deadlines.timers[timer].subject != ""
    requires SeatNow(c, c.store.deadlines.timers[timer].subject).HeldBy(c.store.deadlines.timers[timer].token)
    ensures Reachable(c') && Leads(start, c') && c'.now == c.now
    ensures var row := c.store.deadlines.timers[timer]; var live := SeatNow(c, row.subject);
      exists meta :: StreamOf(c'.store.streams, row.subject) == StreamOf(c.store.streams, row.subject) +
        [Recorded(SeatHoldExpired(live.holdId, live.bookingId, row.subject), meta, c.now)]
  {
    var row := c.store.deadlines.timers[timer];
    StepIsReachable(c, Claim(0, timer, c.now));
    var claimed := Step(c, Claim(0, timer, c.now));
    LeadsOn(start, c, Claim(0, timer, c.now));
    c' := Settle(start, claimed, 0, [id]);
    var tx := AsCommitted(claimed, claimed.txs[0], [id]);
    var live := SeatNow(c, row.subject);
    assert tx.outcome.events == [SeatHoldExpired(live.holdId, live.bookingId, row.subject)];
    assert Pending(tx) == [Recorded(SeatHoldExpired(live.holdId, live.bookingId, row.subject), MetaOf(tx), c.now)];
  }

  // ---- clearing the way ----

  /** Every open transaction can be rolled back. */
  lemma {:induction false} RollBackAll(start: State, c: State) returns (c': State)
    requires Leads(start, c) && Reachable(c)
    ensures Leads(start, c') && Reachable(c') && c' == c.(txs := map[])
    decreases |c.txs|
  {
    if |c.txs| == 0 {
      c' := c;
    } else {
      assert c.txs.Keys != {};
      var x :| x in c.txs;
      StepIsReachable(c, Abort(x));
      LeadsOn(start, c, Abort(x));
      assert (c.txs - {x}).Keys == c.txs.Keys - {x};
      c' := RollBackAll(start, Step(c, Abort(x)));
    }
  }

  lemma {:induction false} LongestExists(used: set<string>) returns (n: nat)
    ensures forall s | s in used :: |s| <= n
  {
    if used == {} {
      n := 0;
    } else {
      var s :| s in used;
      n := LongestExists(used - {s});
      assert forall t | t in used :: t == s || t in used - {s};
      if n < |s| { n := |s|; }
    }
  }

  /** There is always an unused message id. */
  lemma FreshId(used: set<string>) returns (id: string)
    ensures id !in used && id != ""
  {
    var n := LongestExists(used);
    id := seq(n + 1, _ => '0');
  }
}
