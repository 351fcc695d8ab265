/** Every action keeps the invariant, so it holds in every state a run can reach. */
module Runs {
  import opened Base
  import opened Seat
  import opened EventStore
  import Envelopes
  import opened Engine
  import opened Invariants
  import opened CommitStep

  lemma InitOk(now: Instant)
    ensures Inv(Init(now))
  {
    var c := Init(now);
    forall s ensures Serial(c.store.commits, s) == Bodies(StreamOf(c.store.streams, s)) {
    }
  }

  // ---- the store stays, one transaction changes ----

  /** Two transactions are apart whichever way round they are compared. */
  ghost predicate ApartFromAll(c: State, x: nat, tx: Tx) {
    forall y | y in c.txs && y != x :: Apart(tx, c.txs[y]) && Apart(c.txs[y], tx)
  }

  /** A transaction that moves without touching the store disturbs nobody, provided its new
      record is in order and apart from the others. */
  lemma TxMoves(c: State, c': State, x: nat)
    requires CountersOk(c) && TxsOk(c) && c'.store == c.store && c'.now == c.now
    requires c.nextOut <= c'.nextOut && c.nextTimer <= c'.nextTimer && c.usedIds <= c'.usedIds
    requires x in c'.txs && c'.txs == c.txs[x := c'.txs[x]]
    requires TxOk(c', c'.txs[x]) && ApartFromAll(c, x, c'.txs[x])
    ensures CountersOk(c') && TxsOk(c')
  {
    forall y | y in c'.txs ensures TxOk(c', c'.txs[y]) {
      if y != x { assert TxOk(c, c.txs[y]); }
    }
  }

  /** The transactions that stay do not notice others leaving or time passing. */
  lemma TxsStay(c: State, c': State)
    requires CountersOk(c) && TxsOk(c)
    requires c' == c.(txs := c'.txs, now := c'.now) && c.now <= c'.now
    requires forall y | y in c'.txs :: y in c.txs && c'.txs[y] == c.txs[y]
    ensures CountersOk(c') && TxsOk(c')
  {
    forall y | y in c'.txs ensures TxOk(c', c'.txs[y]) {
      assert TxOk(c, c.txs[y]);
    }
  }

  lemma DropKeepsInv(c: State, x: nat)
    requires Inv(c)
    ensures Inv(Drop(c, x))
  {
    TxsStay(c, Drop(c, x));
  }

  lemma ReceivedTxOk(c: State, x: nat, e: Envelopes.Envelope, cmd: Message)
    requires CanReceive(c, x, e, cmd)
    ensures var c' := DoReceive(c, x, e, cmd); TxOk(c', c'.txs[x]) && ApartFromAll(c, x, c'.txs[x])
  {
  }

  lemma ReceiveKeepsInv(c: State, x: nat, e: Envelopes.Envelope, cmd: Message)
    requires Inv(c)
    ensures Inv(Step(c, Receive(x, e, cmd)))
  {
    if CanReceive(c, x, e, cmd) {
      ReceivedTxOk(c, x, e, cmd);
      TxMoves(c, DoReceive(c, x, e, cmd), x);
    }
  }

  lemma ClaimedTxOk(c: State, x: nat, timer: nat, began: Instant)
    requires TimersOk(c.store.streams, c.store.deadlines) && CanClaim(c, x, timer, began)
    ensures var c' := DoClaim(c, x, timer, began); TxOk(c', c'.txs[x]) && ApartFromAll(c, x, c'.txs[x])
  {
  }

  lemma ClaimKeepsInv(c: State, x: nat, timer: nat, began: Instant)
    requires Inv(c)
    ensures Inv(Step(c, Claim(x, timer, began)))
  {
    if CanClaim(c, x, timer, began) {
      ClaimedTxOk(c, x, timer, began);
      TxMoves(c, DoClaim(c, x, timer, began), x);
    }
  }

  /** In a reachable state a stream always folds, and loading reads all of it. */
  lemma LoadFolds(c: State, seat: string)
    requires StreamsOk(c.store.events, c.store.streams)
    ensures Loaded(c.store.events, seat) == StreamOf(c.store.streams, seat)
    ensures var f := Fold(Bodies(StreamOf(c.store.streams, seat)));
      f.Ok? && f.value.version == Length(c.store.streams, seat)
  {
    LoadReadsTheStream(c.store.events, c.store.streams, seat);
    AlternatingFolds(Bodies(StreamOf(c.store.streams, seat)));
  }

  /** What a load leaves in the transaction: the fold of everything committed so far. */
  lemma LoadEffect(c: State, x: nat)
    requires StreamsOk(c.store.events, c.store.streams) && TimersOk(c.store.streams, c.store.deadlines)
    requires x in c.txs && c.txs[x].phase.Marked? && TxOk(c, c.txs[x])
    ensures var tx, c' := c.txs[x], DoLoad(c, x);
      && x in c'.txs && c'.txs == c.txs[x := c'.txs[x]] && c' == c.(txs := c'.txs)
      && c'.txs[x].phase.Read? && c'.txs[x].work == tx.work && c'.txs[x].seat == tx.seat
      && c'.txs[x].state.version == Length(c.store.streams, tx.seat)
      && ReadOk(c.store.streams, c.store.deadlines, c'.txs[x])
      && TxOk(c', c'.txs[x])
  {
    var tx := c.txs[x];
    LoadFolds(c, tx.seat);
    var whole := StreamOf(c.store.streams, tx.seat);
    assert whole[..|whole|] == whole;
    if tx.work.Deadline? { assert TimerOk(c.store.streams, c.store.deadlines, tx.work.timer); }
  }

  lemma PhaseChangeStaysApart(c: State, x: nat, tx': Tx)
    requires TxsOk(c) && x in c.txs && tx'.work == c.txs[x].work && !tx'.phase.Ready? && !HasPending(tx')
    ensures ApartFromAll(c, x, tx')
  {
    forall y | y in c.txs && y != x ensures Apart(tx', c.txs[y]) && Apart(c.txs[y], tx') {
      assert Apart(c.txs[x], c.txs[y]);
    }
  }

  lemma LoadKeepsInv(c: State, x: nat)
    requires Inv(c) && x in c.txs && c.txs[x].phase.Marked?
    ensures Inv(DoLoad(c, x))
  {
    assert TxOk(c, c.txs[x]);
    LoadEffect(c, x);
    var c' := DoLoad(c, x);
    PhaseChangeStaysApart(c, x, c'.txs[x]);
    TxMoves(c, c', x);
  }

  /** The append of a loaded transaction conflicts exactly when its stream has moved on. */
  lemma ConflictMeansProgress(c: State, tx: Tx)
    requires StreamsOk(c.store.events, c.store.streams)
    requires tx.state.version <= Length(c.store.streams, tx.seat) && tx.outcome.events != []
    ensures Conflicts(c.store, tx) <==> tx.state.version < Length(c.store.streams, tx.seat)
  {
    AppendExtendsTheStream(c.store.events, c.store.streams, tx.seat, tx.state.version, Pending(tx));
  }

  /** An append that goes through leaves its transaction in order and alone on its stream. */
  lemma WrittenTxOk(c: State, x: nat)
    requires TxsOk(c) && StreamsOk(c.store.events, c.store.streams) && x in c.txs && c.txs[x].phase.Read?
    requires c.txs[x].outcome.events != [] ==>
      !Conflicts(c.store, c.txs[x]) && !VersionLocked(c.txs, c.txs[x].seat, c.txs[x].state.version + 1)
    ensures TxOk(c, c.txs[x].(phase := Written)) && ApartFromAll(c, x, c.txs[x].(phase := Written))
  {
    var tx, tx' := c.txs[x], c.txs[x].(phase := Written);
    assert TxOk(c, tx);
    if tx.outcome.events != [] { ConflictMeansProgress(c, tx); }
    forall y | y in c.txs && y != x ensures Apart(tx', c.txs[y]) && Apart(c.txs[y], tx') {
      assert Apart(tx, c.txs[y]) && TxOk(c, c.txs[y]);
    }
  }

  lemma AppendKeepsInv(c: State, x: nat)
    requires Inv(c) && x in c.txs && c.txs[x].phase.Read?
    ensures Inv(DoAppend(c, x))
  {
    var tx, c' := c.txs[x], DoAppend(c, x);
    if tx.outcome.events != [] && Conflicts(c.store, tx) {
      DropKeepsInv(c, x);
    } else if tx.outcome.events == [] || !VersionLocked(c.txs, tx.seat, tx.state.version + 1) {
      WrittenTxOk(c, x);
      assert c' == c.(txs := c.txs[x := tx.(phase := Written)]);
      TxMoves(c, c', x);
    }
  }

  lemma DrawnIdsAreUnused(c: State, tx: Tx, ids: seq<string>)
    requires RowsOk(c.store.streams, c.store.mail) && CountersOk(c) && Fresh(c.usedIds, ids)
    ensures UnusedIds(c.store.mail.outbox, tx.(firstOut := c.nextOut, ids := ids))
    ensures Newest(c.store.mail.rowOf, tx.(firstOut := c.nextOut, ids := ids))
  {
    forall r | r in c.store.mail.rowOf ensures c.store.mail.rowOf[r] < c.nextOut {
      assert RowOk(c.store.streams, c.store.mail, r);
    }
  }

  ghost predicate Enqueues(c: State, x: nat, ids: seq<string>) {
    && x in c.txs && c.txs[x].phase.Written? && |ids| == |c.txs[x].outcome.Messages()| && Fresh(c.usedIds, ids)
    && (ids != [] ==> c.txs[x].seat != "")
  }

  lemma ReadyTxOk(c: State, x: nat, ids: seq<string>)
    requires Enqueues(c, x, ids) && RowsOk(c.store.streams, c.store.mail) && CountersOk(c) && TxOk(c, c.txs[x])
    ensures TxOk(DoEnqueue(c, x, ids), DoEnqueue(c, x, ids).txs[x])
  {
    DrawnIdsAreUnused(c, c.txs[x], ids);
  }

  lemma ReadyStaysApart(c: State, x: nat, ids: seq<string>)
    requires Enqueues(c, x, ids) && TxsOk(c)
    ensures ApartFromAll(c, x, DoEnqueue(c, x, ids).txs[x])
  {
    var tx' := DoEnqueue(c, x, ids).txs[x];
    forall y | y in c.txs && y != x ensures Apart(tx', c.txs[y]) && Apart(c.txs[y], tx') {
      assert Apart(c.txs[x], c.txs[y]);
      assert TxOk(c, c.txs[y]);
    }
  }

  lemma EnqueueKeepsInv(c: State, x: nat, ids: seq<string>)
    requires Inv(c) && x in c.txs && c.txs[x].phase.Written?
    ensures Inv(DoEnqueue(c, x, ids))
  {
    var msgs := c.txs[x].outcome.Messages();
    if msgs != [] && c.txs[x].seat == "" {
      DropKeepsInv(c, x);
    } else if |ids| == |msgs| && Fresh(c.usedIds, ids) {
      ReadyTxOk(c, x, ids);
      ReadyStaysApart(c, x, ids);
      TxMoves(c, DoEnqueue(c, x, ids), x);
    }
  }

  // ---- housekeeping ----

  /** Fewer fired timers, everything else as it was. */
  ghost predicate Pruned(d: Deadlines, d': Deadlines) {
    && d' == d.(timers := d'.timers)
    && (forall t | t in d'.timers :: t in d.timers && d'.timers[t] == d.timers[t])
    && (forall t | Unfired(d, t) :: t in d'.timers)
  }

  lemma PruneKeepsDeadlines(streams: Streams, d: Deadlines, d': Deadlines)
    requires TimersOk(streams, d) && ExpiriesOk(streams, d) && Pruned(d, d')
    ensures TimersOk(streams, d') && ExpiriesOk(streams, d')
  {
    forall t | t in d'.holdOf ensures TimerOk(streams, d', t) {
      assert TimerOk(streams, d, t);
    }
    forall r | r in d'.firedBy ensures ExpiryOk(streams, d', r) {
      assert ExpiryOk(streams, d, r);
    }
  }

  lemma PruneKeepsTxs(c: State, c': State)
    requires TxsOk(c) && c' == c.(store := c.store.(deadlines := c'.store.deadlines))
    requires Pruned(c.store.deadlines, c'.store.deadlines)
    ensures TxsOk(c')
  {
    forall y | y in c'.txs ensures TxOk(c', c'.txs[y]) {
      assert TxOk(c, c.txs[y]);
    }
  }

  /** Pruning forgets fired timers only, and their holds are over. */
  lemma PruneKeepsInv(c: State, cutoff: Instant)
    requires Inv(c)
    ensures Inv(DoPrune(c, cutoff))
  {
    var c' := DoPrune(c, cutoff);
    assert Pruned(c.store.deadlines, c'.store.deadlines);
    PruneKeepsDeadlines(c.store.streams, c.store.deadlines, c'.store.deadlines);
    PruneKeepsTxs(c, c');
    PruneKeepsClaims(c.store, c'.store);
    PruneKeepsTraces(c.store, c'.store);
  }

  lemma PruneKeepsClaims(st: Store, st': Store)
    requires ClaimsOk(st) && st' == st.(deadlines := st'.deadlines) && Pruned(st.deadlines, st'.deadlines)
    ensures ClaimsOk(st')
  {
    forall i | 0 <= i < |st.commits| ensures Spent(st', st.commits[i].work) {
      assert Spent(st, st.commits[i].work);
    }
  }

  lemma PruneKeepsTraces(st: Store, st': Store)
    requires TracesOk(st) && st' == st.(deadlines := st'.deadlines) && Pruned(st.deadlines, st'.deadlines)
    ensures TracesOk(st')
  {
    forall i | 0 <= i < |st.commits| ensures Traced(st'.streams, st'.mail, st'.deadlines, st'.commits[i]) {
      assert Traced(st.streams, st.mail, st.deadlines, st.commits[i]);
    }
  }

  lemma ClockKeepsInv(c: State, to: Instant)
    requires Inv(c) && c.now <= to
    ensures Inv(c.(now := to))
  {
    TxsStay(c, c.(now := to));
  }

  // ---- together ----

  lemma LoadStep(c: State, x: nat)
    requires Inv(c)
    ensures Inv(Step(c, Load(x)))
  {
    if x in c.txs && c.txs[x].phase.Marked? {
      LoadKeepsInv(c, x);
      assert Step(c, Load(x)) == DoLoad(c, x);
    }
  }

  lemma AppendStep(c: State, x: nat)
    requires Inv(c)
    ensures Inv(Step(c, Append(x)))
  {
    if x in c.txs && c.txs[x].phase.Read? {
      AppendKeepsInv(c, x);
      assert Step(c, Append(x)) == DoAppend(c, x);
    }
  }

  lemma EnqueueStep(c: State, x: nat, ids: seq<string>)
    requires Inv(c)
    ensures Inv(Step(c, Enqueue(x, ids)))
  {
    if x in c.txs && c.txs[x].phase.Written? {
      EnqueueKeepsInv(c, x, ids);
      assert Step(c, Enqueue(x, ids)) == DoEnqueue(c, x, ids);
    }
  }

  lemma FinishStep(c: State, x: nat)
    requires Inv(c)
    ensures Inv(Step(c, Finish(x)))
  {
    if x in c.txs && c.txs[x].phase.Ready? {
      FinishKeepsInv(c, x);
      assert Step(c, Finish(x)) == DoFinish(c, x);
    }
  }

  lemma ClockStep(c: State, to: Instant)
    requires Inv(c)
    ensures Inv(Step(c, Clock(to)))
  {
    if c.now <= to { ClockKeepsInv(c, to); }
  }

  /** One action keeps the invariant. */
  lemma StepKeepsInv(c: State, a: Action)
    requires Inv(c)
    ensures Inv(Step(c, a))
  {
    match a
    case Receive(x, e, cmd) => ReceiveKeepsInv(c, x, e, cmd);
    case Claim(x, timer, began) => ClaimKeepsInv(c, x, timer, began);
    case Load(x) => LoadStep(c, x);
    case Append(x) => AppendStep(c, x);
    case Enqueue(x, ids) => EnqueueStep(c, x, ids);
    case Finish(x) => FinishStep(c, x);
    case Abort(x) => DropKeepsInv(c, x);
    case Clock(to) => ClockStep(c, to);
    case PruneTimers(cutoff) => PruneKeepsInv(c, cutoff);
  }

  /** The invariant holds in every state any run can reach, whatever the interleaving, the
      retries and the crashes. */
  lemma {:induction false} RunKeepsInv(c: State, acts: seq<Action>)
    requires Inv(c)
    ensures Inv(Run(c, acts))
  {
    if acts != [] {
      RunKeepsInv(c, acts[..|acts| - 1]);
      StepKeepsInv(Run(c, acts[..|acts| - 1]), acts[|acts| - 1]);
    }
  }

  /** Only finishing a transaction, or pruning timers that have fired, changes the store. */
  lemma OnlyCommitsWrite(c: State, a: Action)
    ensures !a.Finish? && !a.PruneTimers? ==> Step(c, a).store == c.store
    ensures a.PruneTimers? ==>
      var d, d' := c.store.deadlines, Step(c, a).store.deadlines;
      && Step(c, a).store == c.store.(deadlines := d.(timers := d'.timers))
      && forall t | Unfired(d, t) :: Unfired(d', t)
  {
  }

  // ---- reachable states, and the invariant piece by piece ----

  /** Some run leads here. */
  ghost predicate Reachable(c: State) {
    exists now, acts :: c == Run(Init(now), acts)
  }

  lemma StepIsReachable(c: State, a: Action)
    requires Reachable(c)
    ensures Reachable(Step(c, a))
  {
    var now, acts :| c == Run(Init(now), acts);
    assert (acts + [a])[..|acts|] == acts;
    assert Step(c, a) == Run(Init(now), acts + [a]);
  }

  lemma ReachableInv(c: State)
    requires Reachable(c)
    ensures Inv(c)
  {
    var now, acts :| c == Run(Init(now), acts);
    InitOk(now);
    RunKeepsInv(Init(now), acts);
  }

  lemma ReachableStreams(c: State)
    requires Reachable(c)
    ensures StreamsOk(c.store.events, c.store.streams)
  {
    ReachableInv(c);
  }

  lemma ReachableDeadlines(c: State)
    requires Reachable(c)
    ensures TimersOk(c.store.streams, c.store.deadlines) && ExpiriesOk(c.store.streams, c.store.deadlines)
  {
    ReachableInv(c);
  }

  lemma ReachableMail(c: State)
    requires Reachable(c)
    ensures RowsOk(c.store.streams, c.store.mail) && IdsDistinct(c.store.mail.outbox)
    ensures LinksOk(c.store.mail) && CausesOk(c.store.streams, c.store.mail)
  {
    ReachableInv(c);
  }

  lemma ReachableCommits(c: State)
    requires Reachable(c)
    ensures CommitsOk(c.store.streams, c.store.commits) && ClaimsOk(c.store)
  {
    ReachableInv(c);
  }

  lemma ReachableTraces(c: State)
    requires Reachable(c)
    ensures TracesOk(c.store)
  {
    ReachableInv(c);
  }

  lemma ReachableTx(c: State, x: nat)
    requires Reachable(c) && x in c.txs
    ensures TxOk(c, c.txs[x])
  {
    ReachableInv(c);
  }

  lemma ReachableApart(c: State, x: nat, y: nat)
    requires Reachable(c) && x in c.txs && y in c.txs && x != y
    ensures Apart(c.txs[x], c.txs[y])
  {
    ReachableInv(c);
  }
}
