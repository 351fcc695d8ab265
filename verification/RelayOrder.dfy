/** With one active poller, the log tells each seat's events in stream order. */
module RelayOrder {
  import opened Base
  import opened Seat
  import opened EventStore
  import opened Engine
  import opened Invariants
  import opened Runs
  import opened Relay

  /** What landed of a batch is, for each key, a beginning of the batch's messages with that
      key: nothing lands before an older message of the same key. */
  ghost predicate KeyOrderKept(w: World, batch: seq<nat>, landed: seq<nat>) {
    forall i, id | 0 <= i < |landed| && id in batch && id < landed[i]
                && id in Rows(w) && landed[i] in Rows(w) && Rows(w)[id].key == Rows(w)[landed[i]].key ::
      id in landed[..i]
  }

  /** One poller at a time, and a broker that keeps the order of each key. */
  ghost predicate OrderlyMove(w: World, m: Move) {
    match m
    case ClaimRows(p) => w.pollers == map[] || p in w.pollers
    case Publish(p, landed, ok) => CanPublish(w, p, landed, ok) ==> KeyOrderKept(w, w.pollers[p].rows, landed)
    case _ => true
  }

  ghost predicate Orderly(w: World, moves: seq<Move>) {
    moves != [] ==>
      Orderly(w, moves[..|moves| - 1]) && OrderlyMove(After(w, moves[..|moves| - 1]), moves[|moves| - 1])
  }

  // ---- order in the log ----

  /** The row is among the first n records. */
  ghost predicate Before(w: World, n: nat, id: nat) {
    exists j :: 0 <= j < n && j < |w.log| && w.log[j].row == id
  }

  /** q is an earlier event of r's stream. */
  ghost predicate Earlier(m: Mail, q: Ref, r: Ref) {
    q in m.rowOf && r in m.rowOf && q.seat == r.seat && q.version < r.version
  }

  ghost predicate LogOrdered(w: World) {
    var m := w.db.store.mail;
    forall k, q, r | 0 <= k < |w.log| && Earlier(m, q, r) && w.log[k].row == m.rowOf[r] ::
      Before(w, k, m.rowOf[q])
  }

  ghost predicate BatchesOrdered(w: World) {
    var m := w.db.store.mail;
    forall p, q, r | Earlier(m, q, r) && LockedBy(w, p, m.rowOf[r]) ::
      LockedBy(w, p, m.rowOf[q]) || InLog(w, m.rowOf[q])
  }

  ghost predicate OrderOk(w: World) { LogOrdered(w) && BatchesOrdered(w) }

  lemma BeforeStays(w: World, w': World, n: nat, id: nat)
    requires Before(w, n, id) && w.log <= w'.log
    ensures Before(w', n, id)
  {
    var j :| 0 <= j < n && j < |w.log| && w.log[j].row == id;
    assert w'.log[j].row == id;
  }

  lemma InLogIsBefore(w: World, n: nat, id: nat)
    requires InLog(w, id) && |w.log| <= n
    ensures Before(w, n, id)
  {
    var k :| 0 <= k < |w.log| && w.log[k].row == id;
    assert 0 <= k < n;
  }

  /** Rows that existed tell of the events they told of before, and of their elders. */
  ghost predicate OldRowsTellOld(m: Mail, m': Mail) {
    forall q, r | Earlier(m', q, r) && m'.rowOf[r] in m.outbox ::
      Earlier(m, q, r) && m'.rowOf[r] == m.rowOf[r] && m'.rowOf[q] == m.rowOf[q]
  }

  lemma OldRowsStayOld(c: State, a: Action)
    requires Reachable(c)
    ensures OldRowsTellOld(c.store.mail, Step(c, a).store.mail)
  {
    StepKeepsMail(c, a);
    StepIsReachable(c, a);
    var m, m' := c.store.mail, Step(c, a).store.mail;
    forall q, r | Earlier(m', q, r) && m'.rowOf[r] in m.outbox
      ensures Earlier(m, q, r) && m'.rowOf[r] == m.rowOf[r] && m'.rowOf[q] == m.rowOf[q]
    {
      OlderEventIsOld(c, Step(c, a), q, r);
    }
  }

  /** New events have new rows, which neither the log nor a batch can hold yet. */
  lemma DatabaseKeepsOrder(w: World, a: Action)
    requires WorldOk(w) && OrderOk(w)
    ensures OrderOk(Apply(w, Database(a)))
  {
    OldRowsStayOld(w.db, a);
    GrowthKeepsLogOrder(w, Apply(w, Database(a)));
    GrowthKeepsBatchOrder(w, Apply(w, Database(a)));
  }

  lemma GrowthKeepsLogOrder(w: World, w': World)
    requires LogOk(w) && LogOrdered(w) && w'.log == w.log
    requires OldRowsTellOld(w.db.store.mail, w'.db.store.mail)
    ensures LogOrdered(w')
  {
    var m, m' := w.db.store.mail, w'.db.store.mail;
    forall k, q, r | 0 <= k < |w'.log| && Earlier(m', q, r) && w'.log[k].row == m'.rowOf[r]
      ensures Before(w', k, m'.rowOf[q])
    {
      assert w.log[k].row in Rows(w);
      BeforeStays(w, w', k, m.rowOf[q]);
    }
  }

  lemma GrowthKeepsBatchOrder(w: World, w': World)
    requires BatchesOk(w) && BatchesOrdered(w) && w'.log == w.log && w'.pollers == w.pollers
    requires OldRowsTellOld(w.db.store.mail, w'.db.store.mail)
    ensures BatchesOrdered(w')
  {
    var m, m' := w.db.store.mail, w'.db.store.mail;
    forall p, q, r | Earlier(m', q, r) && LockedBy(w', p, m'.rowOf[r])
      ensures LockedBy(w', p, m'.rowOf[q]) || InLog(w', m'.rowOf[q])
    {
      assert BatchOk(w, w.pollers[p]);
      assert Earlier(m, q, r) && LockedBy(w, p, m.rowOf[r]);
      if InLog(w, m.rowOf[q]) { InLogStays(w, w', m.rowOf[q]); }
    }
  }

  lemma OlderEventIsOld(c: State, c': State, q: Ref, r: Ref)
    requires Reachable(c) && Reachable(c') && MailKept(c, c') && Earlier(c'.store.mail, q, r)
    requires c'.store.mail.rowOf[r] in c.store.mail.outbox
    ensures Earlier(c.store.mail, q, r)
  {
    ReachableMail(c);
    ReachableMail(c');
    assert r in c.store.mail.rowOf && ValidRef(c.store.streams, r);
    assert ValidRef(c'.store.streams, q);
    assert ValidRef(c.store.streams, q);
  }

  /** A claim takes the lowest unpublished ids, so an older event it leaves out is already
      published. */
  lemma ClaimKeepsOrder(w: World, p: nat)
    requires WorldOk(w) && OrderOk(w) && w.pollers == map[]
    ensures OrderOk(Apply(w, ClaimRows(p)))
  {
    var w' := Apply(w, ClaimRows(p));
    var m := w.db.store.mail;
    assert Claimable(w) == Unpublished(w);
    LowestIsLowest(Claimable(w), BATCH_SIZE);
    forall r, q | Earlier(m, q, r) && m.rowOf[r] in w'.pollers[p].rows
      ensures m.rowOf[q] in w'.pollers[p].rows || InLog(w', m.rowOf[q])
    {
      OlderRowIsLower(w.db, q, r);
      if m.rowOf[q] !in w'.pollers[p].rows {
        assert m.rowOf[q] !in Unpublished(w);
        InLogStays(w, w', m.rowOf[q]);
      }
    }
    forall k, id | Before(w, k, id) ensures Before(w', k, id) { BeforeStays(w, w', k, id); }
  }

  lemma OlderRowIsLower(c: State, q: Ref, r: Ref)
    requires Reachable(c) && Earlier(c.store.mail, q, r)
    ensures var m := c.store.mail;
      && m.rowOf[q] < m.rowOf[r] && m.rowOf[q] in m.outbox && m.rowOf[r] in m.outbox
      && m.outbox[m.rowOf[q]].key == m.outbox[m.rowOf[r]].key == q.seat
  {
    ReachableMail(c);
    assert RowOk(c.store.streams, c.store.mail, q) && RowOk(c.store.streams, c.store.mail, r);
  }

  lemma PublishKeepsOrder(w: World, p: nat, landed: seq<nat>, ok: bool)
    requires WorldOk(w) && OrderOk(w) && CanPublish(w, p, landed, ok)
    requires KeyOrderKept(w, w.pollers[p].rows, landed)
    ensures OrderOk(DoPublish(w, p, landed, ok))
  {
    var w' := DoPublish(w, p, landed, ok);
    var m := w.db.store.mail;
    forall k, q, r | 0 <= k < |w'.log| && Earlier(m, q, r) && w'.log[k].row == m.rowOf[r]
      ensures Before(w', k, m.rowOf[q])
    {
      if k < |w.log| {
        assert w.log[k].row == m.rowOf[r];
        BeforeStays(w, w', k, m.rowOf[q]);
      } else {
        LandsInOrder(w, p, landed, ok, k - |w.log|, q, r);
      }
    }
    forall x, q, r | Earlier(m, q, r) && LockedBy(w', x, m.rowOf[r])
      ensures LockedBy(w', x, m.rowOf[q]) || InLog(w', m.rowOf[q])
    {
      assert LockedBy(w, x, m.rowOf[r]);
      if InLog(w, m.rowOf[q]) { InLogStays(w, w', m.rowOf[q]); }
    }
  }

  lemma LandsInOrder(w: World, p: nat, landed: seq<nat>, ok: bool, i: nat, q: Ref, r: Ref)
    requires WorldOk(w) && OrderOk(w) && CanPublish(w, p, landed, ok) && i < |landed|
    requires KeyOrderKept(w, w.pollers[p].rows, landed)
    requires Earlier(w.db.store.mail, q, r) && landed[i] == w.db.store.mail.rowOf[r]
    ensures Before(DoPublish(w, p, landed, ok), |w.log| + i, w.db.store.mail.rowOf[q])
  {
    var w', m := DoPublish(w, p, landed, ok), w.db.store.mail;
    OlderRowIsLower(w.db, q, r);
    assert LockedBy(w, p, m.rowOf[r]);
    if InLog(w, m.rowOf[q]) {
      InLogIsBefore(w, |w.log| + i, m.rowOf[q]);
      BeforeStays(w, w', |w.log| + i, m.rowOf[q]);
    } else {
      assert LockedBy(w, p, m.rowOf[q]);
      assert m.rowOf[q] in landed[..i];
      LandedIsBefore(w, p, landed, ok, i, m.rowOf[q]);
    }
  }

  lemma LandedIsBefore(w: World, p: nat, landed: seq<nat>, ok: bool, i: nat, id: nat)
    requires CanPublish(w, p, landed, ok) && i <= |landed| && id in landed[..i]
    ensures Before(DoPublish(w, p, landed, ok), |w.log| + i, id)
  {
    var j :| 0 <= j < i && landed[j] == id;
    assert DoPublish(w, p, landed, ok).log[|w.log| + j].row == id;
  }

  /** Moves that leave log and database alone, and open no batch. */
  lemma SettlingKeepsOrder(w: World, w': World)
    requires OrderOk(w) && w'.db == w.db && w'.log == w.log
    requires forall p | p in w'.pollers :: p in w.pollers && w'.pollers[p].rows == w.pollers[p].rows
    ensures OrderOk(w')
  {
    var m := w.db.store.mail;
    forall k, id | Before(w, k, id) ensures Before(w', k, id) { BeforeStays(w, w', k, id); }
    forall p, q, r | Earlier(m, q, r) && LockedBy(w', p, m.rowOf[r])
      ensures LockedBy(w', p, m.rowOf[q]) || InLog(w', m.rowOf[q])
    {
      assert LockedBy(w, p, m.rowOf[r]);
      if InLog(w, m.rowOf[q]) { InLogStays(w, w', m.rowOf[q]); }
    }
  }

  lemma MoveKeepsOrder(w: World, m: Move)
    requires WorldOk(w) && OrderOk(w) && OrderlyMove(w, m)
    ensures OrderOk(Apply(w, m))
  {
    match m
    case Database(a) => DatabaseKeepsOrder(w, a);
    case ClaimRows(p) => if p !in w.pollers { ClaimKeepsOrder(w, p); }
    case Publish(p, landed, ok) => if CanPublish(w, p, landed, ok) { PublishKeepsOrder(w, p, landed, ok); }
    case MarkRows(p) => SettlingKeepsOrder(w, Apply(w, m));
    case Rollback(p) => SettlingKeepsOrder(w, Apply(w, m));
    case PruneRows(cutoff) => SettlingKeepsOrder(w, Apply(w, m));
  }

  lemma {:induction false} OrderlyRunsKeepOrder(w: World, moves: seq<Move>)
    requires WorldOk(w) && OrderOk(w) && Orderly(w, moves)
    ensures WorldOk(After(w, moves)) && OrderOk(After(w, moves))
  {
    if moves != [] {
      OrderlyRunsKeepOrder(w, moves[..|moves| - 1]);
      MoveKeepsOrder(After(w, moves[..|moves| - 1]), moves[|moves| - 1]);
      MoveKeepsWorld(After(w, moves[..|moves| - 1]), moves[|moves| - 1]);
    }
  }

  // ---- what a reader of the log sees ----

  ghost predicate IsEventOf(m: Mail, seat: string, row: nat) {
    exists r :: r in m.rowOf && r.seat == seat && m.rowOf[r] == row
  }

  /** The record's message id occurred before. */
  ghost predicate Repeated(w: World, k: nat)
    requires k < |w.log|
  {
    exists j :: 0 <= j < k && w.log[j].message.envelope.id == w.log[k].message.envelope.id
  }

  /** The event messages of a seat among the first n records, first occurrences by id only. */
  ghost function Told(w: World, seat: string, n: nat): seq<Message>
    requires n <= |w.log|
  {
    if n == 0 then []
    else
      Told(w, seat, n - 1) +
      if IsEventOf(w.db.store.mail, seat, w.log[n - 1].row) && !Repeated(w, n - 1)
      then [w.log[n - 1].message.body] else []
  }

  /** Message ids tell rows apart, so a repeated id is a repeated row. */
  lemma RepeatedIsBefore(w: World, k: nat)
    requires WorldOk(w) && k < |w.log|
    ensures Repeated(w, k) <==> Before(w, k, w.log[k].row)
  {
    ReachableMail(w.db);
    if Repeated(w, k) {
      var j :| 0 <= j < k && w.log[j].message.envelope.id == w.log[k].message.envelope.id;
      assert w.log[j].row == w.log[k].row;
    }
    if Before(w, k, w.log[k].row) {
      var j :| 0 <= j < k && j < |w.log| && w.log[j].row == w.log[k].row;
      assert w.log[j].message == w.log[k].message;
    }
  }

  lemma BeforeGrows(w: World, n: nat, id: nat)
    requires 0 < n <= |w.log|
    ensures Before(w, n, id) <==> Before(w, n - 1, id) || w.log[n - 1].row == id
  {
    if Before(w, n, id) {
      var j :| 0 <= j < n && j < |w.log| && w.log[j].row == id;
      assert j == n - 1 || 0 <= j < n - 1;
    }
  }

  /** After n records a reader has been told a beginning of the stream, and exactly the
      events it has been told are among those records. */
  ghost predicate ToldAPrefix(w: World, seat: string, n: nat)
    requires n <= |w.log|
  {
    var told, streams, m := Told(w, seat, n), w.db.store.streams, w.db.store.mail;
    && |told| <= Length(streams, seat) && told == Bodies(StreamOf(streams, seat))[..|told|]
    && (forall r | r in m.rowOf && r.seat == seat :: r.version <= |told| <==> Before(w, n, m.rowOf[r]))
  }

  /** In the log, a repeated id is a repeated row. */
  ghost predicate RepeatsAreRows(w: World) {
    forall k: nat | k < |w.log| :: Repeated(w, k) <==> Before(w, k, w.log[k].row)
  }

  lemma LogTellsAPrefix(w: World, seat: string, n: nat)
    requires WorldOk(w) && LogOrdered(w) && n <= |w.log|
    ensures ToldAPrefix(w, seat, n)
  {
    ReachableMail(w.db);
    forall k: nat | k < |w.log| ensures Repeated(w, k) <==> Before(w, k, w.log[k].row) { RepeatedIsBefore(w, k); }
    RecordsTellAPrefix(w, seat, n);
  }

  lemma {:induction false} RecordsTellAPrefix(w: World, seat: string, n: nat)
    requires LogOk(w) && LogOrdered(w) && RowsOk(w.db.store.streams, w.db.store.mail) && RepeatsAreRows(w)
    requires n <= |w.log|
    ensures ToldAPrefix(w, seat, n)
  {
    if n == 0 {
      NothingToldYet(w, seat);
    } else {
      RecordsTellAPrefix(w, seat, n - 1);
      RecordTold(w, seat, n);
    }
  }

  lemma NothingToldYet(w: World, seat: string)
    requires RowsOk(w.db.store.streams, w.db.store.mail)
    ensures ToldAPrefix(w, seat, 0)
  {
    forall r | r in w.db.store.mail.rowOf ensures r.version >= 1 { assert ValidRef(w.db.store.streams, r); }
  }

  /** One more record keeps what was told a beginning of the stream. */
  lemma RecordTold(w: World, seat: string, n: nat)
    requires LogOk(w) && LogOrdered(w) && 0 < n <= |w.log| && ToldAPrefix(w, seat, n - 1)
    requires RowsOk(w.db.store.streams, w.db.store.mail)
    requires Repeated(w, n - 1) <==> Before(w, n - 1, w.log[n - 1].row)
    ensures ToldAPrefix(w, seat, n)
  {
    forall id ensures Before(w, n, id) <==> Before(w, n - 1, id) || w.log[n - 1].row == id {
      BeforeGrows(w, n, id);
    }
    if IsEventOf(w.db.store.mail, seat, w.log[n - 1].row) {
      NextRecordTold(w, seat, n);
    } else {
      assert Told(w, seat, n) == Told(w, seat, n - 1) + [];
    }
  }

  lemma RowNamesOneEvent(streams: Streams, m: Mail, r: Ref, u: Ref)
    requires RowsOk(streams, m) && r in m.rowOf && u in m.rowOf && r.seat == u.seat && m.rowOf[r] == m.rowOf[u]
    ensures r == u
  {
    assert r.version != u.version ==> Earlier(m, u, r) || Earlier(m, r, u);
  }

  lemma NextRecordTold(w: World, seat: string, n: nat)
    requires LogOk(w) && LogOrdered(w) && 0 < n <= |w.log|
    requires RowsOk(w.db.store.streams, w.db.store.mail)
    requires ToldAPrefix(w, seat, n - 1) && IsEventOf(w.db.store.mail, seat, w.log[n - 1].row)
    requires Repeated(w, n - 1) <==> Before(w, n - 1, w.log[n - 1].row)
    requires forall id :: Before(w, n, id) <==> Before(w, n - 1, id) || w.log[n - 1].row == id
    ensures ToldAPrefix(w, seat, n)
  {
    var m := w.db.store.mail;
    var r :| r in m.rowOf && r.seat == seat && m.rowOf[r] == w.log[n - 1].row;
    if Repeated(w, n - 1) {
      assert Told(w, seat, n) == Told(w, seat, n - 1);
    } else {
      NewEventIsNext(w, seat, n, r);
      assert RowOk(w.db.store.streams, m, r);
      OneMoreTold(w, seat, n, r);
      OneMoreSeen(w, seat, n, r);
    }
  }

  lemma OneMoreSeen(w: World, seat: string, n: nat, r: Ref)
    requires RowsOk(w.db.store.streams, w.db.store.mail) && 0 < n <= |w.log|
    requires r in w.db.store.mail.rowOf && r.seat == seat && w.db.store.mail.rowOf[r] == w.log[n - 1].row
    requires forall u | u in w.db.store.mail.rowOf && u.seat == seat ::
      u.version <= r.version - 1 <==> Before(w, n - 1, w.db.store.mail.rowOf[u])
    requires forall id :: Before(w, n, id) <==> Before(w, n - 1, id) || w.log[n - 1].row == id
    ensures forall u | u in w.db.store.mail.rowOf && u.seat == seat ::
      u.version <= r.version <==> Before(w, n, w.db.store.mail.rowOf[u])
  {
    var m := w.db.store.mail;
    forall u | u in m.rowOf && u.seat == seat && m.rowOf[u] == m.rowOf[r] ensures u == r {
      RowNamesOneEvent(w.db.store.streams, m, r, u);
    }
  }

  lemma OneMoreTold(w: World, seat: string, n: nat, r: Ref)
    requires LogOk(w) && 0 < n <= |w.log| && ToldAPrefix(w, seat, n - 1) && !Repeated(w, n - 1)
    requires r in w.db.store.mail.rowOf && r.seat == seat && w.db.store.mail.rowOf[r] == w.log[n - 1].row
    requires RowOk(w.db.store.streams, w.db.store.mail, r) && r.version == |Told(w, seat, n - 1)| + 1
    ensures var told := Told(w, seat, n);
      && |told| == r.version && |told| <= Length(w.db.store.streams, seat)
      && told == Bodies(StreamOf(w.db.store.streams, seat))[..|told|]
  {
    var told, stream := Told(w, seat, n - 1), Bodies(StreamOf(w.db.store.streams, seat));
    assert w.log[n - 1].message == Rows(w)[w.log[n - 1].row];
    assert stream[..|told| + 1] == stream[..|told|] + [stream[|told|]];
  }

  lemma NewEventIsNext(w: World, seat: string, n: nat, r: Ref)
    requires LogOrdered(w) && 0 < n <= |w.log| && RowsOk(w.db.store.streams, w.db.store.mail)
    requires ToldAPrefix(w, seat, n - 1)
    requires r in w.db.store.mail.rowOf && r.seat == seat && w.db.store.mail.rowOf[r] == w.log[n - 1].row
    requires !Before(w, n - 1, w.log[n - 1].row)
    ensures r.version == |Told(w, seat, n - 1)| + 1
  {
    var m, q := w.db.store.mail, Ref(seat, r.version - 1);
    assert ValidRef(w.db.store.streams, r);
    if r.version > 1 {
      assert ValidRef(w.db.store.streams, q) && Earlier(m, q, r);
      assert Before(w, n - 1, m.rowOf[q]);
    }
  }

  /** In every run with one poller at a time and a broker that keeps each key's order, the
      event messages of a seat in the log, keeping first occurrences by id, are a beginning
      of that seat's stream, although ids commit out of order across seats, drains fail
      half way and batches are published again. */
  lemma PublishedOrderRefinesTheStream(now: Instant, moves: seq<Move>, seat: string)
    requires Orderly(Start(now), moves)
    ensures var w := After(Start(now), moves);
      Told(w, seat, |w.log|) <= Bodies(StreamOf(w.db.store.streams, seat))
  {
    StartOk(now);
    OrderlyRunsKeepOrder(Start(now), moves);
    var w := After(Start(now), moves);
    LogTellsAPrefix(w, seat, |w.log|);
  }
}
