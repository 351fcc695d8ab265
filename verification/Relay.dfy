/** The outbox pollers beside the database: rows are claimed by flag, published to the log,
    and marked, in a transaction that may fail at any point. Any number of pollers run. */
module Relay {
  import opened Base
  import opened EventStore
  import opened Engine
  import opened Invariants
  import opened Runs
  import CommitStep

  /** How many rows one claim takes. */
  const BATCH_SIZE := 100

  /** A message in the broker's log; row is history, the outbox row it was published from. */
  datatype LogRecord = LogRecord(row: nat, message: OutRow)

  /** A poller's open transaction: when it began, the rows it locked, and whether they are
      all published. */
  datatype Batch = Batch(began: Instant, rows: seq<nat>, sent: bool)

  datatype World = World(
    db: State,
    log: seq<LogRecord>,
    published: map<nat, Instant>,   // published_at of the rows that have one, pruned ones included
    pruned: set<nat>,               // rows deleted from the table
    pollers: map<nat, Batch>)

  datatype Move =
    | Database(action: Action)
    | ClaimRows(poller: nat)
    | Publish(poller: nat, landed: seq<nat>, ok: bool)
    | MarkRows(poller: nat)
    | Rollback(poller: nat)
    | PruneRows(cutoff: Instant)

  function Start(now: Instant): World { World(Init(now), [], map[], {}, map[]) }

  /** The rows ever committed. */
  function Rows(w: World): map<nat, OutRow> { w.db.store.mail.outbox }

  predicate LockedBy(w: World, p: nat, id: nat) { p in w.pollers && id in w.pollers[p].rows }

  /** Committed, still in the table, and not marked published. */
  function Unpublished(w: World): set<nat> {
    set id | id in Rows(w) && id !in w.pruned && id !in w.published
  }

  /** What a claim can see: unpublished rows that no open transaction has locked. */
  function Claimable(w: World): set<nat> {
    set id | id in Unpublished(w) && !(exists p | p in w.pollers :: LockedBy(w, p, id))
  }

  /** The n smallest ids, in order. */
  function Lowest(ids: set<nat>, n: nat): seq<nat>
    decreases |ids|
  {
    if n == 0 || |ids| == 0 then []
    else
      var least := Least(ids);
      [least] + Lowest(ids - {least}, n - 1)
  }

  lemma {:induction false} LowestIsLowest(ids: set<nat>, n: nat)
    ensures var s := Lowest(ids, n);
      && |s| == (if |ids| <= n then |ids| else n)
      && (forall id | id in s :: id in ids)
      && (forall i, j | 0 <= i < j < |s| :: s[i] < s[j])
      && (forall id, k | id in ids && id !in s && k in s :: k < id)
      && (|ids| <= n ==> forall id | id in ids :: id in s)
    decreases |ids|
  {
    if n > 0 && |ids| > 0 {
      var least := Least(ids);
      var others, rest := ids - {least}, Lowest(ids - {least}, n - 1);
      LowestIsLowest(others, n - 1);
      assert |others| == |ids| - 1;
      LeastFirst(ids, least, rest);
    }
  }

  /** Putting the least id in front of some of the others keeps it all in order. */
  lemma LeastFirst(ids: set<nat>, least: nat, rest: seq<nat>)
    requires least in ids && forall id | id in ids && id != least :: least < id
    requires forall id | id in rest :: id in ids && id != least
    requires forall i, j | 0 <= i < j < |rest| :: rest[i] < rest[j]
    requires forall id, k | id in ids && id != least && id !in rest && k in rest :: k < id
    ensures var s := [least] + rest;
      && (forall id :: id in s <==> id == least || id in rest)
      && (forall i, j | 0 <= i < j < |s| :: s[i] < s[j])
      && (forall id, k | id in ids && id !in s && k in s :: k < id)
  {
    var s := [least] + rest;
    assert forall id :: id in s <==> id == least || id in rest;
    forall i, j | 0 <= i < j < |s| ensures s[i] < s[j] {
      assert s[j] == rest[j - 1];
      assert s[j] in rest;
    }
  }

  function Records(w: World, rows: seq<nat>): (r: seq<LogRecord>)
    requires forall id | id in rows :: id in Rows(w)
    ensures |r| == |rows| && forall i | 0 <= i < |r| :: r[i] == LogRecord(rows[i], Rows(w)[rows[i]])
  {
    seq(|rows|, i requires 0 <= i < |rows| => LogRecord(rows[i], Rows(w)[rows[i]]))
  }

  predicate CanPublish(w: World, p: nat, landed: seq<nat>, ok: bool) {
    && p in w.pollers && !w.pollers[p].sent
    && (forall id | id in landed :: id in w.pollers[p].rows && id in Rows(w))
    && (ok ==> forall id | id in w.pollers[p].rows :: id in landed)
  }

  /** A successful publish put every claimed row in the log; a failed one may have put any
      part of the batch there, and its transaction rolls back. */
  function DoPublish(w: World, p: nat, landed: seq<nat>, ok: bool): World
    requires CanPublish(w, p, landed, ok)
  {
    w.(log := w.log + Records(w, landed),
       pollers := if ok then w.pollers[p := w.pollers[p].(sent := true)] else w.pollers - {p})
  }

  /** The published_at a batch writes: the instant its transaction began. */
  function Stamps(b: Batch): map<nat, Instant> {
    map id | id in b.rows :: b.began
  }

  /** A claim locks the oldest rows it can see. */
  function TakeBatch(w: World, p: nat): World {
    w.(pollers := w.pollers[p := Batch(w.db.now, Lowest(Claimable(w), BATCH_SIZE), false)])
  }

  function MarkBatch(w: World, p: nat): World
    requires p in w.pollers
  {
    w.(published := w.published + Stamps(w.pollers[p]), pollers := w.pollers - {p})
  }

  function DropBatch(w: World, p: nat): World { w.(pollers := w.pollers - {p}) }

  function Apply(w: World, m: Move): World {
    match m
    case Database(a) => w.(db := Step(w.db, a))
    case ClaimRows(p) => if p in w.pollers then w else TakeBatch(w, p)
    case Publish(p, landed, ok) => if CanPublish(w, p, landed, ok) then DoPublish(w, p, landed, ok) else w
    case MarkRows(p) => if p in w.pollers && w.pollers[p].sent then MarkBatch(w, p) else w
    case Rollback(p) => DropBatch(w, p)
    case PruneRows(cutoff) =>
      w.(pruned := w.pruned + set id | id in w.published && w.published[id] < cutoff)
  }

  function After(w: World, moves: seq<Move>): World {
    if moves == [] then w else Apply(After(w, moves[..|moves| - 1]), moves[|moves| - 1])
  }

  // ---- the database keeps its outbox ----

  /** Committed outbox rows and event links are there to stay. */
  ghost predicate MailKept(a: State, b: State) {
    && (forall id | id in a.store.mail.outbox ::
          id in b.store.mail.outbox && b.store.mail.outbox[id] == a.store.mail.outbox[id])
    && (forall r | r in a.store.mail.rowOf ::
          r in b.store.mail.rowOf && b.store.mail.rowOf[r] == a.store.mail.rowOf[r])
    && (forall r | r in b.store.mail.rowOf && r !in a.store.mail.rowOf ::
          b.store.mail.rowOf[r] !in a.store.mail.outbox)
  }

  lemma CommitKeepsMail(c: State, x: nat)
    requires Reachable(c) && x in c.txs && c.txs[x].phase.Ready?
    ensures |c.txs[x].ids| == |c.txs[x].outcome.Messages()|
    ensures MailKept(c, DoFinish(c, x))
  {
    ReachableTx(c, x);
    ReachableStreams(c);
    CommitStep.ReadyIsCommitting(c, c.txs[x]);
    var m, m', tx := c.store.mail, NewMail(c.store.mail, c.txs[x]), c.txs[x];
    CommitStep.CommitGrowsMail(m, tx);
    assert tx.outcome.events != [] ==> FirstEvent(tx) !in m.rowOf by {
      ReachableMail(c);
      CommitStep.FirstEventIsNew(c.store.streams, tx);
    }
    KeptByGrowth(m, m', tx);
  }

  lemma KeptByGrowth(m: Mail, m': Mail, tx: Tx)
    requires CommitStep.MailGrows(m, m', tx) && UnusedIds(m.outbox, tx)
    requires tx.outcome.events != [] ==> FirstEvent(tx) !in m.rowOf && tx.ids != []
    ensures forall id | id in m.outbox :: id in m'.outbox && m'.outbox[id] == m.outbox[id]
    ensures forall r | r in m.rowOf :: r in m'.rowOf && m'.rowOf[r] == m.rowOf[r]
    ensures forall r | r in m'.rowOf && r !in m.rowOf :: m'.rowOf[r] !in m.outbox
  {
  }

  lemma StepKeepsMail(c: State, a: Action)
    requires Reachable(c)
    ensures MailKept(c, Step(c, a))
  {
    if a.Finish? {
      if a.tx in c.txs && c.txs[a.tx].phase.Ready? { CommitKeepsMail(c, a.tx); }
    } else {
      OnlyCommitsWrite(c, a);
    }
  }

  // ---- what every reachable world keeps ----

  ghost predicate InLog(w: World, id: nat) { exists k :: 0 <= k < |w.log| && w.log[k].row == id }

  /** The log holds only committed rows, as they were committed. */
  ghost predicate LogOk(w: World) {
    forall k | 0 <= k < |w.log| :: w.log[k].row in Rows(w) && w.log[k].message == Rows(w)[w.log[k].row]
  }

  /** A row is marked published only once it is in the log, and pruned only once marked. */
  ghost predicate FlagsOk(w: World) {
    && (forall id | id in w.published :: id in Rows(w) && InLog(w, id))
    && (forall id | id in w.pruned :: id in w.published)
  }

  ghost predicate BatchOk(w: World, b: Batch) {
    && (forall i, j | 0 <= i < j < |b.rows| :: b.rows[i] < b.rows[j])
    && (forall id | id in b.rows :: id in Rows(w) && id !in w.published)
    && (b.sent ==> forall id | id in b.rows :: InLog(w, id))
  }

  ghost predicate BatchesOk(w: World) {
    && (forall p | p in w.pollers :: BatchOk(w, w.pollers[p]))
    && (forall p, q, id | LockedBy(w, p, id) && LockedBy(w, q, id) :: p == q)
  }

  ghost predicate WorldOk(w: World) {
    Reachable(w.db) && LogOk(w) && FlagsOk(w) && BatchesOk(w)
  }

  lemma StartOk(now: Instant)
    ensures WorldOk(Start(now))
  {
    assert Run(Init(now), []) == Init(now);
  }

  lemma InLogStays(w: World, w': World, id: nat)
    requires InLog(w, id) && w.log <= w'.log
    ensures InLog(w', id)
  {
    var k :| 0 <= k < |w.log| && w.log[k].row == id;
    assert w'.log[k].row == id;
  }

  /** Growing the log and the outbox disturbs neither flags nor open batches. */
  lemma GrowthKeepsWorld(w: World, w': World)
    requires LogOk(w') && FlagsOk(w) && BatchesOk(w) && w.log <= w'.log
    requires forall id | id in Rows(w) :: id in Rows(w')
    requires w'.published == w.published && w'.pruned == w.pruned
    requires forall p | p in w'.pollers :: p in w.pollers && w'.pollers[p].rows == w.pollers[p].rows
    requires forall p | p in w'.pollers && w'.pollers[p].sent && !w.pollers[p].sent ::
      forall id | id in w.pollers[p].rows :: InLog(w', id)
    ensures FlagsOk(w') && BatchesOk(w')
  {
    forall id | InLog(w, id) ensures InLog(w', id) { InLogStays(w, w', id); }
    forall p | p in w'.pollers ensures BatchOk(w', w'.pollers[p]) { assert BatchOk(w, w.pollers[p]); }
    forall p, q, id | LockedBy(w', p, id) && LockedBy(w', q, id) ensures p == q {
      assert LockedBy(w, p, id) && LockedBy(w, q, id);
    }
  }

  lemma DatabaseKeepsWorld(w: World, a: Action)
    requires WorldOk(w)
    ensures WorldOk(Apply(w, Database(a)))
  {
    StepIsReachable(w.db, a);
    StepKeepsMail(w.db, a);
    GrowthKeepsWorld(w, Apply(w, Database(a)));
  }

  lemma ClaimedRowsAreFree(w: World, rows: seq<nat>)
    requires rows == Lowest(Claimable(w), BATCH_SIZE)
    ensures forall id | id in rows :: id in Unpublished(w) && forall q :: !LockedBy(w, q, id)
    ensures forall i, j | 0 <= i < j < |rows| :: rows[i] < rows[j]
  {
    LowestIsLowest(Claimable(w), BATCH_SIZE);
    forall id | id in rows ensures id in Unpublished(w) && forall q :: !LockedBy(w, q, id) {
      assert id in Claimable(w);
    }
  }

  lemma ClaimKeepsWorld(w: World, p: nat)
    requires WorldOk(w) && p !in w.pollers
    ensures WorldOk(Apply(w, ClaimRows(p)))
  {
    var rows := Lowest(Claimable(w), BATCH_SIZE);
    ClaimedRowsAreFree(w, rows);
    NewBatchOk(w, p, rows);
  }

  lemma NewBatchOk(w: World, p: nat, rows: seq<nat>)
    requires WorldOk(w) && p !in w.pollers
    requires forall id | id in rows :: id in Unpublished(w) && forall q :: !LockedBy(w, q, id)
    requires forall i, j | 0 <= i < j < |rows| :: rows[i] < rows[j]
    ensures WorldOk(w.(pollers := w.pollers[p := Batch(w.db.now, rows, false)]))
  {
    var w' := w.(pollers := w.pollers[p := Batch(w.db.now, rows, false)]);
    assert forall id :: InLog(w', id) <==> InLog(w, id);
    forall q | q in w'.pollers ensures BatchOk(w', w'.pollers[q]) {
      if q != p { assert BatchOk(w, w.pollers[q]); }
    }
    forall q, r, id | LockedBy(w', q, id) && LockedBy(w', r, id) ensures q == r {
      assert q != p ==> LockedBy(w, q, id);
      assert r != p ==> LockedBy(w, r, id);
    }
  }

  lemma PublishKeepsWorld(w: World, p: nat, landed: seq<nat>, ok: bool)
    requires WorldOk(w) && CanPublish(w, p, landed, ok)
    ensures WorldOk(DoPublish(w, p, landed, ok))
  {
    var w' := DoPublish(w, p, landed, ok);
    forall id | id in landed ensures InLog(w', id) {
      var i :| 0 <= i < |landed| && landed[i] == id;
      assert w'.log[|w.log| + i].row == id;
    }
    GrowthKeepsWorld(w, w');
  }

  lemma MarkKeepsWorld(w: World, p: nat)
    requires WorldOk(w) && p in w.pollers && w.pollers[p].sent
    ensures WorldOk(Apply(w, MarkRows(p)))
  {
    var w' := Apply(w, MarkRows(p));
    assert BatchOk(w, w.pollers[p]);
    forall id | id in w'.published ensures id in Rows(w') && InLog(w', id) {
      assert InLog(w, id);
      InLogStays(w, w', id);
    }
    forall q | q in w'.pollers ensures BatchOk(w', w'.pollers[q]) {
      assert BatchOk(w, w.pollers[q]);
      forall id | id in w.pollers[q].rows ensures id !in w'.published {
        if id in w.pollers[p].rows { assert LockedBy(w, p, id) && LockedBy(w, q, id); }
      }
      if w.pollers[q].sent {
        forall id | id in w.pollers[q].rows ensures InLog(w', id) { InLogStays(w, w', id); }
      }
    }
    forall q, r, id | LockedBy(w', q, id) && LockedBy(w', r, id) ensures q == r {
      assert LockedBy(w, q, id) && LockedBy(w, r, id);
    }
  }

  lemma PruneKeepsWorld(w: World, cutoff: Instant)
    requires WorldOk(w)
    ensures WorldOk(Apply(w, PruneRows(cutoff)))
  {
    var w' := Apply(w, PruneRows(cutoff));
    forall id | InLog(w, id) ensures InLog(w', id) { InLogStays(w, w', id); }
    forall p | p in w'.pollers ensures BatchOk(w', w'.pollers[p]) { assert BatchOk(w, w.pollers[p]); }
    forall p, q, id | LockedBy(w', p, id) && LockedBy(w', q, id) ensures p == q {
      assert LockedBy(w, p, id) && LockedBy(w, q, id);
    }
  }

  lemma MoveKeepsWorld(w: World, m: Move)
    requires WorldOk(w)
    ensures WorldOk(Apply(w, m))
  {
    match m
    case Database(a) => DatabaseKeepsWorld(w, a);
    case ClaimRows(p) => if p !in w.pollers { ClaimKeepsWorld(w, p); }
    case Publish(p, landed, ok) => if CanPublish(w, p, landed, ok) { PublishKeepsWorld(w, p, landed, ok); }
    case MarkRows(p) => if p in w.pollers && w.pollers[p].sent { MarkKeepsWorld(w, p); }
    case Rollback(p) => GrowthKeepsWorld(w, Apply(w, m));
    case PruneRows(cutoff) => PruneKeepsWorld(w, cutoff);
  }

  /** Some run of the database and its pollers leads here. */
  ghost predicate ReachableWorld(w: World) {
    exists now, moves :: w == After(Start(now), moves)
  }

  lemma {:induction false} AfterKeepsWorld(w: World, moves: seq<Move>)
    requires WorldOk(w)
    ensures WorldOk(After(w, moves))
  {
    if moves != [] {
      AfterKeepsWorld(w, moves[..|moves| - 1]);
      MoveKeepsWorld(After(w, moves[..|moves| - 1]), moves[|moves| - 1]);
    }
  }

  lemma ReachableWorldOk(w: World)
    requires ReachableWorld(w)
    ensures WorldOk(w)
  {
    var now, moves :| w == After(Start(now), moves);
    StartOk(now);
    AfterKeepsWorld(Start(now), moves);
  }

  lemma MoveIsReachable(w: World, m: Move)
    requires ReachableWorld(w)
    ensures ReachableWorld(Apply(w, m))
  {
    var now, moves :| w == After(Start(now), moves);
    assert (moves + [m])[..|moves|] == moves;
    assert Apply(w, m) == After(Start(now), moves + [m]);
  }

  // ---- no message is lost ----

  /** In every reachable world, with any number of pollers and failures at any point, each
      row ever committed is in the log, or it is still unpublished in the table, and then a
      claim sees it unless an open transaction holds it. A marked or pruned row is in the
      log. The id plays no part: a row that commits late under a lower id is as claimable
      as any other. */
  lemma NoRowIsLost(w: World, id: nat)
    requires ReachableWorld(w) && id in Rows(w)
    ensures InLog(w, id) || id in Unpublished(w)
    ensures id in w.published || id in w.pruned ==> InLog(w, id)
    ensures id in Unpublished(w) ==> id in Claimable(w) || exists p :: LockedBy(w, p, id)
  {
    ReachableWorldOk(w);
  }

  lemma ReleasedIsClaimable(w: World, w': World, p: nat, id: nat)
    requires BatchesOk(w) && FlagsOk(w) && LockedBy(w, p, id)
    requires w'.pollers == w.pollers - {p} && w'.db == w.db
    requires w'.published == w.published && w'.pruned == w.pruned
    ensures id in Claimable(w')
  {
    assert BatchOk(w, w.pollers[p]);
    assert forall q :: LockedBy(w', q, id) ==> LockedBy(w, q, id) && q != p;
  }

  /** However a poller's transaction ends without a mark, rolled back, crashed or after a
      publish that failed half way, its rows can be claimed again. */
  lemma FailureReleasesRows(w: World, p: nat, id: nat, landed: seq<nat>)
    requires ReachableWorld(w) && LockedBy(w, p, id)
    ensures id in Claimable(Apply(w, Rollback(p)))
    ensures CanPublish(w, p, landed, false) ==> id in Claimable(Apply(w, Publish(p, landed, false)))
  {
    ReachableWorldOk(w);
    ReleasedIsClaimable(w, Apply(w, Rollback(p)), p, id);
    if CanPublish(w, p, landed, false) {
      ReleasedIsClaimable(w, Apply(w, Publish(p, landed, false)), p, id);
    }
  }

  /** A claimable row is taken by the next claim, unless a hundred rows with lower ids are. */
  lemma ClaimTakesTheOldest(w: World, p: nat, id: nat)
    requires p !in w.pollers && id in Claimable(w)
    ensures var rows := Apply(w, ClaimRows(p)).pollers[p].rows;
      id in rows || (|rows| == 100 && forall k | k in rows :: k < id)
  {
    LowestIsLowest(Claimable(w), BATCH_SIZE);
  }

  /** Pruning deletes exactly the rows published before the cutoff, and nothing else changes;
      whatever it has ever deleted is in the log. */
  lemma PruneDeletesOnlyPublished(w: World, cutoff: Instant, id: nat)
    requires ReachableWorld(w)
    ensures var w' := Apply(w, PruneRows(cutoff));
      && w' == w.(pruned := w'.pruned)
      && (id in w'.pruned <==> id in w.pruned || (id in w.published && w.published[id] < cutoff))
      && (id in w'.pruned ==> InLog(w, id))
  {
    ReachableWorldOk(w);
  }
}
