/** Every move of the group keeps what Group says holds. */
module GroupRuns {
  import opened Base
  import Engine
  import opened Runs
  import opened Records
  import opened Postgres
  import opened Group

  // ---- counting ----

  lemma {:induction false} CountSplits(records: seq<Record>, i: nat, p: Place)
    requires i <= |records|
    ensures Count(records, p) == Count(records[..i], p) + Count(records[i..], p)
    decreases i
  {
    if i == 0 {
      assert records[0..] == records;
    } else {
      CountSplits(records[1..], i - 1, p);
      assert records[1..][..i - 1] == records[..i][1..] && records[1..][i - 1..] == records[i..];
    }
  }

  lemma CountDropsOne(records: seq<Record>, i: nat, p: Place)
    requires i < |records|
    ensures Count(records[i..], p) == Count(records[i + 1..], p) + if records[i].place == p then 1 else 0
  {
    assert records[i..][1..] == records[i + 1..];
  }

  // ---- growth ----

  /** Nothing published, logged or consumed is taken back. */
  ghost predicate Grows(f: Fleet, f': Fleet) {
    && f.db.store.mail.inbox <= f'.db.store.mail.inbox && f.letters <= f'.letters
    && (forall p :: LogOf(f, p) <= LogOf(f', p))
  }

  lemma RecordStaysSettled(f: Fleet, f': Fleet, p: Place, o: nat)
    requires Grows(f, f') && o < |LogOf(f, p)| && Settled(f.db, f.letters, LogOf(f, p)[o])
    ensures o < |LogOf(f', p)| && LogOf(f', p)[o] == LogOf(f, p)[o]
    ensures Settled(f'.db, f'.letters, LogOf(f', p)[o])
  {
    assert LogOf(f, p) <= LogOf(f', p);
    StaysSettled(f.db, f'.db, f.letters, f'.letters, LogOf(f, p)[o]);
  }

  lemma BelowStaysSettled(f: Fleet, f': Fleet, p: Place, n: nat)
    requires Grows(f, f') && SettledBelow(f, p, n)
    ensures SettledBelow(f', p, n)
  {
    assert LogOf(f, p) <= LogOf(f', p);
    forall o | 0 <= o < n ensures Settled(f'.db, f'.letters, LogOf(f', p)[o]) {
      RecordStaysSettled(f, f', p, o);
    }
  }

  lemma SessionStaysOk(f: Fleet, f': Fleet, m: Member, p: Place)
    requires p in m.sessions && SessionOk(f, m, p) && Grows(f, f')
    requires f.failed <= f'.failed && f.overrun <= f'.overrun
    ensures SessionOk(f', m, p)
  {
    var s := m.sessions[p];
    assert LogOf(f, p) <= LogOf(f', p);
    forall o | o in s.done ensures o < |LogOf(f', p)| && Settled(f'.db, f'.letters, LogOf(f', p)[o]) {
      RecordStaysSettled(f, f', p, o);
    }
    if p !in f'.overrun { BelowStaysSettled(f, f', p, s.start); }
  }

  lemma MemberStaysOk(f: Fleet, f': Fleet, m: Member)
    requires MemberOk(f, m) && Grows(f, f') && f.failed <= f'.failed && f.overrun <= f'.overrun
    ensures MemberOk(f', m)
  {
    forall p | p in m.sessions ensures SessionOk(f', m, p) { SessionStaysOk(f, f', m, p); }
    if m.batch.Some? {
      var b := m.batch.value;
      forall i: nat | b.next <= i < |b.records| ensures InPlace(f', m.sessions, b.records, i) {
        assert InPlace(f, m.sessions, b.records, i) && LogOf(f, b.records[i].place) <= LogOf(f', b.records[i].place);
      }
    }
  }

  /** Growth at rest: members, commits and flags as they were. */
  lemma GrowthKeepsFleet(f: Fleet, f': Fleet)
    requires FleetOk(f) && Grows(f, f') && Reachable(f'.db) && LogsOk(f')
    requires f' == f.(db := f'.db, letters := f'.letters, logs := f'.logs)
    ensures FleetOk(f')
  {
    forall x | x in f'.members ensures MemberOk(f', f'.members[x]) { MemberStaysOk(f, f', f.members[x]); }
    forall p ensures CommittedAt(f', p) <= |LogOf(f', p)| {
      assert CommittedAt(f, p) <= |LogOf(f, p)| && LogOf(f, p) <= LogOf(f', p);
    }
    forall p | p !in f'.overrun ensures SettledBelow(f', p, CommittedAt(f', p)) {
      BelowStaysSettled(f, f', p, CommittedAt(f, p));
    }
  }

  lemma ProduceKeepsFleet(f: Fleet, m: Move)
    requires FleetOk(f) && m.Produce?
    ensures FleetOk(Apply(f, m))
  {
    var f' := Apply(f, m);
    forall p ensures LogOf(f, p) <= LogOf(f', p) {
    }
    GrowthKeepsFleet(f, f');
  }

  // ---- one member moves ----

  /** The logs and the commits do not care who holds what. */
  lemma CommittedStaysOk(f: Fleet, f': Fleet)
    requires LogsOk(f) && CommittedOk(f)
    requires f' == f.(members := f'.members, failed := f'.failed) && f.failed <= f'.failed
    ensures LogsOk(f') && CommittedOk(f')
  {
    forall p, o | 0 <= o < |LogOf(f', p)| ensures LogOf(f', p)[o].place == p && LogOf(f', p)[o].offset == o {
      assert LogOf(f', p) == LogOf(f, p);
    }
    forall p ensures CommittedAt(f', p) <= |LogOf(f', p)| {
      assert CommittedAt(f, p) <= |LogOf(f, p)|;
    }
    forall p | p !in f'.overrun ensures SettledBelow(f', p, CommittedAt(f', p)) {
      assert SettledBelow(f, p, CommittedAt(f, p));
    }
  }

  /** A session whose batch and context did not move stays as it is. */
  lemma SameSession(f: Fleet, f': Fleet, m: Member, m': Member, p: Place)
    requires p in m.sessions && p in m'.sessions && m'.sessions[p] == m.sessions[p] && SessionOk(f, m, p)
    requires f' == f.(members := f'.members) && m'.batch == m.batch && (m.cancelled ==> m'.cancelled)
    ensures SessionOk(f', m', p)
  {
    assert Outstanding(m', p) == Outstanding(m, p);
    assert StandsOk(m', p);
  }

  lemma SameBatch(f: Fleet, f': Fleet, m: Member, m': Member)
    requires BatchOk(f, m) && f'.logs == f.logs && m'.batch == m.batch
    requires forall p | p in m'.sessions :: p in m.sessions && m'.sessions[p] == m.sessions[p]
    ensures BatchOk(f', m')
  {
    if m.batch.Some? {
      var b := m.batch.value;
      forall i: nat | b.next <= i < |b.records| ensures InPlace(f', m'.sessions, b.records, i) {
        assert InPlace(f, m.sessions, b.records, i) && LogOf(f', b.records[i].place) == LogOf(f, b.records[i].place);
      }
    }
  }

  /** One member changes, and nothing else that others look at. */
  lemma MemberMoves(f: Fleet, f': Fleet, x: nat)
    requires FleetOk(f) && f' == f.(members := f'.members, failed := f'.failed) && f.failed <= f'.failed
    requires x in f'.members && f'.members == f.members[x := f'.members[x]] && MemberOk(f', f'.members[x])
    ensures FleetOk(f')
  {
    forall y | y in f'.members ensures MemberOk(f', f'.members[y]) {
      if y != x { MemberStaysOk(f, f', f.members[y]); }
    }
    CommittedStaysOk(f, f');
  }

  /** The record at hand of a held partition is the log's, at the front. */
  lemma AtTheFront(f: Fleet, x: nat)
    requires FleetOk(f) && InBatch(f, x) && AtHand(f, x).place in f.members[x].sessions
    ensures var m, r := f.members[x], AtHand(f, x);
      && r.offset == Front(m, r.place) && r.offset < |LogOf(f, r.place)| && LogOf(f, r.place)[r.offset] == r
  {
    var b := f.members[x].batch.value;
    assert MemberOk(f, f.members[x]) && InPlace(f, f.members[x].sessions, b.records, b.next);
  }

  /** When the batch moves on, the front of the partition at hand does too, and no other. */
  lemma FrontsMove(m: Member, m': Member, p: Place)
    requires m.batch.Some? && m.batch.value.next < |m.batch.value.records|
    requires m'.batch.Some? && m'.batch.value.records == m.batch.value.records
    requires m'.batch.value.next == m.batch.value.next + 1
    ensures Outstanding(m, p) ==
      Outstanding(m', p) + if m.batch.value.records[m.batch.value.next].place == p then 1 else 0
  {
    CountDropsOne(m.batch.value.records, m.batch.value.next, p);
  }

  lemma BatchMovesOn(f: Fleet, f': Fleet, m: Member, m': Member)
    requires BatchOk(f, m) && f'.logs == f.logs
    requires m.batch.Some? && m'.batch.Some? && m'.batch.value.records == m.batch.value.records
    requires m.batch.value.next < m'.batch.value.next == m.batch.value.next + 1 <= |m.batch.value.records|
    requires forall p | p in m'.sessions :: p in m.sessions && m'.sessions[p].position == m.sessions[p].position
    ensures BatchOk(f', m')
  {
    var b := m'.batch.value;
    forall i: nat | b.next <= i < |b.records| ensures InPlace(f', m'.sessions, b.records, i) {
      assert InPlace(f, m.sessions, b.records, i) && LogOf(f', b.records[i].place) == LogOf(f, b.records[i].place);
    }
  }

  /** The sessions of other partitions do not notice the batch moving on. */
  lemma OtherSessionsStay(f: Fleet, f': Fleet, m: Member, m': Member, p: Place)
    requires p in m.sessions && p in m'.sessions && m'.sessions[p] == m.sessions[p] && SessionOk(f, m, p)
    requires f' == f.(members := f'.members, failed := f'.failed) && f.failed <= f'.failed
    requires m.batch.Some? && m'.batch.Some? && m'.cancelled == m.cancelled
    requires Outstanding(m', p) == Outstanding(m, p)
    requires p in m.batch.value.stalled <==> p in m'.batch.value.stalled
    ensures SessionOk(f', m', p)
  {
  }

  lemma MarkedStands(m: Member, m': Member, r: Record)
    requires r.place in m.sessions && StandsOk(m, r.place) && r.offset == Front(m, r.place)
    requires m.batch.Some? && r.place !in m.batch.value.stalled && Outstanding(m, r.place) > 0
    requires m'.batch.Some? && m'.batch.value.stalled == m.batch.value.stalled && m'.cancelled == m.cancelled
    requires r.place in m'.sessions && m'.sessions[r.place] == MarkedSession(m.sessions[r.place], r.offset)
    requires Outstanding(m', r.place) + 1 == Outstanding(m, r.place)
    ensures StandsOk(m', r.place)
  {
  }

  lemma LeftStands(m: Member, m': Member, r: Record, failing: bool)
    requires r.place in m.sessions && StandsOk(m, r.place) && r.offset == Front(m, r.place)
    requires m.batch.Some? && r.place !in m.batch.value.stalled && Outstanding(m, r.place) > 0
    requires failing || m.cancelled
    requires m'.batch.Some? && m'.batch.value.stalled == m.batch.value.stalled + {r.place} && m'.cancelled == m.cancelled
    requires r.place in m'.sessions && m'.sessions[r.place] == LeftSession(m.sessions[r.place], r.offset, failing)
    requires Outstanding(m', r.place) + 1 == Outstanding(m, r.place)
    ensures StandsOk(m', r.place)
  {
  }

  /** The session at hand after its record was marked. */
  lemma MarkedIsOk(f: Fleet, f': Fleet, m: Member, m': Member, r: Record)
    requires r.place in m.sessions && SessionOk(f, m, r.place) && f' == f.(members := f'.members)
    requires r.place in m'.sessions && m'.sessions[r.place] == MarkedSession(m.sessions[r.place], r.offset)
    requires StandsOk(m', r.place)
    requires r.offset < |LogOf(f, r.place)| && LogOf(f, r.place)[r.offset] == r && Settled(f.db, f.letters, r)
    ensures SessionOk(f', m', r.place)
  {
    var s := m.sessions[r.place];
    forall o | o in m'.sessions[r.place].done
      ensures o < |LogOf(f', r.place)| && Settled(f'.db, f'.letters, LogOf(f', r.place)[o])
    {
      if o != r.offset { assert o in s.done; }
    }
    if r.place !in f'.overrun { assert SettledBelow(f, r.place, s.start); }
  }

  /** The session at hand after its record was left behind. */
  lemma LeftIsOk(f: Fleet, f': Fleet, m: Member, m': Member, r: Record, failing: bool)
    requires r.place in m.sessions && SessionOk(f, m, r.place)
    requires f' == f.(members := f'.members, failed := if failing then f.failed + {r.place} else f.failed)
    requires r.place in m'.sessions && m'.sessions[r.place] == LeftSession(m.sessions[r.place], r.offset, failing)
    requires StandsOk(m', r.place)
    ensures SessionOk(f', m', r.place)
  {
    var s := m.sessions[r.place];
    forall o | o in m'.sessions[r.place].done
      ensures o < |LogOf(f', r.place)| && Settled(f'.db, f'.letters, LogOf(f', r.place)[o])
    {
      assert o in s.done;
    }
    if r.place !in f'.overrun { assert SettledBelow(f, r.place, s.start); }
  }

  lemma PassedStands(m: Member, m': Member, p: Place)
    requires p in m.sessions && StandsOk(m, p) && m.batch.Some? && p in m.batch.value.stalled
    requires m'.batch.Some? && m'.batch.value.stalled == m.batch.value.stalled && m'.cancelled == m.cancelled
    requires p in m'.sessions && m'.sessions[p] == m.sessions[p] && Outstanding(m', p) + 1 == Outstanding(m, p)
    ensures StandsOk(m', p)
  {
  }

  lemma PassKeepsFleet(f: Fleet, x: nat)
    requires FleetOk(f) && InBatch(f, x) && Stalled(f, x)
    ensures FleetOk(AfterPass(f, x))
  {
    var f', m, r := AfterPass(f, x), f.members[x], AtHand(f, x);
    var m' := f'.members[x];
    assert MemberOk(f, m);
    BatchMovesOn(f, f', m, m');
    forall p | p in m'.sessions ensures SessionOk(f', m', p) {
      FrontsMove(m, m', p);
      if p == r.place {
        PassedStands(m, m', p);
      } else {
        OtherSessionsStay(f, f', m, m', p);
      }
    }
    MemberMoves(f, f', x);
  }

  lemma MarkKeepsFleet(f: Fleet, x: nat)
    requires FleetOk(f) && InBatch(f, x) && !Stalled(f, x) && Settled(f.db, f.letters, AtHand(f, x))
    ensures FleetOk(AfterMark(f, x))
  {
    var f', m, r := AfterMark(f, x), f.members[x], AtHand(f, x);
    var m' := f'.members[x];
    assert MemberOk(f, m);
    BatchMovesOn(f, f', m, m');
    forall p | p in m'.sessions ensures SessionOk(f', m', p) {
      FrontsMove(m, m', p);
      if p == r.place {
        AtTheFront(f, x);
        MarkedStands(m, m', r);
        MarkedIsOk(f, f', m, m', r);
      } else {
        OtherSessionsStay(f, f', m, m', p);
      }
    }
    MemberMoves(f, f', x);
  }

  lemma LeavingKeepsFleet(f: Fleet, x: nat, failing: bool)
    requires FleetOk(f) && InBatch(f, x) && !Stalled(f, x) && (failing || f.members[x].cancelled)
    ensures FleetOk(AfterLeaving(f, x, failing))
  {
    var f', m, r := AfterLeaving(f, x, failing), f.members[x], AtHand(f, x);
    var m' := f'.members[x];
    assert MemberOk(f, m);
    BatchMovesOn(f, f', m, m');
    forall p | p in m'.sessions ensures SessionOk(f', m', p) {
      FrontsMove(m, m', p);
      if p == r.place {
        AtTheFront(f, x);
        LeftStands(m, m', r, failing);
        LeftIsOk(f, f', m, m', r, failing);
      } else {
        OtherSessionsStay(f, f', m, m', p);
      }
    }
    MemberMoves(f, f', x);
  }

  lemma AssignKeepsFleet(f: Fleet, x: nat, p: Place)
    requires FleetOk(f) && CanAssign(f, x, p)
    ensures FleetOk(Apply(f, Assign(x, p)))
  {
    var f', m := Apply(f, Assign(x, p)), f.members[x];
    var m' := f'.members[x];
    assert MemberOk(f, m);
    forall q | q in m'.sessions ensures SessionOk(f', m', q) {
      if q != p { assert SessionOk(f, m, q); }
    }
    MemberMoves(f, f', x);
  }

  lemma LoseKeepsFleet(f: Fleet, x: nat, p: Place)
    requires FleetOk(f) && x in f.members
    ensures FleetOk(Apply(f, Lose(x, p)))
  {
    var f', m := Apply(f, Lose(x, p)), f.members[x];
    var m' := f'.members[x];
    assert MemberOk(f, m);
    SameBatch(f, f', m, m');
    forall q | q in m'.sessions ensures SessionOk(f', m', q) { SameSession(f, f', m, m', q); }
    MemberMoves(f, f', x);
  }

  /** Counting back from the new position finds the record that counting on from the old did. */
  lemma FetchedRecord(f: Fleet, sessions: map<Place, Session>, records: seq<Record>, i: nat)
    requires Fetched(f, sessions, records) && i < |records|
    ensures var p := records[i].place;
      && p in sessions
      && var o := Fetching(sessions, records)[p].position - Count(records[i..], p);
      && 0 <= o < |LogOf(f, p)| && records[i] == LogOf(f, p)[o]
  {
    CountSplits(records, i, records[i].place);
  }

  /** A fetch fills the batch with what lies between the old positions and the new. */
  lemma FetchedBatchOk(f: Fleet, f': Fleet, m: Member, m': Member, records: seq<Record>)
    requires f'.logs == f.logs && Fetched(f, m.sessions, records)
    requires m' == m.(sessions := Fetching(m.sessions, records), batch := Some(Batch(records, 0, {})))
    ensures BatchOk(f', m')
  {
    forall i: nat | i < |records| ensures InPlace(f', m'.sessions, records, i) {
      FetchedRecord(f, m.sessions, records, i);
      assert LogOf(f', records[i].place) == LogOf(f, records[i].place);
    }
  }

  lemma {:induction false} FetchStaysInLog(f: Fleet, sessions: map<Place, Session>, records: seq<Record>, n: nat, p: Place)
    requires Fetched(f, sessions, records) && p in sessions && n <= |records|
    requires sessions[p].position <= |LogOf(f, p)|
    ensures sessions[p].position + Count(records[..n], p) <= |LogOf(f, p)|
  {
    if n > 0 {
      FetchStaysInLog(f, sessions, records, n - 1, p);
      CountSplits(records[..n], n - 1, p);
      assert records[..n][..n - 1] == records[..n - 1] && records[..n][n - 1..] == [records[n - 1]];
      assert Count([records[n - 1]], p) == if records[n - 1].place == p then 1 else 0 by {
        assert [records[n - 1]][1..] == [];
      }
    }
  }

  lemma PollKeepsFleet(f: Fleet, x: nat, records: seq<Record>)
    requires FleetOk(f) && CanPoll(f, x, records)
    ensures FleetOk(Apply(f, Poll(x, records)))
  {
    var f', m := Apply(f, Poll(x, records)), f.members[x];
    var m' := f'.members[x];
    assert MemberOk(f, m);
    FetchedBatchOk(f, f', m, m', records);
    forall p | p in m'.sessions ensures SessionOk(f', m', p) {
      assert SessionOk(f, m, p);
      assert records[0..] == records && records[..|records|] == records;
      FetchStaysInLog(f, m.sessions, records, |records|, p);
      assert Front(m', p) == Front(m, p);
    }
    MemberMoves(f, f', x);
  }

  lemma FinishKeepsFleet(f: Fleet, x: nat)
    requires FleetOk(f) && x in f.members && !InBatch(f, x)
    ensures FleetOk(Apply(f, EndBatch(x)))
  {
    var f', m := Apply(f, EndBatch(x)), f.members[x];
    var m' := f'.members[x];
    assert MemberOk(f, m);
    forall p | p in m'.sessions ensures SessionOk(f', m', p) {
      assert SessionOk(f, m, p);
      assert Outstanding(m, p) == 0;
    }
    MemberMoves(f, f', x);
  }

  lemma CancelKeepsFleet(f: Fleet, x: nat)
    requires FleetOk(f) && x in f.members
    ensures FleetOk(Apply(f, Cancel(x)))
  {
    var f', m := Apply(f, Cancel(x)), f.members[x];
    var m' := f'.members[x];
    assert MemberOk(f, m);
    SameBatch(f, f', m, m');
    forall p | p in m'.sessions ensures SessionOk(f', m', p) { SameSession(f, f', m, m', p); }
    MemberMoves(f, f', x);
  }

  /** A session that was not overtaken has settled everything below its mark. */
  lemma MarkIsSettled(f: Fleet, x: nat, p: Place)
    requires FleetOk(f) && x in f.members && p in f.members[x].sessions
    requires !f.members[x].sessions[p].overtaken && p !in f.overrun
    ensures SettledBelow(f, p, f.members[x].sessions[p].mark)
  {
    assert MemberOk(f, f.members[x]) && SessionOk(f, f.members[x], p);
    var s := f.members[x].sessions[p];
    forall o | 0 <= o < s.mark ensures Settled(f.db, f.letters, LogOf(f, p)[o]) {
      if o < s.start { assert SettledBelow(f, p, s.start); } else { assert o in s.done; }
    }
  }

  lemma CommitKeepsFleet(f: Fleet, x: nat, p: Place)
    requires FleetOk(f) && x in f.members && p in f.members[x].sessions
    ensures FleetOk(AfterCommit(f, x, p))
  {
    var f', s := AfterCommit(f, x, p), f.members[x].sessions[p];
    assert MemberOk(f, f.members[x]) && SessionOk(f, f.members[x], p);
    if p !in f'.overrun { MarkIsSettled(f, x, p); }
    forall y | y in f'.members ensures MemberOk(f', f'.members[y]) { MemberStaysOk(f, f', f.members[y]); }
    CommitStaysOk(f, f', p);
  }

  /** A commit of a settled or recorded mark. */
  lemma CommitStaysOk(f: Fleet, f': Fleet, p: Place)
    requires LogsOk(f) && CommittedOk(f)
    requires f' == f.(committed := f'.committed, overrun := f'.overrun)
    requires f.overrun <= f'.overrun <= f.failed && CommittedAt(f', p) <= |LogOf(f, p)|
    requires forall q | q != p :: CommittedAt(f', q) == CommittedAt(f, q)
    requires p !in f'.overrun ==> SettledBelow(f, p, CommittedAt(f', p))
    ensures LogsOk(f') && CommittedOk(f')
  {
    forall q, o | 0 <= o < |LogOf(f', q)| ensures LogOf(f', q)[o].place == q && LogOf(f', q)[o].offset == o {
      assert LogOf(f', q) == LogOf(f, q);
    }
    forall q ensures CommittedAt(f', q) <= |LogOf(f', q)| {
      assert CommittedAt(f, q) <= |LogOf(f, q)|;
    }
    forall q | q !in f'.overrun ensures SettledBelow(f', q, CommittedAt(f', q)) {
      if q != p { assert SettledBelow(f, q, CommittedAt(f, q)); }
    }
  }

  lemma LeaveKeepsFleet(f: Fleet, x: nat)
    requires FleetOk(f)
    ensures FleetOk(Apply(f, Leave(x)))
  {
    var f' := Apply(f, Leave(x));
    forall y | y in f'.members ensures MemberOk(f', f'.members[y]) { MemberStaysOk(f, f', f.members[y]); }
    CommittedStaysOk(f, f');
  }

  lemma DatabaseKeepsFleet(f: Fleet, to: Engine.State)
    requires FleetOk(f) && Reachable(to) && Grew(f.db, to)
    ensures FleetOk(f.(db := to))
  {
    GrowthKeepsFleet(f, f.(db := to));
  }

  /** Every step of the database is a move the group allows. */
  lemma StepIsAllowed(f: Fleet, a: Engine.Action)
    requires ReachableFleet(f)
    ensures Allowed(f, Database(Engine.Step(f.db, a)))
  {
    ReachableFleetOk(f);
    StepIsReachable(f.db, a);
    StepGrows(f.db, a);
  }

  lemma ProofSettles(f: Fleet, r: Record, how: Proof)
    requires Proves(f, r, how)
    ensures Settled(f.db, f.letters, r)
  {
    if how.Buried? { assert Carries(f.letters[how.letter], r, how.cause); }
  }

  /** The moves that deal with the record at hand. */
  lemma SettlingKeepsFleet(f: Fleet, x: nat, how: Proof)
    requires FleetOk(f) && Honest(f, Mark(x, how))
    ensures FleetOk(Apply(f, Mark(x, how)))
  {
    if InBatch(f, x) && !Stalled(f, x) {
      ProofSettles(f, AtHand(f, x), how);
      MarkKeepsFleet(f, x);
      assert Apply(f, Mark(x, how)) == AfterMark(f, x);
    }
  }

  lemma PassingKeepsFleet(f: Fleet, x: nat)
    requires FleetOk(f)
    ensures FleetOk(Apply(f, Pass(x)))
  {
    if InBatch(f, x) && Stalled(f, x) {
      PassKeepsFleet(f, x);
      assert Apply(f, Pass(x)) == AfterPass(f, x);
    }
  }

  lemma FailingKeepsFleet(f: Fleet, x: nat)
    requires FleetOk(f)
    ensures FleetOk(Apply(f, Fail(x)))
  {
    if InBatch(f, x) && !Stalled(f, x) {
      LeavingKeepsFleet(f, x, true);
      assert Apply(f, Fail(x)) == AfterLeaving(f, x, true);
    }
  }

  lemma GivingUpKeepsFleet(f: Fleet, x: nat)
    requires FleetOk(f)
    ensures FleetOk(Apply(f, GiveUp(x)))
  {
    if InBatch(f, x) && !Stalled(f, x) && f.members[x].cancelled {
      LeavingKeepsFleet(f, x, false);
      assert Apply(f, GiveUp(x)) == AfterLeaving(f, x, false);
    }
  }

  lemma OffsetCommitKeepsFleet(f: Fleet, x: nat, p: Place)
    requires FleetOk(f)
    ensures FleetOk(Apply(f, CommitOffset(x, p)))
  {
    if x in f.members && p in f.members[x].sessions {
      CommitKeepsFleet(f, x, p);
      assert Apply(f, CommitOffset(x, p)) == AfterCommit(f, x, p);
    }
  }

  lemma JoinKeepsFleet(f: Fleet, x: nat)
    requires FleetOk(f)
    ensures FleetOk(Apply(f, Join(x)))
  {
    if x !in f.members { MemberMoves(f, Apply(f, Join(x)), x); }
  }

  lemma LandKeepsFleet(f: Fleet, letter: Letter)
    requires FleetOk(f)
    ensures FleetOk(Apply(f, Land(letter)))
  {
    GrowthKeepsFleet(f, Apply(f, Land(letter)));
  }

  lemma MoveKeepsFleet(f: Fleet, m: Move)
    requires FleetOk(f) && Allowed(f, m)
    ensures FleetOk(Apply(f, m))
  {
    match m
    case Database(to) => DatabaseKeepsFleet(f, to);
    case Produce(_, _, _, _) => ProduceKeepsFleet(f, m);
    case Land(letter) => LandKeepsFleet(f, letter);
    case Join(x) => JoinKeepsFleet(f, x);
    case Assign(x, p) => if CanAssign(f, x, p) { AssignKeepsFleet(f, x, p); }
    case Lose(x, p) => if x in f.members { LoseKeepsFleet(f, x, p); }
    case Poll(x, records) => if CanPoll(f, x, records) { PollKeepsFleet(f, x, records); }
    case Pass(x) => PassingKeepsFleet(f, x);
    case Mark(x, how) => SettlingKeepsFleet(f, x, how);
    case Fail(x) => FailingKeepsFleet(f, x);
    case GiveUp(x) => GivingUpKeepsFleet(f, x);
    case EndBatch(x) => if x in f.members && !InBatch(f, x) { FinishKeepsFleet(f, x); }
    case Cancel(x) => if x in f.members { CancelKeepsFleet(f, x); }
    case Leave(x) => LeaveKeepsFleet(f, x);
    case CommitOffset(x, p) => OffsetCommitKeepsFleet(f, x, p);
  }

  lemma StartOk(now: Instant)
    ensures FleetOk(Start(now))
  {
    assert Engine.Run(Engine.Init(now), []) == Engine.Init(now);
  }

  lemma {:induction false} AfterKeepsFleet(f: Fleet, moves: seq<Move>)
    requires FleetOk(f) && AllAllowed(f, moves)
    ensures FleetOk(After(f, moves))
  {
    if moves != [] {
      AfterKeepsFleet(f, moves[..|moves| - 1]);
      MoveKeepsFleet(After(f, moves[..|moves| - 1]), moves[|moves| - 1]);
    }
  }

  lemma ReachableFleetOk(f: Fleet)
    requires ReachableFleet(f)
    ensures FleetOk(f)
  {
    var now :| Follows(Start(now), f);
    var moves :| AllAllowed(Start(now), moves) && f == After(Start(now), moves);
    StartOk(now);
    AfterKeepsFleet(Start(now), moves);
  }
}
