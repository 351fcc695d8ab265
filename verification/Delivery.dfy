/** What the group promises over every run, and exactly where the promise not to skip a record
    stops: at a commit by a session that marked a record after a dead letter of the same
    partition could not be published. */
module Delivery {
  import opened Base
  import opened Seat
  import opened Envelopes
  import opened Engine
  import opened Invariants
  import opened Runs
  import opened Records
  import opened Group
  import opened GroupRuns
  import Guarantees

  // ---- consume-once, end to end ----

  /** Exactly one transaction committed a command with this source and this id. */
  ghost predicate AppliedOnce(db: State, source: string, id: string) {
    && SeenBefore(db.store.commits, source, id)
    && (forall i: nat, j: nat | i < j < |db.store.commits| ::
          !(CarriesOut(db.store.commits[i], source, id) && CarriesOut(db.store.commits[j], source, id)))
  }

  /** The record's headers, read as the consumer reads them, name a command that exactly one
      transaction committed. */
  ghost predicate RecordAppliedOnce(db: State, r: Record) {
    var parsed := Parse(FromWire(r.wire));
    parsed.Ok? && AppliedOnce(db, parsed.value.source, parsed.value.id)
  }

  /** However often records are redelivered, whatever crashes, is reassigned, or commits and
      reports a failure: an applied command was applied by exactly one transaction. */
  lemma NoCommandAppliesTwice(f: Fleet, r: Record)
    requires ReachableFleet(f)
    ensures Applied(f.db, r) ==> RecordAppliedOnce(f.db, r)
  {
    ReachableFleetOk(f);
    Guarantees.ClaimsCommitOnce(f.db);
  }

  /** In every run, whatever is polled, stalled, cancelled, crashed or reassigned: if no dead
      letter ever failed for a partition, each of its records below the committed offset was
      applied, by exactly one transaction, or was dead-lettered. It is enough that no session
      committed for the partition after overtaking a failed letter. */
  lemma NothingBelowTheCommitIsLost(f: Fleet, p: Place, o: nat)
    requires ReachableFleet(f) && o < CommittedAt(f, p) && p !in f.overrun
    ensures o < |LogOf(f, p)| && Settled(f.db, f.letters, LogOf(f, p)[o])
    ensures Applied(f.db, LogOf(f, p)[o]) ==> RecordAppliedOnce(f.db, LogOf(f, p)[o])
  {
    ReachableFleetOk(f);
    assert SettledBelow(f, p, CommittedAt(f, p));
    NoCommandAppliesTwice(f, LogOf(f, p)[o]);
  }

  /** Only a failed letter can lead there. */
  lemma SettledWhereNoLetterFailed(f: Fleet, p: Place)
    requires ReachableFleet(f) && p !in f.failed
    ensures p !in f.overrun && SettledBelow(f, p, CommittedAt(f, p))
  {
    ReachableFleetOk(f);
  }

  // ---- exactly when a mark skips a record ----

  /** The session's mark lies past a record the session did not settle. */
  ghost predicate Skips(s: Session) {
    exists o :: s.start <= o < s.mark && o !in s.done
  }

  /** In every reachable fleet a session has skipped a record exactly when it marked one after a
      dead letter of its partition had failed: a stall within the batch, the end of polling on
      a shutdown, crashes and reassignments never let one slip. */
  lemma SkipsIffOvertaken(f: Fleet, x: nat, p: Place)
    requires ReachableFleet(f) && x in f.members && p in f.members[x].sessions
    ensures var s := f.members[x].sessions[p];
      && (Skips(s) <==> s.overtaken)
      && (s.overtaken ==> s.failed.Some? && s.failed.value < s.mark && s.failed.value !in s.done)
      && (forall o | o in s.done :: o < |LogOf(f, p)| && Settled(f.db, f.letters, LogOf(f, p)[o]))
  {
    ReachableFleetOk(f);
    assert MemberOk(f, f.members[x]) && SessionOk(f, f.members[x], p);
    var s := f.members[x].sessions[p];
    if s.overtaken { assert s.start <= s.failed.value < s.mark; }
  }

  /** A flag is raised by events only: a session is overtaken from the moment it marks a record
      of its partition after a dead letter failed for it, and by nothing else. */
  lemma OvertakenByAMark(f: Fleet, m: Move, x: nat, p: Place)
    requires x in f.members && p in f.members[x].sessions
    requires x in Apply(f, m).members && p in Apply(f, m).members[x].sessions
    ensures var s, s' := f.members[x].sessions[p], Apply(f, m).members[x].sessions[p];
      s'.overtaken != s.overtaken ==>
        && m.Mark? && m.member == x && InBatch(f, x) && AtHand(f, x).place == p
        && !s.overtaken && s.failed.Some?
  {
  }

  // ---- and what it costs ----

  /** Whatever is left in the batch can be dealt with without settling anything. */
  lemma {:induction false} DealWithTheRest(start: Fleet, f: Fleet, x: nat, p: Place) returns (f': Fleet)
    requires Follows(start, f) && x in f.members && !f.members[x].cancelled
    requires p in f.members[x].sessions && f.members[x].sessions[p].failed.Some?
    ensures Follows(start, f') && f'.db == f.db && f'.letters == f.letters && f'.logs == f.logs
    ensures x in f'.members && !f'.members[x].cancelled && f'.members[x].batch.None?
    ensures p in f'.members[x].sessions && f'.members[x].sessions[p].failed == f.members[x].sessions[p].failed
    decreases if InBatch(f, x) then |f.members[x].batch.value.records| - f.members[x].batch.value.next else 0
  {
    if !InBatch(f, x) {
      FollowsFreely(start, f, EndBatch(x));
      f' := EndedEffect(f, x);
    } else {
      var next := OneDealtWith(start, f, x, p);
      f' := DealWithTheRest(start, next, x, p);
    }
  }

  lemma EndedEffect(f: Fleet, x: nat) returns (f': Fleet)
    requires x in f.members && !InBatch(f, x)
    ensures f' == Apply(f, EndBatch(x)) && f' == f.(members := f'.members)
    ensures x in f'.members && f'.members[x] == f.members[x].(batch := None)
  {
    f' := Apply(f, EndBatch(x));
  }

  lemma PassedEffect(f: Fleet, x: nat) returns (f': Fleet)
    requires InBatch(f, x) && Stalled(f, x)
    ensures f' == Apply(f, Pass(x)) && f' == f.(members := f'.members) && x in f'.members
    ensures f'.members[x] == f.members[x].(batch := Some(f.members[x].batch.value.(next := f.members[x].batch.value.next + 1)))
  {
    f' := Apply(f, Pass(x));
  }

  lemma OneDealtWith(start: Fleet, f: Fleet, x: nat, p: Place) returns (f': Fleet)
    requires Follows(start, f) && InBatch(f, x) && !f.members[x].cancelled
    requires p in f.members[x].sessions && f.members[x].sessions[p].failed.Some?
    ensures Follows(start, f') && f' == f.(members := f'.members, failed := f'.failed)
    ensures x in f'.members && !f'.members[x].cancelled && f'.members[x].batch.Some?
    ensures f'.members[x].batch.value.records == f.members[x].batch.value.records
    ensures f'.members[x].batch.value.next == f.members[x].batch.value.next + 1
    ensures p in f'.members[x].sessions && f'.members[x].sessions[p].failed == f.members[x].sessions[p].failed
  {
    if Stalled(f, x) {
      FollowsFreely(start, f, Pass(x));
      f' := PassedEffect(f, x);
    } else {
      FollowsFreely(start, f, Fail(x));
      f' := AfterLeaving(f, x, true);
      LeftEffect(f, x);
    }
  }

  /** A member between polls, with its context alive, holding the partition. */
  ghost predicate CanTakeMore(f: Fleet, x: nat, p: Place) {
    x in f.members && !f.members[x].cancelled && f.members[x].batch.None? && p in f.members[x].sessions
  }

  /** The next record of the partition is polled alone. */
  lemma PollOne(start: Fleet, f: Fleet, x: nat, p: Place) returns (f': Fleet)
    requires Follows(start, f) && CanTakeMore(f, x, p) && LogsOk(f)
    requires f.members[x].sessions[p].position < |LogOf(f, p)|
    ensures Follows(start, f') && f' == f.(members := f'.members) && InBatch(f', x) && !Stalled(f', x)
    ensures AtHand(f', x) == LogOf(f, p)[f.members[x].sessions[p].position]
    ensures p in f'.members[x].sessions && !f'.members[x].cancelled
    ensures f'.members[x].sessions[p] ==
      f.members[x].sessions[p].(position := f.members[x].sessions[p].position + 1)
  {
    FollowsFreely(start, f, Poll(x, [LogOf(f, p)[f.members[x].sessions[p].position]]));
    f' := PolledEffect(f, x, p);
  }

  lemma PolledEffect(f: Fleet, x: nat, p: Place) returns (f': Fleet)
    requires CanTakeMore(f, x, p) && LogsOk(f) && f.members[x].sessions[p].position < |LogOf(f, p)|
    ensures f' == Apply(f, Poll(x, [LogOf(f, p)[f.members[x].sessions[p].position]]))
    ensures f' == f.(members := f'.members) && InBatch(f', x) && !Stalled(f', x)
    ensures AtHand(f', x) == LogOf(f, p)[f.members[x].sessions[p].position]
    ensures p in f'.members[x].sessions && !f'.members[x].cancelled
    ensures f'.members[x].sessions[p] ==
      f.members[x].sessions[p].(position := f.members[x].sessions[p].position + 1)
  {
    var r := LogOf(f, p)[f.members[x].sessions[p].position];
    var records := [r];
    assert r.place == p && records[..0] == [] && records[1..] == [] && Count(records, p) == 1;
    assert CanPoll(f, x, records);
    f' := Apply(f, Poll(x, records));
  }

  lemma MarkedEffect(f: Fleet, x: nat)
    requires InBatch(f, x) && AtHand(f, x).place in f.members[x].sessions
    ensures var f' := AfterMark(f, x);
      && f' == f.(members := f'.members) && x in f'.members
      && AtHand(f, x).place in f'.members[x].sessions
      && AtHand(f, x).offset < f'.members[x].sessions[AtHand(f, x).place].mark
  {
  }

  /** The dead letter of the record at hand cannot be published. */
  lemma FailOne(start: Fleet, f: Fleet, x: nat) returns (f': Fleet)
    requires Follows(start, f) && InBatch(f, x) && !Stalled(f, x) && AtHand(f, x).place in f.members[x].sessions
    ensures Follows(start, f') && f' == f.(members := f'.members, failed := f'.failed)
    ensures x in f'.members && f'.members[x].cancelled == f.members[x].cancelled
    ensures AtHand(f, x).place in f'.members[x].sessions
    ensures f.members[x].sessions[AtHand(f, x).place].failed.None? ==>
      f'.members[x].sessions[AtHand(f, x).place].failed == Some(AtHand(f, x).offset)
  {
    FollowsFreely(start, f, Fail(x));
    f' := AfterLeaving(f, x, true);
    LeftEffect(f, x);
  }

  lemma LeftEffect(f: Fleet, x: nat)
    requires InBatch(f, x)
    ensures var f', p := AfterLeaving(f, x, true), AtHand(f, x).place;
      && f' == f.(members := f'.members, failed := f'.failed)
      && x in f'.members && f'.members[x].cancelled == f.members[x].cancelled && f'.members[x].batch.Some?
      && f'.members[x].batch.value.records == f.members[x].batch.value.records
      && f'.members[x].batch.value.next == f.members[x].batch.value.next + 1
      && f'.members[x].sessions.Keys == f.members[x].sessions.Keys
      && (forall q | q in f.members[x].sessions && f.members[x].sessions[q].failed.Some? ::
            f'.members[x].sessions[q].failed == f.members[x].sessions[q].failed)
      && (p in f.members[x].sessions && f.members[x].sessions[p].failed.None? ==>
            f'.members[x].sessions[p].failed == Some(AtHand(f, x).offset))
  {
  }

  lemma CommitOne(start: Fleet, f: Fleet, x: nat, p: Place) returns (f': Fleet)
    requires Follows(start, f) && x in f.members && p in f.members[x].sessions
    ensures Follows(start, f') && f' == f.(committed := f'.committed, overrun := f'.overrun)
    ensures CommittedAt(f', p) == f.members[x].sessions[p].mark
  {
    FollowsFreely(start, f, CommitOffset(x, p));
    f' := AfterCommit(f, x, p);
  }

  lemma LandAndMark(start: Fleet, f: Fleet, x: nat, letter: Letter) returns (f': Fleet)
    requires Follows(start, f) && InBatch(f, x) && !Stalled(f, x) && AtHand(f, x).place in f.members[x].sessions
    requires Carries(letter, AtHand(f, x), "")
    ensures Follows(start, f') && f' == f.(members := f'.members, letters := f.letters + [letter]) && x in f'.members
    ensures AtHand(f, x).place in f'.members[x].sessions
    ensures AtHand(f, x).offset < f'.members[x].sessions[AtHand(f, x).place].mark
  {
    var landed := f.(letters := f.letters + [letter]);
    assert Follows(start, landed) by { FollowsFreely(start, f, Land(letter)); }
    assert InBatch(landed, x) && AtHand(landed, x) == AtHand(f, x);
    var mark := Mark(x, Buried(|f.letters|, ""));
    assert Follows(start, Apply(landed, mark)) by { FollowsOn(start, landed, mark); }
    assert Apply(landed, mark) == AfterMark(landed, x);
    f' := AfterMark(landed, x);
    MarkedEffect(landed, x);
  }

  /** The record at hand is dead-lettered, marked and committed. */
  lemma BuryOne(start: Fleet, f: Fleet, x: nat, letter: Letter) returns (f': Fleet)
    requires Follows(start, f) && InBatch(f, x) && !Stalled(f, x) && AtHand(f, x).place in f.members[x].sessions
    requires Carries(letter, AtHand(f, x), "")
    ensures Follows(start, f') && f'.db == f.db && f'.letters == f.letters + [letter] && f'.logs == f.logs
    ensures AtHand(f, x).offset < CommittedAt(f', AtHand(f, x).place)
  {
    var marked := LandAndMark(start, f, x, letter);
    f' := CommitOne(start, marked, x, AtHand(f, x).place);
  }

  /** One more record: it is produced, polled, dead-lettered, marked and committed. */
  lemma OneMoreRecord(start: Fleet, f: Fleet, x: nat, p: Place) returns (f': Fleet, letter: Letter, r: Record)
    requires Follows(start, f) && FleetOk(f) && CanTakeMore(f, x, p)
    ensures Follows(start, f') && f'.db == f.db && f'.letters == f.letters + [letter] && Carries(letter, r, "")
    ensures r.offset == f.members[x].sessions[p].position < CommittedAt(f', p)
    ensures LogOf(f, p) <= LogOf(f', p)
  {
    var produce := Produce(p, "", [], None);
    FollowsFreely(start, f, produce);
    MoveKeepsFleet(f, produce);
    assert SessionOk(f, f.members[x], p) by { assert MemberOk(f, f.members[x]); }
    var polled := PollOne(start, Apply(f, produce), x, p);
    r := AtHand(polled, x);
    letter := SomeLetter(r, "");
    f' := BuryOne(start, polled, x, letter);
  }

  /** From every reachable fleet in which a live session left a record unsettled because its
      dead letter failed, some continuation loses that record: the rest of the batch goes by,
      a later poll's record is settled, and the commit covers both. */
  lemma FailedLetterCanLoseItsRecord(f: Fleet, x: nat, p: Place) returns (f': Fleet)
    requires ReachableFleet(f) && x in f.members && !f.members[x].cancelled
    requires p in f.members[x].sessions && f.members[x].sessions[p].failed.Some?
    requires var o := f.members[x].sessions[p].failed.value;
      o < |LogOf(f, p)| && !Settled(f.db, f.letters, LogOf(f, p)[o])
    ensures var o := f.members[x].sessions[p].failed.value;
      && Follows(f, f') && o < CommittedAt(f', p) && LogOf(f, p) <= LogOf(f', p)
      && !Settled(f'.db, f'.letters, LogOf(f, p)[o])
  {
    var o := f.members[x].sessions[p].failed.value;
    FollowsItself(f);
    var rested := DealWithTheRest(f, f, x, p);
    FollowingIsReachable(f, rested);
    ReachableFleetOk(rested);
    assert SessionOk(rested, rested.members[x], p) by { assert MemberOk(rested, rested.members[x]); }
    var letter, r;
    f', letter, r := OneMoreRecord(f, rested, x, p);
    var lost := LogOf(f, p)[o];
    assert LogOf(rested, p)[o] == lost && lost.offset == o < r.offset;
    forall i, cause | 0 <= i < |f'.letters| ensures !Carries(f'.letters[i], lost, cause) {
      if i == |f.letters| {
        if Carries(letter, lost, cause) { LetterNamesItsRecord(letter, r, "", lost, cause); }
      } else {
        assert f'.letters[i] == f.letters[i];
      }
    }
  }

  lemma {:induction false} FollowingMoves(f: Fleet, moves: seq<Move>)
    requires ReachableFleet(f) && AllAllowed(f, moves)
    ensures ReachableFleet(After(f, moves))
  {
    if moves != [] {
      FollowingMoves(f, moves[..|moves| - 1]);
      MoveIsReachable(After(f, moves[..|moves| - 1]), moves[|moves| - 1]);
    }
  }

  lemma FollowingIsReachable(f: Fleet, f': Fleet)
    requires ReachableFleet(f) && Follows(f, f')
    ensures ReachableFleet(f')
  {
    var moves :| AllAllowed(f, moves) && f' == After(f, moves);
    FollowingMoves(f, moves);
  }

  /** Such a run exists from the start: a record that is no CloudEvent is polled, its dead letter
      fails, and the next poll's record is settled and committed over it. */
  lemma SkippedRecordIsLost(p: Place) returns (f: Fleet)
    ensures ReachableFleet(f) && 0 < CommittedAt(f, p) && 0 < |LogOf(f, p)|
    ensures !Settled(f.db, f.letters, LogOf(f, p)[0])
  {
    var owned := OneRecordOwned(p);
    ReachableFleetOk(owned);
    FollowsItself(owned);
    var polled := PollOne(owned, owned, 0, p);
    var failed := FailOne(owned, polled, 0);
    FollowingIsReachable(owned, failed);
    assert !Applied(failed.db, LogOf(failed, p)[0]) by { assert FromWire([]) == map[]; }
    f := FailedLetterCanLoseItsRecord(failed, 0, p);
    FollowingIsReachable(failed, f);
  }

  /** A member owns a partition that holds one record, no CloudEvent. */
  lemma OneRecordOwned(p: Place) returns (f: Fleet)
    ensures ReachableFleet(f) && CanTakeMore(f, 0, p) && f.members[0].sessions[p] == FirstSession(0)
    ensures LogOf(f, p) == [Record(p, 0, "", [], None)] && f.letters == []
  {
    var start := Start(0);
    FollowsItself(start);
    FollowsFreely(start, start, Produce(p, "", [], None));
    var produced := Apply(start, Produce(p, "", [], None));
    FollowsFreely(start, produced, Join(0));
    var joined := Apply(produced, Join(0));
    FollowsFreely(start, joined, Assign(0, p));
    f := Apply(joined, Assign(0, p));
  }
}
