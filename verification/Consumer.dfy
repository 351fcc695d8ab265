/** The offset-marking consumer as code: a member of the group. Each record is retried, then
    dead-lettered, and its offset is marked only once it is settled; a partition with an
    unsettled record is left alone for the rest of the batch. Every method makes moves of the
    group only, and between them everybody else may move. */
module Consumer {
  import opened Base
  import opened Seat
  import opened EventStore
  import opened Envelopes
  import opened Records
  import opened Group
  import opened GroupRuns
  import opened Postgres
  import opened Handlers
  import opened Backoff
  import Delivery
  import Engine

  // ---- what others may do ----

  /** A move only the member itself makes. */
  predicate Mine(m: Move, x: nat) {
    match m
    case Join(y) => y == x
    case Poll(y, _) => y == x
    case Pass(y) => y == x
    case Mark(y, _) => y == x
    case Fail(y) => y == x
    case GiveUp(y) => y == x
    case EndBatch(y) => y == x
    case Leave(y) => y == x
    case _ => false
  }

  ghost predicate Onward(a: Fleet, b: Fleet) {
    Grew(a.db, b.db) && a.letters <= b.letters && a.failed <= b.failed
  }

  /** In the middle of a batch a member may lose partitions, and its context may end; nothing
      else of it changes. */
  ghost predicate MemberKept(m: Member, m': Member) {
    && m'.batch == m.batch && (m.cancelled ==> m'.cancelled)
    && (m.batch.Some? ==>
          forall p | p in m'.sessions :: p in m.sessions && m'.sessions[p] == m.sessions[p])
  }

  /** What a member can count on while it is not moving. */
  ghost predicate Elsewhere(a: Fleet, b: Fleet, x: nat) {
    && Onward(a, b) && (x in a.members <==> x in b.members)
    && (x in a.members ==> MemberKept(a.members[x], b.members[x]))
  }

  lemma OnwardTrans(a: Fleet, b: Fleet, c: Fleet)
    requires Onward(a, b) && Onward(b, c)
    ensures Onward(a, c)
  {
    GrewTrans(a.db, b.db, c.db);
  }

  lemma ElsewhereTrans(a: Fleet, b: Fleet, c: Fleet, x: nat)
    requires Elsewhere(a, b, x) && Elsewhere(b, c, x)
    ensures Elsewhere(a, c, x)
  {
    OnwardTrans(a, b, c);
  }

  lemma MoveIsOnward(f: Fleet, m: Move)
    requires !m.Database?
    ensures Onward(f, Apply(f, m)) && Apply(f, m).db == f.db
  {
  }

  lemma MoveIsElsewhere(f: Fleet, m: Move, x: nat)
    requires !m.Database? && !Mine(m, x)
    ensures Elsewhere(f, Apply(f, m), x)
  {
    MoveIsOnward(f, m);
  }

  lemma OtherMove(start: Fleet, f: Fleet, m: Move, x: nat)
    requires ReachableFleet(f) && !m.Database? && !Mine(m, x) && Honest(f, m) && Elsewhere(start, f, x)
    ensures ReachableFleet(Apply(f, m)) && Elsewhere(start, Apply(f, m), x) && Apply(f, m).db == f.db
  {
    MoveIsOnward(f, m);
    MoveIsElsewhere(f, m, x);
    MoveIsReachable(f, m);
    ElsewhereTrans(start, f, Apply(f, m), x);
  }

  lemma GrewItself(c: Engine.State)
    ensures Grew(c, c)
  {
  }

  // ---- this member's moves, one by one ----

  lemma MarkMove(f: Fleet, x: nat, how: Proof)
    requires ReachableFleet(f) && InBatch(f, x) && !Stalled(f, x) && Proves(f, AtHand(f, x), how)
    ensures ReachableFleet(AfterMark(f, x)) && Onward(f, AfterMark(f, x)) && AfterMark(f, x).db == f.db
  {
    MoveIsReachable(f, Mark(x, how));
    GrewItself(f.db);
  }

  lemma LeavingMove(f: Fleet, x: nat, failing: bool)
    requires ReachableFleet(f) && InBatch(f, x) && !Stalled(f, x) && (failing || f.members[x].cancelled)
    ensures ReachableFleet(AfterLeaving(f, x, failing)) && Onward(f, AfterLeaving(f, x, failing))
    ensures AfterLeaving(f, x, failing).db == f.db
  {
    MoveIsReachable(f, if failing then Fail(x) else GiveUp(x));
    GrewItself(f.db);
  }

  lemma PassMove(f: Fleet, x: nat)
    requires ReachableFleet(f) && InBatch(f, x) && Stalled(f, x)
    ensures ReachableFleet(AfterPass(f, x)) && Onward(f, AfterPass(f, x)) && AfterPass(f, x).db == f.db
  {
    MoveIsReachable(f, Pass(x));
    GrewItself(f.db);
  }

  lemma EndMove(f: Fleet, x: nat)
    requires ReachableFleet(f) && x in f.members && !InBatch(f, x)
    ensures ReachableFleet(AfterEnd(f, x)) && Onward(f, AfterEnd(f, x)) && AfterEnd(f, x).db == f.db
  {
    MoveIsReachable(f, EndBatch(x));
    GrewItself(f.db);
  }

  lemma PollMove(f: Fleet, x: nat, records: seq<Record>)
    requires ReachableFleet(f) && CanPoll(f, x, records)
    ensures ReachableFleet(AfterPoll(f, x, records)) && Onward(f, AfterPoll(f, x, records))
    ensures AfterPoll(f, x, records).db == f.db
  {
    MoveIsReachable(f, Poll(x, records));
    GrewItself(f.db);
  }

  lemma LandMove(f: Fleet, letter: Letter, x: nat)
    requires ReachableFleet(f)
    ensures ReachableFleet(f.(letters := f.letters + [letter])) && Elsewhere(f, f.(letters := f.letters + [letter]), x)
  {
    MoveIsReachable(f, Land(letter));
    GrewItself(f.db);
  }

  lemma LeaveMove(f: Fleet, x: nat)
    requires ReachableFleet(f)
    ensures ReachableFleet(f.(members := f.members - {x})) && Onward(f, f.(members := f.members - {x}))
  {
    MoveIsReachable(f, Leave(x));
    GrewItself(f.db);
  }

  // ---- what the handler's answers mean ----

  /** Done is said only of a consumed command, and permanent exactly of a hopeless record. */
  ghost predicate AnswerTrue(db: Engine.State, r: Record, answer: Verdict) {
    && (answer.Done? ==> Applied(db, r))
    && (answer.Permanent? <==> Hopeless(r))
  }

  /** Every call so far failed for a while only, and was followed by its wait. */
  ghost predicate Retried(base: int, maxAttempts: nat, answers: seq<Verdict>, waits: seq<int>) {
    && |waits| == |answers| && (forall i | 0 <= i < |answers| :: answers[i].Transient?)
    && Paced(base, maxAttempts, waits)
  }

  /** The calls of one record: all but the last failed for a while only, and there was a wait
      between any two. */
  ghost predicate Attempts(base: int, maxAttempts: nat, answers: seq<Verdict>, waits: seq<int>) {
    && 1 <= |answers| <= maxAttempts && |waits| == |answers| - 1
    && (forall i | 0 <= i < |answers| - 1 :: answers[i].Transient?)
    && Paced(base, maxAttempts, waits)
  }

  lemma RetriedAgain(base: int, maxAttempts: nat, answers: seq<Verdict>, waits: seq<int>, wait: int)
    requires Retried(base, maxAttempts, answers, waits) && WaitFits(base, maxAttempts, |answers| + 1, wait)
    ensures Retried(base, maxAttempts, answers + [Transient], waits + [wait])
  {
    OneMoreWait(base, maxAttempts, waits, wait);
  }

  lemma LastAttempt(base: int, maxAttempts: nat, answers: seq<Verdict>, waits: seq<int>, answer: Verdict)
    requires Retried(base, maxAttempts, answers, waits) && |answers| < maxAttempts
    ensures Attempts(base, maxAttempts, answers + [answer], waits)
  {
  }

  // ---- marks of a batch ----

  /** Per partition, one past the highest marked offset. */
  type Marks = map<Place, nat>

  function MarkAt(marks: Marks, p: Place): nat { if p in marks then marks[p] else 0 }

  function MarksOf(sessions: map<Place, Session>): Marks {
    map p | p in sessions :: sessions[p].mark
  }

  function Advanced(marks: Marks, r: Record): Marks {
    if MarkAt(marks, r.place) <= r.offset then marks[r.place := r.offset + 1] else marks
  }

  function MarksAfter(marks: Marks, batch: seq<Record>, marked: seq<bool>): Marks
    requires |marked| == |batch|
  {
    if batch == [] then marks
    else
      var n := |batch| - 1;
      var before := MarksAfter(marks, batch[..n], marked[..n]);
      if marked[n] then Advanced(before, batch[n]) else before
  }

  /** The sessions still held show the marks of the records marked, and no others. */
  ghost predicate MarksShow(sessions: map<Place, Session>, marks: Marks) {
    forall p | p in sessions :: sessions[p].mark == MarkAt(marks, p)
  }

  /** In each partition the marked records are a beginning of the batch's records. */
  ghost predicate MarkedPrefix(batch: seq<Record>, marked: seq<bool>)
    requires |marked| == |batch|
  {
    forall i, j | 0 <= i < j < |batch| && batch[i].place == batch[j].place && marked[j] :: marked[i]
  }

  /** Offsets increase within each partition, as a fetch delivers them, and start at or after
      what is marked. */
  ghost predicate Ascending(marks: Marks, batch: seq<Record>) {
    && (forall i, j | 0 <= i < j < |batch| && batch[i].place == batch[j].place ::
          batch[i].offset < batch[j].offset)
    && (forall i | 0 <= i < |batch| :: MarkAt(marks, batch[i].place) <= batch[i].offset)
  }

  lemma {:induction false} MarkComesFromARecord(marks: Marks, batch: seq<Record>, marked: seq<bool>, p: Place)
    requires |marked| == |batch|
    ensures var m := MarkAt(MarksAfter(marks, batch, marked), p);
      m == MarkAt(marks, p) ||
      exists i :: 0 <= i < |batch| && marked[i] && batch[i].place == p && m == batch[i].offset + 1
  {
    if batch != [] {
      var n := |batch| - 1;
      MarkComesFromARecord(marks, batch[..n], marked[..n], p);
    }
  }

  /** Marks never skip an unsettled record: where marked records form a prefix, every record
      of the batch below its partition's mark is a marked one. */
  lemma NothingIsSkipped(marks: Marks, batch: seq<Record>, marked: seq<bool>, i: nat)
    requires |marked| == |batch| && MarkedPrefix(batch, marked) && Ascending(marks, batch) && i < |batch|
    ensures batch[i].offset < MarkAt(MarksAfter(marks, batch, marked), batch[i].place) ==> marked[i]
  {
    MarkComesFromARecord(marks, batch, marked, batch[i].place);
    var m := MarkAt(MarksAfter(marks, batch, marked), batch[i].place);
    if batch[i].offset < m {
      var k :| 0 <= k < |batch| && marked[k] && batch[k].place == batch[i].place && m == batch[k].offset + 1;
      assert k < i ==> batch[k].offset < batch[i].offset;
    }
  }

  lemma NextMark(marks: Marks, batch: seq<Record>, done: seq<bool>, n: nat, ok: bool)
    requires n < |batch| && |done| == n
    ensures MarksAfter(marks, batch[..n + 1], done + [ok]) ==
      if ok then Advanced(MarksAfter(marks, batch[..n], done), batch[n]) else MarksAfter(marks, batch[..n], done)
  {
    assert batch[..n + 1][..n] == batch[..n];
    assert (done + [ok])[..n] == done;
  }

  /** Every marked record is settled. */
  ghost predicate AllSettled(f: Fleet, batch: seq<Record>, marked: seq<bool>)
    requires |marked| == |batch|
  {
    forall i | 0 <= i < |batch| && marked[i] :: Settled(f.db, f.letters, batch[i])
  }

  lemma NextSettled(f: Fleet, f': Fleet, batch: seq<Record>, done: seq<bool>, n: nat, ok: bool)
    requires n < |batch| && |done| == n && AllSettled(f, batch[..n], done) && Onward(f, f')
    requires ok ==> Settled(f'.db, f'.letters, batch[n])
    ensures AllSettled(f', batch[..n + 1], done + [ok])
  {
    forall i | 0 <= i < n && done[i] ensures Settled(f'.db, f'.letters, batch[i]) {
      assert batch[..n][i] == batch[i];
      StaysSettled(f.db, f'.db, f.letters, f'.letters, batch[i]);
    }
  }

  /** A record left unmarked shows in its partition being stalled, and that in a context that
      is done or a dead letter that failed. */
  ghost predicate StallsShow(f: Fleet, x: nat, batch: seq<Record>, marked: seq<bool>, stalled: set<Place>)
    requires |marked| == |batch| && x in f.members
  {
    && (forall i | 0 <= i < |batch| && !marked[i] :: batch[i].place in stalled)
    && (forall p | p in stalled :: f.members[x].cancelled || p in f.failed)
  }

  lemma NextStall(f: Fleet, f': Fleet, x: nat, batch: seq<Record>, done: seq<bool>, n: nat, ok: bool,
                  stalled: set<Place>, stalled': set<Place>)
    requires x in f.members && x in f'.members && n < |batch| && |done| == n
    requires MarkedPrefix(batch[..n], done) && StallsShow(f, x, batch[..n], done, stalled)
    requires f.failed <= f'.failed && (f.members[x].cancelled ==> f'.members[x].cancelled)
    requires ok ==> batch[n].place !in stalled && stalled' == stalled
    requires !ok ==> stalled' == stalled + {batch[n].place} &&
                     (batch[n].place in stalled || f'.members[x].cancelled || batch[n].place in f'.failed)
    ensures MarkedPrefix(batch[..n + 1], done + [ok]) && StallsShow(f', x, batch[..n + 1], done + [ok], stalled')
  {
    assert forall i | 0 <= i < n :: batch[..n][i] == batch[i];
  }

  // ---- one record ----

  /** One record of the batch is dealt with, marked or not. */
  ghost predicate Handled(m: Member, m': Member, r: Record, marked: bool) {
    && m.batch.Some? && (m.cancelled ==> m'.cancelled)
    && m'.batch == Some(m.batch.value.(
         next := m.batch.value.next + 1,
         stalled := if marked then m.batch.value.stalled else m.batch.value.stalled + {r.place}))
    && (forall p | p in m'.sessions ::
          && p in m.sessions
          && m'.sessions[p].mark ==
             if marked && p == r.place then MarkedSession(m.sessions[p], r.offset).mark else m.sessions[p].mark)
  }

  lemma KeptThenMarked(a: Fleet, b: Fleet, x: nat)
    requires x in a.members && Elsewhere(a, b, x) && InBatch(a, x) && !Stalled(a, x)
    ensures InBatch(b, x) && !Stalled(b, x) && AtHand(b, x) == AtHand(a, x)
    ensures Handled(a.members[x], AfterMark(b, x).members[x], AtHand(a, x), true)
  {
  }

  lemma KeptThenLeft(a: Fleet, b: Fleet, x: nat, failing: bool)
    requires x in a.members && Elsewhere(a, b, x) && InBatch(a, x) && !Stalled(a, x)
    ensures InBatch(b, x) && !Stalled(b, x) && AtHand(b, x) == AtHand(a, x)
    ensures Handled(a.members[x], AfterLeaving(b, x, failing).members[x], AtHand(a, x), false)
    ensures failing ==> AtHand(a, x).place in AfterLeaving(b, x, failing).failed
  {
  }

  lemma Passing(f: Fleet, x: nat)
    requires InBatch(f, x) && Stalled(f, x)
    ensures Handled(f.members[x], AfterPass(f, x).members[x], AtHand(f, x), false)
  {
    var s := f.members[x].batch.value.stalled;
    assert s + {AtHand(f, x).place} == s;
  }

  lemma MarksMoveOn(m: Member, m': Member, r: Record, marked: bool, marks: Marks)
    requires Handled(m, m', r, marked) && MarksShow(m.sessions, marks)
    ensures MarksShow(m'.sessions, if marked then Advanced(marks, r) else marks)
  {
  }

  // ---- what the loop leaves behind ----

  /** The member's sessions skipped a record exactly where they overtook a failed letter. */
  ghost predicate SkipsOnlyOvertaken(f: Fleet, x: nat) {
    x in f.members ==> forall p | p in f.members[x].sessions ::
      Delivery.Skips(f.members[x].sessions[p]) <==> f.members[x].sessions[p].overtaken
  }

  /** Where no dead letter ever failed, everything committed is settled. */
  ghost predicate CommitsSettled(f: Fleet) {
    forall p | p !in f.failed :: SettledBelow(f, p, CommittedAt(f, p))
  }

  lemma NothingSkippedNothingLost(f: Fleet, x: nat)
    requires ReachableFleet(f)
    ensures SkipsOnlyOvertaken(f, x) && CommitsSettled(f)
  {
    if x in f.members {
      forall p | p in f.members[x].sessions
        ensures Delivery.Skips(f.members[x].sessions[p]) <==> f.members[x].sessions[p].overtaken
      {
        Delivery.SkipsIffOvertaken(f, x, p);
      }
    }
    forall p | p !in f.failed ensures SettledBelow(f, p, CommittedAt(f, p)) {
      Delivery.SettledWhereNoLetterFailed(f, p);
    }
  }

  class Consumer {
    const db: Database
    const me: nat
    const maxAttempts: nat
    const baseBackoff: int
    /** Whether there is somewhere to publish dead letters. */
    const hasDeadLetters: bool

    /** The group as this member sees it: its own batch, marks and context, and everybody's. */
    var fleet: Fleet

    constructor (db: Database, fleet: Fleet, me: nat, maxAttempts: int, baseBackoff: int, hasDeadLetters: bool)
      requires db.Valid() && ReachableFleet(fleet) && fleet.db == db.state && me !in fleet.members
      ensures Valid() && Alive() && this.db == db && this.me == me && this.hasDeadLetters == hasDeadLetters
      ensures this.maxAttempts == if maxAttempts <= 0 then 5 else maxAttempts
      ensures this.baseBackoff == if baseBackoff <= 0 then 100000000 else baseBackoff
      ensures this.fleet == Apply(fleet, Join(me))
    {
      this.db, this.me, this.hasDeadLetters := db, me, hasDeadLetters;
      this.maxAttempts := if maxAttempts <= 0 then DEFAULT_MAX_ATTEMPTS else maxAttempts;
      this.baseBackoff := if baseBackoff <= 0 then DEFAULT_BASE_BACKOFF else baseBackoff;
      this.fleet := Apply(fleet, Join(me));
      new;
      MoveIsReachable(fleet, Join(me));
    }

    ghost predicate Valid()
      reads this, db
    {
      ReachableFleet(fleet) && db.Valid() && fleet.db == db.state && maxAttempts >= 1 && baseBackoff >= 1
    }

    /** The process has not crashed. */
    predicate Alive()
      reads this
    {
      me in fleet.members
    }

    predicate Cancelled()
      reads this
    {
      Alive() && fleet.members[me].cancelled
    }

    predicate MidBatch()
      reads this
    {
      Alive() && fleet.members[me].batch.Some?
    }

    /** Everybody else moves. */
    method Others()
      requires Valid()
      modifies `fleet
      ensures Valid() && Elsewhere(old(fleet), fleet, me)
    {
      var moves: seq<Move> := *;
      for i := 0 to |moves|
        invariant Valid() && Elsewhere(old(fleet), fleet, me)
      {
        if !moves[i].Database? && !Mine(moves[i], me) && Honest(fleet, moves[i]) {
          OtherMove(old(fleet), fleet, moves[i], me);
          fleet := Apply(fleet, moves[i]);
        }
      }
    }

    // ---- one record ----

    /** Hands the record to the handler. */
    method CallHandler(tx: nat, r: Record, headers: Headers, ghost start: Fleet) returns (answer: Verdict)
      requires Valid() && tx !in db.state.txs && headers == FromWire(r.wire) && Elsewhere(start, fleet, me)
      modifies db, `fleet
      ensures Valid() && tx !in db.state.txs && Elsewhere(start, fleet, me)
      ensures Alive() == old(Alive()) && AnswerTrue(fleet.db, r, answer)
    {
      ghost var before := fleet;
      answer := Deliver(db, tx, headers, r.payload);
      MoveIsReachable(fleet, Move.Database(db.state));
      fleet := fleet.(db := db.state);
      ElsewhereTrans(start, before, fleet, me);
    }

    /** The wait before the next attempt, at the mercy of the draw; None is a panic. */
    method Wait(attempt: nat) returns (wait: Option<int>)
      requires baseBackoff >= 1 && attempt >= 1
      ensures SafeBudget(baseBackoff, maxAttempts) && attempt < maxAttempts ==> wait.Some?
      ensures wait.Some? && attempt < maxAttempts ==> WaitFits(baseBackoff, maxAttempts, attempt, wait.value)
    {
      var d := Shifted(baseBackoff, attempt);
      SafeBudgetIff(baseBackoff, maxAttempts);
      assert SafeBudget(baseBackoff, maxAttempts) && attempt < maxAttempts ==> WaitsAreExact(baseBackoff, attempt);
      if d <= 0 { return None; }
      var draw: int := *;
      if draw < 0 || draw >= d { draw := 0; }
      assert Drawn(d, Jittered(d, draw));
      return Some(Jittered(d, draw));
    }

    /** Waits for the next attempt, unless the context is done first or the draw panics. */
    method Pause(attempt: nat, ghost start: Fleet) returns (waited: Option<int>)
      requires Valid() && Alive() && attempt >= 1 && Elsewhere(start, fleet, me)
      modifies `fleet
      ensures Valid() && Onward(start, fleet) && (Alive() ==> Elsewhere(start, fleet, me))
      ensures waited.Some? ==> Alive()
      ensures waited.None? ==> !Alive() || Cancelled()
      ensures SafeBudget(baseBackoff, maxAttempts) && attempt < maxAttempts ==> Alive()
      ensures waited.Some? && attempt < maxAttempts ==> WaitFits(baseBackoff, maxAttempts, attempt, waited.value)
    {
      var wait := Wait(attempt);
      if wait.None? {
        LeaveMove(fleet, me);
        OnwardTrans(start, fleet, fleet.(members := fleet.members - {me}));
        fleet := fleet.(members := fleet.members - {me});
        return None;
      }
      ghost var before := fleet;
      Others();
      ElsewhereTrans(start, before, fleet, me);
      var givingUp := *;
      return if Cancelled() && givingUp then None else wait;
    }

    /** The n-th call of the handler, and the wait for the next one if there is to be one. */
    method TryOnce(tx: nat, r: Record, headers: Headers, n: nat, ghost start: Fleet)
      returns (answer: Verdict, waited: Option<int>)
      requires Valid() && Alive() && tx !in db.state.txs && headers == FromWire(r.wire)
      requires 1 <= n <= maxAttempts && Elsewhere(start, fleet, me)
      modifies db, `fleet
      ensures Valid() && tx !in db.state.txs && Onward(start, fleet) && (Alive() ==> Elsewhere(start, fleet, me))
      ensures AnswerTrue(fleet.db, r, answer)
      ensures waited.Some? ==> Alive() && answer.Transient? && n < maxAttempts
      ensures waited.None? ==> !answer.Transient? || n == maxAttempts || Cancelled() || !Alive()
      ensures !Alive() ==> answer.Transient?
      ensures SafeBudget(baseBackoff, maxAttempts) ==> Alive()
      ensures waited.Some? ==> WaitFits(baseBackoff, maxAttempts, n, waited.value)
    {
      answer := CallHandler(tx, r, headers, start);
      if !answer.Transient? || n >= maxAttempts { return answer, None; }
      waited := Pause(n, start);
    }

    /** Runs the handler until it succeeds, fails for good, or the budget is spent. It calls
        the handler at least once and at most maxAttempts times, stops at the first answer
        that is not a transient failure, and waits between calls for the time the backoff
        allows. */
    method Attempt(tx: nat, r: Record, headers: Headers) returns (answers: seq<Verdict>, waits: seq<int>)
      requires Valid() && Alive() && tx !in db.state.txs && headers == FromWire(r.wire)
      modifies db, `fleet
      ensures Valid() && tx !in db.state.txs && Onward(old(fleet), fleet)
      ensures Alive() ==> Elsewhere(old(fleet), fleet, me)
      ensures Attempts(baseBackoff, maxAttempts, answers, waits)
      ensures var last := answers[|answers| - 1];
        && AnswerTrue(fleet.db, r, last)
        && (last.Transient? ==> |answers| == maxAttempts || Cancelled() || !Alive())
        && (!Alive() ==> last.Transient?)
      ensures SafeBudget(baseBackoff, maxAttempts) ==> Alive()
    {
      answers, waits := [], [];
      GrewItself(fleet.db);
      while true
        invariant Valid() && Alive() && tx !in db.state.txs && Elsewhere(old(fleet), fleet, me)
        invariant |answers| < maxAttempts && Retried(baseBackoff, maxAttempts, answers, waits)
        decreases maxAttempts - |answers|
      {
        var answer, waited := TryOnce(tx, r, headers, |answers| + 1, old(fleet));
        if waited.None? {
          LastAttempt(baseBackoff, maxAttempts, answers, waits, answer);
          answers := answers + [answer];
          return;
        }
        RetriedAgain(baseBackoff, maxAttempts, answers, waits, waited.value);
        answers, waits := answers + [answer], waits + [waited.value];
      }
    }

    /** Republishes a record to its dead-letter topic with where it came from and why. A
        publish that fails may still have landed. */
    method SendLetter(r: Record, headers: Headers, cause: string) returns (ok: bool, index: nat)
      requires Valid() && headers == FromWire(r.wire)
      modifies `fleet
      ensures Valid() && Elsewhere(old(fleet), fleet, me)
      ensures ok ==> index < |fleet.letters| && Carries(fleet.letters[index], r, cause)
      ensures !hasDeadLetters ==> !ok && fleet == old(fleet)
    {
      index := 0;
      if !hasDeadLetters { return false, index; }
      Others();
      var topic, partition, offset := r.place.topic, Decimal(r.place.partition), Decimal(r.offset);
      var wire := ToWire(headers + Provenance(topic, partition, offset, cause));
      var letter := Letter(topic + ".dlq", r.key, wire, r.payload);
      var failed, landed := *, *;
      if !failed || landed {
        index := |fleet.letters|;
        ghost var before := fleet;
        LandMove(fleet, letter, me);
        fleet := fleet.(letters := fleet.letters + [letter]);
        ElsewhereTrans(old(fleet), before, fleet, me);
      }
      ok := !failed;
    }

    /** Settles the record at hand and says whether its offset was marked. A marked record is
        applied or dead-lettered; a record goes unmarked only by a shutdown, a crash, or a dead
        letter that could not be published. */
    method Handle(tx: nat) returns (marked: bool)
      requires Valid() && Alive() && InBatch(fleet, me) && !Stalled(fleet, me) && tx !in db.state.txs
      modifies db, `fleet
      ensures Valid() && tx !in db.state.txs && Onward(old(fleet), fleet)
      ensures Alive() ==> Handled(old(fleet).members[me], fleet.members[me], AtHand(old(fleet), me), marked)
      ensures marked ==> Alive() && Settled(fleet.db, fleet.letters, AtHand(old(fleet), me))
      ensures !marked ==> !Alive() || Cancelled() || AtHand(old(fleet), me).place in fleet.failed
      ensures SafeBudget(baseBackoff, maxAttempts) ==> Alive()
    {
      var r := AtHand(fleet, me);
      var headers := ReadWire(r.wire);
      var answers, _ := Attempt(tx, r, headers);
      if !Alive() { return false; }
      if answers[|answers| - 1].Done? {
        MarkAtHand(old(fleet), r, Consumed);
        return true;
      }
      ghost var before := fleet;
      Others();
      ElsewhereTrans(old(fleet), before, fleet, me);
      if Cancelled() {
        LeaveAtHand(old(fleet), r, false);
        return false;
      }
      var cause := *;
      before := fleet;
      var ok, index := SendLetter(r, headers, cause);
      ElsewhereTrans(old(fleet), before, fleet, me);
      if ok {
        MarkAtHand(old(fleet), r, Buried(index, cause));
      } else {
        LeaveAtHand(old(fleet), r, true);
      }
      return ok;
    }

    /** Marks the record's offset for the next commit. */
    method MarkAtHand(ghost start: Fleet, ghost r: Record, how: Proof)
      requires Valid() && me in start.members && Elsewhere(start, fleet, me)
      requires InBatch(start, me) && !Stalled(start, me) && r == AtHand(start, me) && Proves(fleet, r, how)
      modifies `fleet
      ensures Valid() && Alive() && Onward(start, fleet) && Settled(fleet.db, fleet.letters, r)
      ensures Handled(start.members[me], fleet.members[me], r, true)
    {
      KeptThenMarked(start, fleet, me);
      ProofSettles(fleet, r, how);
      MarkMove(fleet, me, how);
      OnwardTrans(start, fleet, AfterMark(fleet, me));
      fleet := AfterMark(fleet, me);
    }

    /** Leaves the record unsettled, which stalls its partition for the rest of the batch. */
    method LeaveAtHand(ghost start: Fleet, ghost r: Record, failing: bool)
      requires Valid() && me in start.members && Elsewhere(start, fleet, me)
      requires InBatch(start, me) && !Stalled(start, me) && r == AtHand(start, me) && (failing || Cancelled())
      modifies `fleet
      ensures Valid() && Alive() && Onward(start, fleet) && (failing ==> r.place in fleet.failed)
      ensures Handled(start.members[me], fleet.members[me], r, false) && (old(Cancelled()) ==> Cancelled())
    {
      KeptThenLeft(start, fleet, me, failing);
      LeavingMove(fleet, me, failing);
      OnwardTrans(start, fleet, AfterLeaving(fleet, me, failing));
      fleet := AfterLeaving(fleet, me, failing);
    }

    // ---- one batch ----

    /** Settles the record at hand, unless its partition is stalled. */
    method HandleNext(tx: nat) returns (marked: bool)
      requires Valid() && Alive() && InBatch(fleet, me) && tx !in db.state.txs
      modifies db, `fleet
      ensures Valid() && tx !in db.state.txs && Onward(old(fleet), fleet)
      ensures Alive() ==> Handled(old(fleet).members[me], fleet.members[me], AtHand(old(fleet), me), marked)
      ensures marked ==> Alive() && !Stalled(old(fleet), me) && Settled(fleet.db, fleet.letters, AtHand(old(fleet), me))
      ensures !marked ==>
        !Alive() || Stalled(old(fleet), me) || Cancelled() || AtHand(old(fleet), me).place in fleet.failed
      ensures SafeBudget(baseBackoff, maxAttempts) ==> Alive()
    {
      if Stalled(fleet, me) {
        Passing(fleet, me);
        PassMove(fleet, me);
        fleet := AfterPass(fleet, me);
        return false;
      }
      marked := Handle(tx);
    }

    /** Where the loop over a batch stands. */
    ghost predicate BatchStands(start: Fleet, records: seq<Record>, n: nat, marked: seq<bool>)
      requires me in start.members && n <= |records| && |marked| == n
      reads this
    {
      && Alive() && fleet.members[me].batch.Some?
      && var b := fleet.members[me].batch.value;
      && b.records == records && b.next == n
      && MarkedPrefix(records[..n], marked) && StallsShow(fleet, me, records[..n], marked, b.stalled)
      && AllSettled(fleet, records[..n], marked)
      && MarksShow(fleet.members[me].sessions,
                   MarksAfter(MarksOf(start.members[me].sessions), records[..n], marked))
      && (start.members[me].cancelled ==> Cancelled())
    }

    /** One step of the loop over a batch. */
    method HandleInBatch(tx: nat, ghost start: Fleet, ghost records: seq<Record>, ghost n: nat,
                         ghost marked: seq<bool>)
      returns (ok: bool)
      requires Valid() && tx !in db.state.txs && Onward(start, fleet) && me in start.members
      requires n < |records| && |marked| == n && BatchStands(start, records, n, marked)
      modifies db, `fleet
      ensures Valid() && tx !in db.state.txs && Onward(start, fleet)
      ensures Alive() ==> BatchStands(start, records, n + 1, marked + [ok])
      ensures SafeBudget(baseBackoff, maxAttempts) ==> Alive()
    {
      ghost var before := fleet;
      ok := HandleNext(tx);
      OnwardTrans(start, before, fleet);
      if !Alive() { return; }
      NextMark(MarksOf(start.members[me].sessions), records, marked, n, ok);
      MarksMoveOn(before.members[me], fleet.members[me], records[n], ok,
                  MarksAfter(MarksOf(start.members[me].sessions), records[..n], marked));
      NextSettled(before, fleet, records, marked, n, ok);
      NextStall(before, fleet, me, records, marked, n, ok, before.members[me].batch.value.stalled,
                fleet.members[me].batch.value.stalled);
    }

    /** Settles one poll's records, leaving the rest of a partition alone once one of its
        records could not be settled. If the process survives, the marked records of each
        partition are a beginning of the batch's, every one is settled, the marks are theirs,
        and a partition with an unmarked record stalled on a shutdown or a failed letter. */
    method HandleBatch(tx: nat) returns (marked: seq<bool>)
      requires Valid() && MidBatch() && tx !in db.state.txs
      requires fleet.members[me].batch.value.next == 0 && fleet.members[me].batch.value.stalled == {}
      modifies db, `fleet
      ensures Valid() && tx !in db.state.txs && Onward(old(fleet), fleet)
      ensures SafeBudget(baseBackoff, maxAttempts) ==> Alive()
      ensures Alive() ==>
        var records := old(fleet).members[me].batch.value.records;
        && fleet.members[me].batch.None? && |marked| == |records| && MarkedPrefix(records, marked)
        && AllSettled(fleet, records, marked)
        && MarksShow(fleet.members[me].sessions,
                     MarksAfter(MarksOf(old(fleet).members[me].sessions), records, marked))
        && (forall i | 0 <= i < |records| && !marked[i] :: Cancelled() || records[i].place in fleet.failed)
    {
      ghost var start, records := fleet, fleet.members[me].batch.value.records;
      var size := |fleet.members[me].batch.value.records|;
      marked := [];
      for n := 0 to size
        invariant Valid() && tx !in db.state.txs && Onward(start, fleet)
        invariant |marked| == n && BatchStands(start, records, n, marked)
      {
        var ok := HandleInBatch(tx, start, records, n, marked);
        if !Alive() { return; }
        marked := marked + [ok];
      }
      assert records[..size] == records;
      EndMove(fleet, me);
      OnwardTrans(start, fleet, AfterEnd(fleet, me));
      fleet := AfterEnd(fleet, me);
    }

    // ---- the loop ----

    /** Takes some of the next records of the partitions it holds. */
    method Fetch()
      requires Valid() && Alive() && !Cancelled() && !MidBatch()
      modifies `fleet
      ensures Valid() && MidBatch() && Onward(old(fleet), fleet)
      ensures fleet.members[me].batch.value.next == 0 && fleet.members[me].batch.value.stalled == {}
    {
      var records: seq<Record> := *;
      if !CanPoll(fleet, me, records) {
        records := [];
        assert Fetched(fleet, fleet.members[me].sessions, records);
      }
      PollMove(fleet, me, records);
      fleet := AfterPoll(fleet, me, records);
    }

    /** Takes one poll; done means the loop should stop. */
    method PollOnce(tx: nat) returns (done: bool)
      requires Valid() && !MidBatch() && tx !in db.state.txs
      modifies db, `fleet
      ensures Valid() && !MidBatch() && tx !in db.state.txs && Onward(old(fleet), fleet)
      ensures done ==> !Alive() || Cancelled()
    {
      ghost var start := fleet;
      Others();
      if !Alive() || Cancelled() { return true; }
      ghost var ready := fleet;
      Fetch();
      OnwardTrans(start, ready, fleet);
      ghost var fetched := fleet;
      var _ := HandleBatch(tx);
      OnwardTrans(start, fetched, fleet);
      return !Alive();
    }

    /** Polls, batch after batch, until the context is done or the polls run out. Whatever the
        others do meanwhile, no session of this member skips a record unless it marked one after
        a dead letter failed; and where none ever failed, everything committed is settled. */
    method Run(tx: nat, polls: nat)
      requires Valid() && !MidBatch() && tx !in db.state.txs
      modifies db, `fleet
      ensures Valid() && !MidBatch() && tx !in db.state.txs && Onward(old(fleet), fleet)
      ensures SkipsOnlyOvertaken(fleet, me) && CommitsSettled(fleet)
    {
      GrewItself(fleet.db);
      for n := 0 to polls
        invariant Valid() && !MidBatch() && tx !in db.state.txs && Onward(old(fleet), fleet)
      {
        ghost var before := fleet;
        var done := PollOnce(tx);
        OnwardTrans(old(fleet), before, fleet);
        if done { break; }
      }
      NothingSkippedNothingLost(fleet, me);
    }
  }
}
