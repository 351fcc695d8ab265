/** The consumer group beside the database. A member holds partitions, polls a batch, settles
    its records one by one, stalls a partition whose record it could not settle for the rest
    of that batch, and polls no more once its context is done. Commits follow the marks;
    crashes, rebalances and restarts start a partition again at its committed offset. */
module Group {
  import opened Base
  import opened Seat
  import opened EventStore
  import opened Envelopes
  import opened Engine
  import opened Invariants
  import opened Runs
  import opened Records
  import opened Postgres
  import Guarantees

  /** How many records one poll takes. */
  const POLL_BATCH := 100

  /** A member's time with one partition. */
  datatype Session = Session(
    position: nat,         // what the next poll starts at
    mark: nat,             // one past the highest offset marked: what a commit commits
    start: nat,            // history: the committed offset it started at
    done: set<nat>,        // history: the offsets it marked
    stalled: bool,         // history: it left some record unsettled
    failed: Option<nat>,   // history: the first offset whose dead letter could not be published
    overtaken: bool)       // history: it marked a record after that

  /** A poll's records, how many of them are dealt with, and the partitions stalled in it. */
  datatype Batch = Batch(records: seq<Record>, next: nat, stalled: set<Place>)

  datatype Member = Member(sessions: map<Place, Session>, batch: Option<Batch>, cancelled: bool)

  datatype Fleet = Fleet(
    db: State,
    letters: seq<Letter>,            // the dead letters published
    logs: map<Place, seq<Record>>,   // offset o holds the record with that offset
    committed: map<Place, nat>,
    members: map<nat, Member>,
    failed: set<Place>,              // history: partitions a dead letter ever failed for
    overrun: set<Place>)             // history: partitions an overtaken session committed for

  /** How a record was settled: its command is consumed, or a published letter carries it. */
  datatype Proof = Consumed | Buried(letter: nat, cause: string)

  datatype Move =
    | Database(to: State)                  // any number of steps of anybody's
    | Produce(place: Place, key: string, wire: Wire, payload: Option<Message>)
    | Land(letter: Letter)                 // a dead letter is published
    | Join(member: nat)
    | Assign(member: nat, place: Place)
    | Lose(member: nat, place: Place)      // revoked, or pulled away in the middle of a batch
    | Poll(member: nat, records: seq<Record>)
    | Pass(member: nat)                    // the partition at hand is stalled
    | Mark(member: nat, how: Proof)        // the record at hand is settled
    | Fail(member: nat)                    // its dead letter could not be published
    | GiveUp(member: nat)                  // the context is done
    | EndBatch(member: nat)                // the batch is dealt with
    | Cancel(member: nat)
    | Leave(member: nat)                   // crash or shutdown
    | CommitOffset(member: nat, place: Place)

  function Start(now: Instant): Fleet { Fleet(Init(now), [], map[], map[], map[], {}, {}) }

  function LogOf(f: Fleet, p: Place): seq<Record> { if p in f.logs then f.logs[p] else [] }

  function CommittedAt(f: Fleet, p: Place): nat { if p in f.committed then f.committed[p] else 0 }

  /** How many of the records are the partition's. */
  function Count(records: seq<Record>, p: Place): nat {
    if records == [] then 0 else Count(records[1..], p) + if records[0].place == p then 1 else 0
  }

  /** The records are what a fetch from these positions may return: for each partition the next
      ones of its log, in order, partitions interleaved in any way. */
  predicate Fetched(f: Fleet, sessions: map<Place, Session>, records: seq<Record>) {
    && |records| <= POLL_BATCH
    && (forall i | 0 <= i < |records| ::
          && records[i].place in sessions
          && var o := sessions[records[i].place].position + Count(records[..i], records[i].place);
          && o < |LogOf(f, records[i].place)| && records[i] == LogOf(f, records[i].place)[o])
  }

  predicate CanAssign(f: Fleet, x: nat, p: Place) {
    x in f.members && f.members[x].batch.None? && p !in f.members[x].sessions
  }

  predicate CanPoll(f: Fleet, x: nat, records: seq<Record>) {
    && x in f.members && f.members[x].batch.None? && !f.members[x].cancelled
    && Fetched(f, f.members[x].sessions, records)
  }

  predicate InBatch(f: Fleet, x: nat) {
    x in f.members && f.members[x].batch.Some? && f.members[x].batch.value.next < |f.members[x].batch.value.records|
  }

  function AtHand(f: Fleet, x: nat): Record
    requires InBatch(f, x)
  {
    f.members[x].batch.value.records[f.members[x].batch.value.next]
  }

  predicate Stalled(f: Fleet, x: nat)
    requires InBatch(f, x)
  {
    AtHand(f, x).place in f.members[x].batch.value.stalled
  }

  function FirstSession(committed: nat): Session {
    Session(committed, committed, committed, {}, false, None, false)
  }

  /** A mark keeps the highest offset; it cannot rewind. */
  function MarkedSession(s: Session, offset: nat): Session {
    s.(mark := if s.mark <= offset then offset + 1 else s.mark, done := s.done + {offset},
       overtaken := s.overtaken || s.failed.Some?)
  }

  function LeftSession(s: Session, offset: nat, failing: bool): Session {
    s.(stalled := true, failed := if failing && s.failed.None? then Some(offset) else s.failed)
  }

  function Fetching(sessions: map<Place, Session>, records: seq<Record>): map<Place, Session> {
    map p | p in sessions :: sessions[p].(position := sessions[p].position + Count(records, p))
  }

  /** The batch moves on; a session changes only while its partition is held. */
  function MovedOn(m: Member, p: Place, s: Session, stall: bool): Member
    requires m.batch.Some?
  {
    var b := m.batch.value;
    m.(batch := Some(b.(next := b.next + 1, stalled := if stall then b.stalled + {p} else b.stalled)),
       sessions := if p in m.sessions then m.sessions[p := s] else m.sessions)
  }

  function SessionOf(m: Member, p: Place): Session {
    if p in m.sessions then m.sessions[p] else FirstSession(0)
  }

  function AfterMark(f: Fleet, x: nat): Fleet
    requires InBatch(f, x)
  {
    var m, r := f.members[x], AtHand(f, x);
    f.(members := f.members[x := MovedOn(m, r.place, MarkedSession(SessionOf(m, r.place), r.offset), false)])
  }

  function AfterLeaving(f: Fleet, x: nat, failing: bool): Fleet
    requires InBatch(f, x)
  {
    var m, r := f.members[x], AtHand(f, x);
    f.(members := f.members[x := MovedOn(m, r.place, LeftSession(SessionOf(m, r.place), r.offset, failing), true)],
       failed := if failing then f.failed + {r.place} else f.failed)
  }

  function AfterPass(f: Fleet, x: nat): Fleet
    requires InBatch(f, x)
  {
    var m := f.members[x];
    f.(members := f.members[x := m.(batch := Some(m.batch.value.(next := m.batch.value.next + 1)))])
  }

  function AfterEnd(f: Fleet, x: nat): Fleet
    requires x in f.members
  {
    f.(members := f.members[x := f.members[x].(batch := None)])
  }

  function AfterPoll(f: Fleet, x: nat, records: seq<Record>): Fleet
    requires CanPoll(f, x, records)
  {
    f.(members := f.members[x := f.members[x].(
         sessions := Fetching(f.members[x].sessions, records), batch := Some(Batch(records, 0, {})))])
  }

  function AfterCommit(f: Fleet, x: nat, p: Place): Fleet
    requires x in f.members && p in f.members[x].sessions
  {
    var s := f.members[x].sessions[p];
    f.(committed := f.committed[p := s.mark], overrun := if s.overtaken then f.overrun + {p} else f.overrun)
  }

  function Apply(f: Fleet, m: Move): Fleet {
    match m
    case Database(to) => f.(db := to)
    case Produce(p, key, wire, payload) =>
      f.(logs := f.logs[p := LogOf(f, p) + [Record(p, |LogOf(f, p)|, key, wire, payload)]])
    case Land(letter) => f.(letters := f.letters + [letter])
    case Join(x) => if x in f.members then f else f.(members := f.members[x := Member(map[], None, false)])
    case Assign(x, p) =>
      if CanAssign(f, x, p) then
        f.(members := f.members[x := f.members[x].(
             sessions := f.members[x].sessions[p := FirstSession(CommittedAt(f, p))])])
      else f
    case Lose(x, p) =>
      if x in f.members
      then f.(members := f.members[x := f.members[x].(sessions := f.members[x].sessions - {p})]) else f
    case Poll(x, records) => if CanPoll(f, x, records) then AfterPoll(f, x, records) else f
    case Pass(x) => if InBatch(f, x) && Stalled(f, x) then AfterPass(f, x) else f
    case Mark(x, _) => if InBatch(f, x) && !Stalled(f, x) then AfterMark(f, x) else f
    case Fail(x) => if InBatch(f, x) && !Stalled(f, x) then AfterLeaving(f, x, true) else f
    case GiveUp(x) =>
      if InBatch(f, x) && !Stalled(f, x) && f.members[x].cancelled then AfterLeaving(f, x, false) else f
    case EndBatch(x) => if x in f.members && !InBatch(f, x) then AfterEnd(f, x) else f
    case Cancel(x) =>
      if x in f.members then f.(members := f.members[x := f.members[x].(cancelled := true)]) else f
    case Leave(x) => f.(members := f.members - {x})
    case CommitOffset(x, p) => if x in f.members && p in f.members[x].sessions then AfterCommit(f, x, p) else f
  }

  // ---- what the environment keeps to ----

  predicate Proves(f: Fleet, r: Record, how: Proof) {
    match how
    case Consumed => Applied(f.db, r)
    case Buried(letter, cause) => letter < |f.letters| && Carries(f.letters[letter], r, cause)
  }

  /** A record is marked only when it is settled. */
  predicate Honest(f: Fleet, m: Move) {
    m.Mark? && InBatch(f, m.member) ==> Proves(f, AtHand(f, m.member), m.how)
  }

  /** The database only goes where it can. */
  ghost predicate Allowed(f: Fleet, m: Move) {
    Honest(f, m) && (m.Database? ==> Reachable(m.to) && Grew(f.db, m.to))
  }

  function After(f: Fleet, moves: seq<Move>): Fleet {
    if moves == [] then f else Apply(After(f, moves[..|moves| - 1]), moves[|moves| - 1])
  }

  ghost predicate AllAllowed(f: Fleet, moves: seq<Move>) {
    moves != [] ==>
      AllAllowed(f, moves[..|moves| - 1]) && Allowed(After(f, moves[..|moves| - 1]), moves[|moves| - 1])
  }

  /** Some run leads from one to the other. */
  ghost predicate Follows(f: Fleet, f': Fleet) {
    exists moves :: AllAllowed(f, moves) && f' == After(f, moves)
  }

  ghost predicate ReachableFleet(f: Fleet) { exists now :: Follows(Start(now), f) }

  lemma FollowsItself(f: Fleet)
    ensures Follows(f, f)
  {
    assert AllAllowed(f, []) && f == After(f, []);
  }

  lemma FollowsOn(f: Fleet, f': Fleet, m: Move)
    requires Follows(f, f') && Allowed(f', m)
    ensures Follows(f, Apply(f', m))
  {
    var moves :| AllAllowed(f, moves) && f' == After(f, moves);
    assert (moves + [m])[..|moves|] == moves;
    assert AllAllowed(f, moves + [m]) && Apply(f', m) == After(f, moves + [m]);
  }

  /** Nothing but a mark or the database is ever held to anything. */
  lemma FollowsFreely(f: Fleet, f': Fleet, m: Move)
    requires Follows(f, f') && !m.Mark? && !m.Database?
    ensures Follows(f, Apply(f', m))
  {
    FollowsOn(f, f', m);
  }

  lemma MoveIsReachable(f: Fleet, m: Move)
    requires ReachableFleet(f) && Allowed(f, m)
    ensures ReachableFleet(Apply(f, m))
  {
    var now :| Follows(Start(now), f);
    FollowsOn(Start(now), f, m);
  }

  // ---- what holds ----

  /** How many records of the partition the batch still holds. */
  ghost function Outstanding(m: Member, p: Place): nat {
    if m.batch.Some? && m.batch.value.next <= |m.batch.value.records|
    then Count(m.batch.value.records[m.batch.value.next..], p) else 0
  }

  /** The offset at which the member stands: everything before it is dealt with. */
  ghost function Front(m: Member, p: Place): int
    requires p in m.sessions
  {
    m.sessions[p].position - Outstanding(m, p)
  }

  ghost predicate LogsOk(f: Fleet) {
    forall p, o | 0 <= o < |LogOf(f, p)| :: LogOf(f, p)[o].place == p && LogOf(f, p)[o].offset == o
  }

  /** The record is the log's, as many before the position as the batch still holds from it on. */
  ghost predicate InPlace(f: Fleet, sessions: map<Place, Session>, records: seq<Record>, i: nat)
    requires i < |records|
  {
    var p := records[i].place;
    p in sessions ==>
      var o := sessions[p].position - Count(records[i..], p);
      0 <= o < |LogOf(f, p)| && records[i] == LogOf(f, p)[o]
  }

  /** The batch's remaining records of a held partition are the log's, right up to the position. */
  ghost predicate BatchOk(f: Fleet, m: Member) {
    m.batch.Some? ==>
      var b := m.batch.value;
      && b.next <= |b.records|
      && (forall i: nat | b.next <= i < |b.records| :: InPlace(f, m.sessions, b.records, i))
  }

  ghost predicate SettledBelow(f: Fleet, p: Place, n: nat) {
    n <= |LogOf(f, p)| && forall o | 0 <= o < n :: Settled(f.db, f.letters, LogOf(f, p)[o])
  }

  /** Where the session stands, and what the flags say about it. */
  ghost predicate StandsOk(m: Member, p: Place)
    requires p in m.sessions
  {
    var s, front := m.sessions[p], Front(m, p);
    && s.start <= s.mark <= front
    && (forall o | o in s.done :: s.start <= o < front)
    && (!s.overtaken ==> forall o | s.start <= o < s.mark :: o in s.done)
    && (!s.stalled ==> s.mark == front && s.failed.None?)
    && (m.batch.Some? && p in m.batch.value.stalled ==> s.stalled)
    && (s.stalled && s.failed.None? ==>
          m.cancelled && (m.batch.Some? && Outstanding(m, p) > 0 ==> p in m.batch.value.stalled))
    && (s.failed.None? ==> !s.overtaken)
    && (s.failed.Some? ==>
          && s.stalled && s.start <= s.failed.value < front && s.failed.value !in s.done
          && (s.overtaken <==> s.failed.value < s.mark))
  }

  ghost predicate SessionOk(f: Fleet, m: Member, p: Place)
    requires p in m.sessions
  {
    var s := m.sessions[p];
    && StandsOk(m, p) && s.position <= |LogOf(f, p)|
    && (forall o | o in s.done :: o < |LogOf(f, p)| && Settled(f.db, f.letters, LogOf(f, p)[o]))
    && (s.failed.Some? ==> p in f.failed)
    && (p !in f.overrun ==> SettledBelow(f, p, s.start))
  }

  ghost predicate MemberOk(f: Fleet, m: Member) {
    BatchOk(f, m) && forall p | p in m.sessions :: SessionOk(f, m, p)
  }

  /** What is committed is in the log, and settled where no overtaken session committed. */
  ghost predicate CommittedOk(f: Fleet) {
    && f.overrun <= f.failed
    && (forall p :: CommittedAt(f, p) <= |LogOf(f, p)|)
    && (forall p | p !in f.overrun :: SettledBelow(f, p, CommittedAt(f, p)))
  }

  ghost predicate FleetOk(f: Fleet) {
    && Reachable(f.db) && LogsOk(f) && CommittedOk(f)
    && (forall x | x in f.members :: MemberOk(f, f.members[x]))
  }
}
