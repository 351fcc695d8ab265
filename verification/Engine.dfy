/** The inventory database as an interleaved state machine. Commands and timer fires run
    as transactions of four statements each; any number are in flight at once and every
    statement sees what is committed when it runs. An action names the transaction that
    moves and resolves every choice the environment has, so a run is a list of actions.
    An action that is not enabled, or that has to wait for a lock, changes nothing. */
module Engine {
  import opened Base
  import opened Seat
  import opened EventStore
  import opened Envelopes

  const EVENTS_TOPIC := "inventory.events"
  const SOURCE := "/sagaflow/inventory"
  const CONSUMER := "inventory.commands"

  // ---- committed rows ----

  datatype InboxKey = InboxKey(consumer: string, source: string, eventId: string)

  datatype TimerRow = TimerRow(fireAt: Instant, subject: string, token: string, firedAt: Option<Instant>)

  /** One outgoing message; its headers are those its envelope renders. */
  datatype OutRow = OutRow(topic: string, key: string, envelope: Envelope, body: Message)

  // ---- history: what the tables are proved against ----

  /** The event at a 1-based version of a stream. */
  datatype Ref = Ref(seat: string, version: int)

  /** Why an outgoing message exists. */
  datatype Cause = Consumed(key: InboxKey) | Expired(ref: Ref)

  datatype Work =
    | Command(envelope: Envelope, cmd: Message)
    | Deadline(timer: nat, token: string, fireAt: Instant)

  /** A committed transaction: the instant it began at, how long its stream was then and when
      it committed, and the version its decision was taken at. */
  datatype Commit = Commit(tx: nat, work: Work, seat: string, at: Instant, beganAt: nat, decidedAt: nat,
                           committedAt: nat, outcome: Outcome)

  /** Timers, with their links to the holds they were committed with and the expiries
      they fired. */
  datatype Deadlines = Deadlines(
    timers: map<nat, TimerRow>,
    holdOf: map<nat, Ref>,         // history: timer -> its SeatHeld, for every timer ever committed
    timerOf: map<Ref, nat>,        // history: the inverse of holdOf
    firedBy: map<Ref, nat>)        // history: SeatHoldExpired -> the timer that fired it

  /** What was consumed and what was enqueued because of it. The outbox keeps every row ever
      committed; the poller's flags and pruning are Relay's. */
  datatype Mail = Mail(
    inbox: set<InboxKey>,
    outbox: map<nat, OutRow>,
    rowOf: map<Ref, nat>,          // history: event -> the outbox row announcing it
    causeOf: map<nat, Cause>,      // history: outbox row -> why it exists
    outOf: map<Cause, nat>)        // history: the inverse of causeOf

  datatype Store = Store(
    events: Table,
    streams: Streams,              // history: the streams the table stores
    deadlines: Deadlines,
    mail: Mail,
    commits: seq<Commit>)          // history: the transactions in commit order

  // ---- in flight ----

  datatype Phase = Marked | Read | Written | Ready

  datatype Tx = Tx(work: Work, seat: string, phase: Phase, began: Instant, beganAt: nat,
                   state: SeatState, last: Meta, outcome: Outcome,
                   firstTimer: nat, firstOut: nat, ids: seq<string>)

  datatype State = State(store: Store, txs: map<nat, Tx>, now: Instant,
                         nextTimer: nat, nextOut: nat, usedIds: set<string>)

  datatype Action =
    | Receive(tx: nat, envelope: Envelope, cmd: Message)
    | Claim(tx: nat, timer: nat, began: Instant)
    | Load(tx: nat)
    | Append(tx: nat)
    | Enqueue(tx: nat, ids: seq<string>)
    | Finish(tx: nat)
    | Abort(tx: nat)
    | Clock(to: Instant)
    | PruneTimers(cutoff: Instant)

  const EMPTY_STORE :=
    Store(map[], map[], Deadlines(map[], map[], map[], map[]), Mail({}, map[], map[], map[], map[]), [])

  function Init(now: Instant): State {
    State(EMPTY_STORE, map[], now, 0, 0, {})
  }

  function KeyOf(e: Envelope): InboxKey { InboxKey(CONSUMER, e.source, e.id) }

  function Length(streams: Streams, seat: string): nat { |StreamOf(streams, seat)| }

  /** The decision a transaction takes on a folded seat. */
  function DecideWork(work: Work, seat: string, s: SeatState): Outcome {
    match work
    case Command(_, cmd) => (match Decide(s, cmd) case Ok(o) => o case Err(_) => NOTHING)
    case Deadline(_, token, _) => s.Expire(seat, token)
  }

  function LastMeta(recs: seq<Recorded>): Meta {
    if recs == [] then NO_META else recs[|recs| - 1].meta
  }

  /** A command's events carry its flow and its id; an expiry's carry the flow of the event
      that put the seat in its state, and no cause. */
  function MetaOf(tx: Tx): Meta {
    match tx.work
    case Command(e, _) => Meta(e.correlationId, e.id)
    case Deadline(_, _, _) => Meta(tx.last.correlationId, "")
  }

  function Record(evts: seq<Message>, meta: Meta, at: Instant): (r: seq<Recorded>)
    ensures |r| == |evts| && forall i | 0 <= i < |evts| :: r[i] == Recorded(evts[i], meta, at)
  {
    seq(|evts|, i requires 0 <= i < |evts| => Recorded(evts[i], meta, at))
  }

  function Pending(tx: Tx): seq<Recorded> { Record(tx.outcome.events, MetaOf(tx), tx.began) }

  predicate HasPending(tx: Tx) { (tx.phase.Written? || tx.phase.Ready?) && tx.outcome.events != [] }

  /** The envelope of an outgoing message, all but its id and type. */
  function Template(tx: Tx): Envelope {
    match tx.work
    case Command(e, _) => Envelope("", SOURCE, "", tx.seat, e.correlationId, e.id, e.traceParent)
    case Deadline(_, _, _) => Envelope("", SOURCE, "", tx.seat, tx.last.correlationId, "", "")
  }

  function Frame(template: Envelope, id: string, body: Message): OutRow {
    OutRow(EVENTS_TOPIC, template.subject, template.(id := id, ceType := body.TypeName()), body)
  }

  function OutRows(template: Envelope, msgs: seq<Message>, ids: seq<string>, first: nat): (m: map<nat, OutRow>)
    requires |ids| == |msgs|
    ensures forall id :: id in m <==> first <= id < first + |msgs|
    ensures forall id | id in m :: m[id] == Frame(template, ids[id - first], msgs[id - first])
  {
    if msgs == [] then map[]
    else
      var n := |msgs| - 1;
      OutRows(template, msgs[..n], ids[..n], first)[first + n := Frame(template, ids[n], msgs[n])]
  }

  function TimerRows(seat: string, ts: seq<Timer>, first: nat): (m: map<nat, TimerRow>)
    ensures forall id :: id in m <==> first <= id < first + |ts|
    ensures forall id | id in m :: m[id] == TimerRow(ts[id - first].fireAt, seat, ts[id - first].token, None)
  {
    if ts == [] then map[]
    else
      var n := |ts| - 1;
      TimerRows(seat, ts[..n], first)[first + n := TimerRow(ts[n].fireAt, seat, ts[n].token, None)]
  }

  // ---- locks ----

  /** An uncommitted inbox row with this key, which a second insert waits for. */
  predicate KeyLocked(txs: map<nat, Tx>, key: InboxKey) {
    exists x | x in txs :: txs[x].work.Command? && KeyOf(txs[x].work.envelope) == key
  }

  predicate TimerLocked(txs: map<nat, Tx>, timer: nat) {
    exists x | x in txs :: txs[x].work.Deadline? && txs[x].work.timer == timer
  }

  /** An uncommitted row of this stream at this version. */
  predicate VersionLocked(txs: map<nat, Tx>, seat: string, version: int) {
    exists x | x in txs :: HasPending(txs[x]) && txs[x].seat == seat &&
      txs[x].state.version < version <= txs[x].state.version + |txs[x].outcome.events|
  }

  // ---- statements ----

  /** A command is received once per inbox key: the mark waits for an uncommitted mark with
      the same key and affects no row when a committed one exists. */
  predicate CanReceive(c: State, x: nat, e: Envelope, cmd: Message) {
    && x !in c.txs && Seat.SeatId(cmd).Ok? && e.source != "" && e.id != ""
    && KeyOf(e) !in c.store.mail.inbox && !KeyLocked(c.txs, KeyOf(e))
  }

  /** A timer can be claimed while it is due and unfired. The transaction began at an
      instant between the pass that saw it due and now. */
  predicate CanClaim(c: State, x: nat, timer: nat, began: Instant) {
    && x !in c.txs && timer in c.store.deadlines.timers && c.store.deadlines.timers[timer].firedAt.None?
    && c.store.deadlines.timers[timer].fireAt <= began <= c.now && !TimerLocked(c.txs, timer)
  }

  function Drop(c: State, x: nat): State { c.(txs := c.txs - {x}) }

  function DoReceive(c: State, x: nat, e: Envelope, cmd: Message): State
    requires CanReceive(c, x, e, cmd)
  {
    var seat := Seat.SeatId(cmd).value;
    c.(txs := c.txs[x := Tx(Command(e, cmd), seat, Marked, c.now, Length(c.store.streams, seat),
                            UNUSED, NO_META, NOTHING, 0, 0, [])])
  }

  function DoClaim(c: State, x: nat, timer: nat, began: Instant): State
    requires CanClaim(c, x, timer, began)
  {
    var row := c.store.deadlines.timers[timer];
    c.(txs := c.txs[x := Tx(Deadline(timer, row.token, row.fireAt), row.subject, Marked, began,
                            Length(c.store.streams, row.subject), UNUSED, NO_META, NOTHING, 0, 0, [])])
  }

  /** Reads the stream, folds it and decides. A stream that does not fold ends the
      transaction. */
  function DoLoad(c: State, x: nat): State
    requires x in c.txs
  {
    var tx := c.txs[x];
    var recs := Loaded(c.store.events, tx.seat);
    match Fold(Bodies(recs))
    case Err(_) => Drop(c, x)
    case Ok(s) =>
      c.(txs := c.txs[x := tx.(phase := Read, state := s, last := LastMeta(recs),
                               outcome := DecideWork(tx.work, tx.seat, s))])
  }

  /** Inserts the events at the versions after the one read. Nothing to insert always
      works; a committed row at the same version is a version conflict, which ends the
      transaction; an uncommitted one makes it wait. */
  function DoAppend(c: State, x: nat): State
    requires x in c.txs
  {
    var tx := c.txs[x];
    if tx.outcome.events == [] then c.(txs := c.txs[x := tx.(phase := Written)])
    else if Conflicts(c.store, tx) then Drop(c, x)
    else if VersionLocked(c.txs, tx.seat, tx.state.version + 1) then c
    else c.(txs := c.txs[x := tx.(phase := Written)])
  }

  predicate Conflicts(st: Store, tx: Tx) {
    Appended(st.events, tx.seat, tx.state.version, Pending(tx)).None?
  }

  /** Schedules the timers and enqueues the messages; ids come from sequences that no
      rollback rewinds. A message without a key is refused, which ends the transaction. */
  function DoEnqueue(c: State, x: nat, ids: seq<string>): State
    requires x in c.txs
  {
    var tx := c.txs[x];
    var msgs := tx.outcome.Messages();
    if msgs != [] && tx.seat == "" then Drop(c, x)
    else if |ids| != |msgs| || !Fresh(c.usedIds, ids) then c
    else c.(txs := c.txs[x := tx.(phase := Ready, firstTimer := c.nextTimer, firstOut := c.nextOut,
                                  ids := ids)],
            nextTimer := c.nextTimer + |tx.outcome.timers|,
            nextOut := c.nextOut + |msgs|,
            usedIds := c.usedIds + set id | id in ids)
  }

  /** New message ids are distinct, unused and not empty. */
  predicate Fresh(used: set<string>, ids: seq<string>) {
    && (forall i | 0 <= i < |ids| :: ids[i] !in used && ids[i] != "")
    && (forall i, j | 0 <= i < j < |ids| :: ids[i] != ids[j])
  }

  /** Where the transaction's first event stands. A decision has at most one event, one
      timer and one message, so history records the first of each. */
  function FirstEvent(tx: Tx): Ref { Ref(tx.seat, tx.state.version + 1) }

  function CauseOf(tx: Tx): Cause {
    match tx.work
    case Command(e, _) => Consumed(KeyOf(e))
    case Deadline(_, _, _) => Expired(FirstEvent(tx))
  }

  function NewStreams(streams: Streams, tx: Tx): Streams {
    if tx.outcome.events == [] then streams
    else streams[tx.seat := StreamOf(streams, tx.seat) + Pending(tx)]
  }

  /** The claimed timer, if any, is marked fired. */
  function MarkFired(timers: map<nat, TimerRow>, tx: Tx): map<nat, TimerRow> {
    if tx.work.Deadline? && tx.work.timer in timers
    then timers[tx.work.timer := timers[tx.work.timer].(firedAt := Some(tx.began))]
    else timers
  }

  function NewDeadlines(d: Deadlines, tx: Tx): Deadlines {
    Deadlines(
      MarkFired(d.timers, tx) + TimerRows(tx.seat, tx.outcome.timers, tx.firstTimer),
      if tx.outcome.timers == [] then d.holdOf else d.holdOf[tx.firstTimer := FirstEvent(tx)],
      if tx.outcome.timers == [] then d.timerOf else d.timerOf[FirstEvent(tx) := tx.firstTimer],
      if tx.work.Deadline? && tx.outcome.events != [] then d.firedBy[FirstEvent(tx) := tx.work.timer]
      else d.firedBy)
  }

  /** The command is marked consumed and the messages are enqueued. */
  function NewMail(m: Mail, tx: Tx): Mail
    requires |tx.ids| == |tx.outcome.Messages()|
  {
    Mail(
      if tx.work.Command? then m.inbox + {KeyOf(tx.work.envelope)} else m.inbox,
      m.outbox + OutRows(Template(tx), tx.outcome.Messages(), tx.ids, tx.firstOut),
      if tx.outcome.events == [] then m.rowOf else m.rowOf[FirstEvent(tx) := tx.firstOut],
      if tx.outcome.Messages() == [] then m.causeOf else m.causeOf[tx.firstOut := CauseOf(tx)],
      if tx.outcome.Messages() == [] then m.outOf else m.outOf[CauseOf(tx) := tx.firstOut])
  }

  /** The history record of a transaction. */
  function CommitOf(streams: Streams, x: nat, tx: Tx): Commit {
    Commit(x, tx.work, tx.seat, tx.began, tx.beganAt, tx.state.version, Length(streams, tx.seat), tx.outcome)
  }

  /** Everything a transaction wrote becomes visible at once. */
  function Committed(st: Store, x: nat, tx: Tx): Store
    requires |tx.ids| == |tx.outcome.Messages()|
  {
    Store(st.events + RowsAt(tx.seat, tx.state.version, Pending(tx)),
          NewStreams(st.streams, tx),
          NewDeadlines(st.deadlines, tx),
          NewMail(st.mail, tx),
          st.commits + [CommitOf(st.streams, x, tx)])
  }

  function DoFinish(c: State, x: nat): State
    requires x in c.txs && |c.txs[x].ids| == |c.txs[x].outcome.Messages()|
  {
    c.(store := Committed(c.store, x, c.txs[x]), txs := c.txs - {x})
  }

  /** Deletes timers that fired at or before the cutoff. */
  function DoPrune(c: State, cutoff: Instant): State {
    var timers := c.store.deadlines.timers;
    var kept := map t | t in timers && !(timers[t].firedAt.Some? && timers[t].firedAt.value <= cutoff) :: timers[t];
    c.(store := c.store.(deadlines := c.store.deadlines.(timers := kept)))
  }

  function Step(c: State, a: Action): State {
    match a
    case Receive(x, e, cmd) => if CanReceive(c, x, e, cmd) then DoReceive(c, x, e, cmd) else c
    case Claim(x, timer, began) => if CanClaim(c, x, timer, began) then DoClaim(c, x, timer, began) else c
    case Load(x) => if x in c.txs && c.txs[x].phase.Marked? then DoLoad(c, x) else c
    case Append(x) => if x in c.txs && c.txs[x].phase.Read? then DoAppend(c, x) else c
    case Enqueue(x, ids) => if x in c.txs && c.txs[x].phase.Written? then DoEnqueue(c, x, ids) else c
    case Finish(x) =>
      if x in c.txs && c.txs[x].phase.Ready? && |c.txs[x].ids| == |c.txs[x].outcome.Messages()|
      then DoFinish(c, x) else c
    case Abort(x) => Drop(c, x)
    case Clock(to) => if c.now <= to then c.(now := to) else c
    case PruneTimers(cutoff) => DoPrune(c, cutoff)
  }

  function Run(c: State, acts: seq<Action>): State {
    if acts == [] then c else Step(Run(c, acts[..|acts| - 1]), acts[|acts| - 1])
  }
}
