/** Seat decisions: the messages on a seat stream, the fold that replays them, and
    the decision functions that take a folded seat and a command. */
module Seat {
  import opened Base

  /** Every protobuf message this service can meet. Foreign stands for any other type. */
  datatype Message =
    | SeatHeld(holdId: string, bookingId: string, seatId: string, expiresAt: Option<Instant>)
    | SeatHoldReleased(holdId: string, bookingId: string, seatId: string, reason: string)
    | SeatHoldExpired(holdId: string, bookingId: string, seatId: string)
    | SeatUnavailable(holdId: string, bookingId: string, seatId: string, reason: string)
    | HoldSeat(holdId: string, bookingId: string, seatId: string, expiresAt: Option<Instant>)
    | ReleaseSeatHold(holdId: string, bookingId: string, seatId: string, reason: string)
    | Foreign(name: string)
  {
    /** Ends a hold, when it stands on a seat stream. */
    predicate EndsHold() { SeatHoldReleased? || SeatHoldExpired? }

    /** One of the three types a seat stream may contain. */
    predicate IsSeatEvent() { SeatHeld? || EndsHold() }

    predicate IsCommand() { HoldSeat? || ReleaseSeatHold? }

    function TypeName(): string {
      match this
      case SeatHeld(_, _, _, _) => "sagaflow.inventory.v1.SeatHeld"
      case SeatHoldReleased(_, _, _, _) => "sagaflow.inventory.v1.SeatHoldReleased"
      case SeatHoldExpired(_, _, _) => "sagaflow.inventory.v1.SeatHoldExpired"
      case SeatUnavailable(_, _, _, _) => "sagaflow.inventory.v1.SeatUnavailable"
      case HoldSeat(_, _, _, _) => "sagaflow.inventory.v1.HoldSeat"
      case ReleaseSeatHold(_, _, _, _) => "sagaflow.inventory.v1.ReleaseSeatHold"
      case Foreign(name) => name
    }
  }

  datatype Error = UnknownEvent(index: nat) | UnknownCommand

  /** A nil timestamp reads as the Unix epoch, so it is a deadline already past. */
  function AsTime(t: Option<Instant>): Instant {
    if t.Some? then t.value else 0
  }

  datatype Status = Free | Held

  function StatusText(s: Status): string {
    if s.Free? then "free" else "held"
  }

  datatype Timer = Timer(fireAt: Instant, token: string)

  datatype Outcome = Outcome(events: seq<Message>, replies: seq<Message>, timers: seq<Timer>) {
    /** What the outcome publishes: the events first, then the replies. */
    function Messages(): seq<Message> { events + replies }
  }

  const NOTHING := Outcome([], [], [])

  const UNUSED := SeatState(0, Free, "", "", ZERO_TIME)

  datatype SeatState = SeatState(version: nat, status: Status, holdId: string,
                                 bookingId: string, expiresAt: Instant)
  {
    predicate HeldBy(id: string) { status.Held? && holdId == id }

    function Apply(e: Message): Option<SeatState> {
      match e
      case SeatHeld(hold, booking, _, expires) =>
        Some(SeatState(version + 1, Held, hold, booking, AsTime(expires)))
      case SeatHoldReleased(_, _, _, _) => Some(SeatState(version + 1, Free, "", "", ZERO_TIME))
      case SeatHoldExpired(_, _, _) => Some(SeatState(version + 1, Free, "", "", ZERO_TIME))
      case _ => None
    }

    /** The SeatHeld that describes the live hold, for re-announcement. */
    function Announcement(seat: string): Message {
      SeatHeld(holdId, bookingId, seat, Some(expiresAt))
    }

    function Hold(cmd: Message): Outcome
      requires cmd.HoldSeat?
    {
      if HeldBy(cmd.holdId) then
        Outcome([], [Announcement(cmd.seatId)], [])
      else if !status.Free? then
        Outcome([], [SeatUnavailable(cmd.holdId, cmd.bookingId, cmd.seatId,
                                     "seat is " + StatusText(status))], [])
      else
        Outcome([SeatHeld(cmd.holdId, cmd.bookingId, cmd.seatId, cmd.expiresAt)], [],
                [Timer(AsTime(cmd.expiresAt), cmd.holdId)])
    }

    function Release(cmd: Message): Outcome
      requires cmd.ReleaseSeatHold?
    {
      var released := SeatHoldReleased(cmd.holdId, cmd.bookingId, cmd.seatId, cmd.reason);
      if !HeldBy(cmd.holdId) then Outcome([], [released], []) else Outcome([released], [], [])
    }

    function Expire(seat: string, hold: string): Outcome {
      if !HeldBy(hold) then NOTHING
      else Outcome([SeatHoldExpired(holdId, bookingId, seat)], [], [])
    }
  }

  function Decide(s: SeatState, cmd: Message): Result<Outcome, Error> {
    match cmd
    case HoldSeat(_, _, _, _) => Ok(s.Hold(cmd))
    case ReleaseSeatHold(_, _, _, _) => Ok(s.Release(cmd))
    case _ => Err(UnknownCommand)
  }

  function SeatId(cmd: Message): Result<string, Error> {
    match cmd
    case HoldSeat(_, _, seat, _) => Ok(seat)
    case ReleaseSeatHold(_, _, seat, _) => Ok(seat)
    case _ => Err(UnknownCommand)
  }

  /** Replays a stream, stopping at the first event of an unknown type. */
  function Fold(evts: seq<Message>): Result<SeatState, Error> {
    if evts == [] then Ok(UNUSED)
    else
      var n := |evts| - 1;
      match Fold(evts[..n])
      case Err(e) => Err(e)
      case Ok(s) =>
        match s.Apply(evts[n])
        case None => Err(UnknownEvent(n))
        case Some(s') => Ok(s')
  }

  /** The seat a stream folds to; one that does not fold reads as unused. */
  function Folded(evts: seq<Message>): SeatState {
    match Fold(evts)
    case Ok(s) => s
    case Err(_) => UNUSED
  }

  /** The loop of Fold: it carries the state forward one event at a time. */
  method Replay(evts: seq<Message>) returns (r: Result<SeatState, Error>)
    ensures r == Fold(evts)
  {
    var s := UNUSED;
    for i := 0 to |evts|
      invariant Fold(evts[..i]) == Ok(s)
    {
      assert evts[..i + 1][..i] == evts[..i];
      var next := s.Apply(evts[i]);
      if next.None? {
        FoldStopsAt(evts, i);
        return Err(UnknownEvent(i));
      }
      s := next.value;
    }
    assert evts[..|evts|] == evts;
    return Ok(s);
  }

  /** The first event that does not apply decides the error of the whole fold. */
  lemma {:induction false} FoldStopsAt(evts: seq<Message>, i: nat)
    requires i < |evts|
    requires Fold(evts[..i]).Ok? && Fold(evts[..i]).value.Apply(evts[i]).None?
    ensures Fold(evts) == Err(UnknownEvent(i))
    decreases |evts|
  {
    var n := |evts| - 1;
    if i < n {
      assert evts[..n][..i] == evts[..i];
      FoldStopsAt(evts[..n], i);
    }
  }

  /** The state an event leaves: it applies exactly when it is a seat event. */
  lemma ApplyMeaning(s: SeatState, e: Message)
    ensures s.Apply(e).Some? <==> e.IsSeatEvent()
    ensures e.SeatHeld? ==>
      s.Apply(e) == Some(SeatState(s.version + 1, Held, e.holdId, e.bookingId, AsTime(e.expiresAt)))
    ensures e.EndsHold() ==> s.Apply(e) == Some(SeatState(s.version + 1, Free, "", "", ZERO_TIME))
  {
  }

  /** The state the last event of a stream calls for. */
  function LastState(evts: seq<Message>): SeatState {
    if evts == [] || !evts[|evts| - 1].SeatHeld? then SeatState(|evts|, Free, "", "", ZERO_TIME)
    else
      var e := evts[|evts| - 1];
      SeatState(|evts|, Held, e.holdId, e.bookingId, AsTime(e.expiresAt))
  }

  lemma {:induction false} FoldIsLastState(evts: seq<Message>)
    ensures Fold(evts).Ok? <==> forall i | 0 <= i < |evts| :: evts[i].IsSeatEvent()
    ensures Fold(evts).Ok? ==> Fold(evts).value == LastState(evts)
  {
    if evts != [] {
      var n := |evts| - 1;
      FoldIsLastState(evts[..n]);
      if Fold(evts[..n]).Ok? { ApplyMeaning(Fold(evts[..n]).value, evts[n]); }
      assert forall i | 0 <= i < n :: evts[..n][i] == evts[i];
    }
  }

  /** What the fold means: it succeeds exactly on streams of seat events, its version
      counts them, and the last event alone decides what the seat is doing. */
  lemma FoldMeaning(evts: seq<Message>)
    ensures Fold(evts).Ok? <==> forall e | e in evts :: e.IsSeatEvent()
    ensures Fold(evts).Ok? ==> Fold(evts).value.version == |evts|
    ensures Fold(evts).Ok? ==>
      (Fold(evts).value.status.Held? <==> evts != [] && evts[|evts| - 1].SeatHeld?)
    ensures Fold(evts).Ok? && evts != [] && evts[|evts| - 1].SeatHeld? ==>
      var e := evts[|evts| - 1];
      Fold(evts).value == SeatState(|evts|, Held, e.holdId, e.bookingId, AsTime(e.expiresAt))
    ensures Fold(evts).Ok? && Fold(evts).value.status.Free? ==>
      Fold(evts).value == SeatState(|evts|, Free, "", "", ZERO_TIME)
  {
    FoldIsLastState(evts);
    assert forall i | 0 <= i < |evts| :: evts[i] in evts;
  }

  // ---- the automaton a seat stream follows ----

  /** Event i is legal where it stands: a SeatHeld only on a free seat, an ending event
      only right after the SeatHeld whose hold it names. */
  predicate LegalAt(evts: seq<Message>, i: nat)
    requires i < |evts|
  {
    if i == 0 || !evts[i - 1].SeatHeld? then evts[i].SeatHeld?
    else evts[i].EndsHold() && evts[i].holdId == evts[i - 1].holdId
  }

  predicate Alternates(evts: seq<Message>) {
    forall i: nat | i < |evts| :: LegalAt(evts, i)
  }

  /** An alternating stream holds nothing but seat events, so folding it cannot fail. */
  lemma AlternatingFolds(evts: seq<Message>)
    requires Alternates(evts)
    ensures Fold(evts).Ok? && Fold(evts).value.version == |evts|
  {
    forall e | e in evts ensures e.IsSeatEvent() {
      var i: nat :| i < |evts| && evts[i] == e;
      assert LegalAt(evts, i);
    }
    FoldMeaning(evts);
  }

  /** The shape every decision has: at most one event, a timer exactly when that event
      takes a hold, and the timer carries the hold and the deadline of the event. */
  predicate Shaped(o: Outcome) {
    && |o.events| <= 1
    && |o.Messages()| <= 1
    && |o.timers| <= |o.events|
    && (|o.events| == 1 ==> (|o.timers| == 1 <==> o.events[0].SeatHeld?))
    && (|o.timers| == 1 ==>
          o.timers[0] == Timer(AsTime(o.events[0].expiresAt), o.events[0].holdId))
  }

  /** Extending a stream by one legal event keeps it alternating. */
  lemma ExtendAlternating(evts: seq<Message>, e: Message)
    requires Alternates(evts)
    requires LegalAt(evts + [e], |evts|)
    ensures Alternates(evts + [e])
  {
    forall i: nat | i < |evts + [e]| ensures LegalAt(evts + [e], i) {
      if i < |evts| { assert LegalAt(evts, i); }
    }
  }

  /** A command decided on the fold of an alternating stream keeps it alternating, and is
      answered by exactly one message: an event if the seat changed, else one reply. */
  lemma DecideKeepsAlternation(evts: seq<Message>, cmd: Message)
    requires Alternates(evts) && cmd.IsCommand()
    ensures Fold(evts).Ok? && Decide(Fold(evts).value, cmd).Ok?
    ensures var o := Decide(Fold(evts).value, cmd).value;
      && Alternates(evts + o.events) && Shaped(o)
      && |o.events| + |o.replies| == 1 && o.Messages() == o.events + o.replies
      && (forall e | e in o.events :: e.seatId == cmd.seatId && !e.SeatHoldExpired?)
  {
    AlternatingFolds(evts);
    FoldMeaning(evts);
    var o := Decide(Fold(evts).value, cmd).value;
    if o.events == [] {
      assert evts + o.events == evts;
    } else {
      assert o.events == [o.events[0]];
      ExtendAlternating(evts, o.events[0]);
    }
  }

  /** A deadline decided on the fold of an alternating stream keeps it alternating. It
      speaks exactly when the hold it names is live, and then it ends that hold. */
  lemma ExpireKeepsAlternation(evts: seq<Message>, seat: string, hold: string)
    requires Alternates(evts)
    ensures Fold(evts).Ok?
    ensures var o := Fold(evts).value.Expire(seat, hold);
      && Alternates(evts + o.events) && Shaped(o) && o.replies == [] && o.timers == []
      && (o.events != [] <==>
            evts != [] && evts[|evts| - 1].SeatHeld? && evts[|evts| - 1].holdId == hold)
      && (o.events != [] ==>
            o.events == [SeatHoldExpired(hold, evts[|evts| - 1].bookingId, seat)])
  {
    AlternatingFolds(evts);
    FoldMeaning(evts);
    var o := Fold(evts).value.Expire(seat, hold);
    if o.events == [] {
      assert evts + o.events == evts;
    } else {
      assert o.events == [o.events[0]];
      ExtendAlternating(evts, o.events[0]);
    }
  }

  /** Two holds can never both win: once a hold is taken, whatever hold command comes next
      appends nothing. It is refused, unless it is the same hold, which is announced again
      with the deadline it already had. */
  lemma SecondHoldNeverAppends(evts: seq<Message>, first: Message, second: Message)
    requires Alternates(evts) && first.HoldSeat? && second.HoldSeat?
    requires Fold(evts).Ok? && Fold(evts).value.status.Free?
    ensures var taken := evts + Fold(evts).value.Hold(first).events;
      && Fold(taken).Ok?
      && Fold(taken).value.Hold(second).events == []
      && Fold(taken).value.Hold(second).timers == []
      && Fold(taken).value.Hold(second).replies ==
           if second.holdId == first.holdId
           then [SeatHeld(first.holdId, first.bookingId, second.seatId, Some(AsTime(first.expiresAt)))]
           else [SeatUnavailable(second.holdId, second.bookingId, second.seatId, "seat is held")]
  {
    DecideKeepsAlternation(evts, first);
    var taken := evts + Fold(evts).value.Hold(first).events;
    AlternatingFolds(taken);
    FoldMeaning(taken);
    assert "seat is " + StatusText(Held) == "seat is held";
  }

  /** A release undoes its hold, and releasing again repeats the same answer without
      touching the seat: the compensation's retry loop always ends. */
  lemma ReleaseUndoesHold(evts: seq<Message>, hold: Message, release: Message)
    requires Alternates(evts) && hold.HoldSeat? && release.ReleaseSeatHold?
    requires Fold(evts).Ok? && Fold(evts).value.status.Free? && hold.holdId == release.holdId
    ensures var taken := evts + Fold(evts).value.Hold(hold).events;
      && Fold(taken).Ok?
      && var freed := taken + Fold(taken).value.Release(release).events;
      && Fold(freed) == Ok(Fold(evts).value.(version := |evts| + 2))
      && Fold(freed).value.Release(release).events == []
      && Fold(freed).value.Release(release).Messages() == Fold(taken).value.Release(release).Messages()
  {
    DecideKeepsAlternation(evts, hold);
    var taken := evts + Fold(evts).value.Hold(hold).events;
    FoldMeaning(evts);
    AlternatingFolds(taken);
    FoldMeaning(taken);
    DecideKeepsAlternation(taken, release);
    var freed := taken + Fold(taken).value.Release(release).events;
    AlternatingFolds(freed);
    FoldMeaning(freed);
  }

  // ---- what a decision answers, read off the last event of the stream ----

  /** The stream ends in the hold with this id. */
  predicate EndsInHold(evts: seq<Message>, hold: string) {
    evts != [] && evts[|evts| - 1].SeatHeld? && evts[|evts| - 1].holdId == hold
  }

  /** A release is answered by exactly one SeatHoldReleased that repeats the command: an event
      when the stream ends in that very hold, else a reply, whoever holds the seat by then. */
  lemma ReleaseIsAlwaysReleased(evts: seq<Message>, cmd: Message)
    requires Alternates(evts) && cmd.ReleaseSeatHold?
    ensures Fold(evts).Ok?
    ensures var released := SeatHoldReleased(cmd.holdId, cmd.bookingId, cmd.seatId, cmd.reason);
      Decide(Fold(evts).value, cmd) ==
        Ok(if EndsInHold(evts, cmd.holdId) then Outcome([released], [], []) else Outcome([], [released], []))
  {
    AlternatingFolds(evts);
    FoldMeaning(evts);
  }

  /** A hold is answered by exactly one message. On a seat nobody holds it is the SeatHeld that
      repeats the command, with one timer at its deadline; on a seat this hold already has, the
      stream's own SeatHeld again; on a seat another hold has, a refusal that names the command.
      A deadline that is missing reads as the epoch. */
  lemma HoldAnswers(evts: seq<Message>, cmd: Message)
    requires Alternates(evts) && cmd.HoldSeat?
    ensures Fold(evts).Ok?
    ensures var last := if evts == [] then Foreign("") else evts[|evts| - 1];
      var due := if cmd.expiresAt.Some? then cmd.expiresAt.value else 0;
      Decide(Fold(evts).value, cmd) == Ok(
        if !last.SeatHeld? then
          Outcome([SeatHeld(cmd.holdId, cmd.bookingId, cmd.seatId, cmd.expiresAt)], [], [Timer(due, cmd.holdId)])
        else if last.holdId == cmd.holdId then
          Outcome([], [SeatHeld(last.holdId, last.bookingId, cmd.seatId,
                                Some(if last.expiresAt.Some? then last.expiresAt.value else 0))], [])
        else
          Outcome([], [SeatUnavailable(cmd.holdId, cmd.bookingId, cmd.seatId, "seat is held")], []))
  {
    AlternatingFolds(evts);
    FoldMeaning(evts);
    assert "seat is " + StatusText(Held) == "seat is held";
  }

  /** Nothing but a hold or a release is decided, and both name the seat they are for. */
  lemma OnlyCommandsAreDecided(s: SeatState, cmd: Message)
    ensures Decide(s, cmd).Ok? <==> cmd.HoldSeat? || cmd.ReleaseSeatHold?
    ensures SeatId(cmd) == if cmd.HoldSeat? || cmd.ReleaseSeatHold? then Ok(cmd.seatId) else Err(UnknownCommand)
    ensures cmd.IsCommand() <==> cmd.HoldSeat? || cmd.ReleaseSeatHold?
  {
  }
}
