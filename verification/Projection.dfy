/** The browsing view: one row per seat, re-derived from the seat's stream and written under
    a version guard. What a set of projections leaves in the view does not depend on their
    order, on repeats, or on how stale some of them were. */
module Projection {
  import opened Base
  import opened Seat
  import opened EventStore
  import opened Engine

  // ---- rows ----

  /** A row of seat_availability; a free seat has no deadline. */
  datatype Row = Row(status: string, holdId: string, bookingId: string,
                     expiresAt: Option<Instant>, version: nat)

  /** seat_availability, keyed by seat. */
  type View = map<string, Row>

  datatype Availability = Availability(seatId: string, status: Status, holdId: string,
                                       bookingId: string, expiresAt: Instant, version: nat)

  /** The zero time is stored as NULL. */
  function Deadline(t: Instant): Option<Instant> {
    if t == ZERO_TIME then None else Some(t)
  }

  function RowOf(s: SeatState): Row {
    Row(StatusText(s.status), s.holdId, s.bookingId, Deadline(s.expiresAt), s.version)
  }

  /** An unknown status is refused, never read as free. */
  function ParseStatus(text: string): Option<Status> {
    if text == StatusText(Free) then Some(Free)
    else if text == StatusText(Held) then Some(Held)
    else None
  }

  /** Reads one seat: no row, the row, or the text of a status nobody knows. */
  function LoadAvailability(view: View, seat: string): Result<Option<Availability>, string> {
    if seat !in view then Ok(None)
    else
      var row := view[seat];
      match ParseStatus(row.status)
      case None => Err(row.status)
      case Some(status) =>
        Ok(Some(Availability(seat, status, row.holdId, row.bookingId,
                             if row.expiresAt.Some? then row.expiresAt.value else ZERO_TIME, row.version)))
  }

  /** Reading a row gives back the seat it was folded from, and the read fails exactly on a
      status the automaton does not have. */
  lemma RowReadsBack(view: View, seat: string, s: SeatState)
    ensures LoadAvailability(view[seat := RowOf(s)], seat) ==
      Ok(Some(Availability(seat, s.status, s.holdId, s.bookingId, s.expiresAt, s.version)))
    ensures LoadAvailability(view, seat).Err? <==>
      seat in view && forall status :: view[seat].status != StatusText(status)
  {
    assert "free"[0] == 'f' && "held"[0] == 'h';
    assert StatusText(Free) != StatusText(Held);
  }

  /** The guarded upsert: an older fold leaves the row as it is. */
  function Upserted(view: View, seat: string, row: Row): View {
    if seat in view && row.version <= view[seat].version then view else view[seat := row]
  }

  /** What one projection writes; a seat without a stream has no row. */
  function Write(view: View, seat: string, s: SeatState): View {
    if s.version == 0 then view else Upserted(view, seat, RowOf(s))
  }

  // ---- rows against streams ----

  /** Every stream is an alternating history, so every beginning of it folds. */
  ghost predicate Alternating(streams: Streams) {
    forall s | s in streams :: streams[s] != [] && Alternates(Bodies(streams[s]))
  }

  /** The seat as it was after its first n events. */
  ghost function SeatAt(streams: Streams, seat: string, n: nat): SeatState
    requires n <= Length(streams, seat)
  {
    Folded(Bodies(StreamOf(streams, seat)[..n]))
  }

  lemma SeatAtVersion(streams: Streams, seat: string, n: nat)
    requires Alternating(streams) && n <= Length(streams, seat)
    ensures Fold(Bodies(StreamOf(streams, seat)[..n])) == Ok(SeatAt(streams, seat, n))
    ensures SeatAt(streams, seat, n).version == n
  {
    var whole := StreamOf(streams, seat);
    forall i: nat | i < n ensures LegalAt(Bodies(whole[..n]), i) {
      assert LegalAt(Bodies(whole), i);
    }
    AlternatingFolds(Bodies(whole[..n]));
  }

  /** The row is the fold of exactly the first version events of its stream. */
  ghost predicate RowTrue(streams: Streams, seat: string, row: Row) {
    1 <= row.version <= Length(streams, seat) && row == RowOf(SeatAt(streams, seat, row.version))
  }

  ghost predicate ViewTrue(streams: Streams, view: View) {
    forall seat | seat in view :: RowTrue(streams, seat, view[seat])
  }

  /** A true row stays true however its stream grows. */
  lemma RowStaysTrue(streams: Streams, streams': Streams, seat: string, row: Row)
    requires RowTrue(streams, seat, row) && StreamOf(streams, seat) <= StreamOf(streams', seat)
    ensures RowTrue(streams', seat, row)
  {
    assert StreamOf(streams', seat)[..row.version] == StreamOf(streams, seat)[..row.version];
  }

  /** The fold of every non-empty stream, and nothing else. */
  ghost function Rebuilt(streams: Streams): View {
    map seat | seat in streams && Length(streams, seat) > 0 ::
      RowOf(SeatAt(streams, seat, Length(streams, seat)))
  }

  // ---- projections in any order ----

  /** One projection: the seat, and how many events its load saw. */
  datatype Call = Call(seat: string, version: nat)

  ghost predicate CallsTrue(streams: Streams, calls: seq<Call>) {
    forall c | c in calls :: c.version <= Length(streams, c.seat)
  }

  /** The view after some projections, in the order their writes landed. */
  ghost function Projected(view: View, streams: Streams, calls: seq<Call>): View
    requires CallsTrue(streams, calls)
  {
    if calls == [] then view
    else
      var n := |calls| - 1;
      Write(Projected(view, streams, calls[..n]), calls[n].seat,
            SeatAt(streams, calls[n].seat, calls[n].version))
  }

  function VersionIn(view: View, seat: string): nat {
    if seat in view then view[seat].version else 0
  }

  /** The latest version of a seat that a view or some projections of it knew. */
  ghost function Highest(view: View, calls: seq<Call>, seat: string): nat {
    if calls == [] then VersionIn(view, seat)
    else
      var n := |calls| - 1;
      var before := Highest(view, calls[..n], seat);
      if calls[n].seat == seat && before < calls[n].version then calls[n].version else before
  }

  lemma {:induction false} HighestIsReached(view: View, calls: seq<Call>, seat: string)
    ensures VersionIn(view, seat) <= Highest(view, calls, seat)
    ensures forall c | c in calls && c.seat == seat :: c.version <= Highest(view, calls, seat)
    ensures Highest(view, calls, seat) == VersionIn(view, seat) ||
      Call(seat, Highest(view, calls, seat)) in calls
  {
    if calls != [] {
      var n := |calls| - 1;
      HighestIsReached(view, calls[..n], seat);
      assert calls == calls[..n] + [calls[n]];
    }
  }

  /** The view shows each seat at the latest version known of it. */
  ghost predicate ShowsHighest(view: View, base: View, calls: seq<Call>) {
    forall seat ::
      && VersionIn(view, seat) == Highest(base, calls, seat)
      && (seat in view ==> view[seat].version > 0)
  }

  lemma WriteKeepsTruth(streams: Streams, view: View, seat: string, s: SeatState)
    requires ViewTrue(streams, view)
    requires s.version <= Length(streams, seat) && s == SeatAt(streams, seat, s.version)
    ensures ViewTrue(streams, Write(view, seat, s))
    ensures forall x | x in view :: VersionIn(view, x) <= VersionIn(Write(view, seat, s), x)
    ensures s.version <= VersionIn(Write(view, seat, s), seat)
  {
  }

  /** One more projection shows one more version. */
  lemma WriteShowsHighest(view: View, base: View, calls: seq<Call>, call: Call, s: SeatState)
    requires ShowsHighest(view, base, calls) && s.version == call.version
    ensures ShowsHighest(Write(view, call.seat, s), base, calls + [call])
  {
    var calls' := calls + [call];
    assert calls'[..|calls'| - 1] == calls;
    forall seat
      ensures VersionIn(Write(view, call.seat, s), seat) == Highest(base, calls', seat)
    {
      assert VersionIn(view, seat) == Highest(base, calls, seat);
    }
  }

  lemma {:induction false} ProjectionsShowHighest(view: View, streams: Streams, calls: seq<Call>)
    requires Alternating(streams) && ViewTrue(streams, view) && CallsTrue(streams, calls)
    ensures ViewTrue(streams, Projected(view, streams, calls))
    ensures ShowsHighest(Projected(view, streams, calls), view, calls)
  {
    if calls != [] {
      var n := |calls| - 1;
      ProjectionsShowHighest(view, streams, calls[..n]);
      SeatAtVersion(streams, calls[n].seat, calls[n].version);
      var seen := SeatAt(streams, calls[n].seat, calls[n].version);
      WriteKeepsTruth(streams, Projected(view, streams, calls[..n]), calls[n].seat, seen);
      WriteShowsHighest(Projected(view, streams, calls[..n]), view, calls[..n], calls[n], seen);
      assert calls[..n] + [calls[n]] == calls;
    }
  }

  /** True views that show every seat at the same version are the same view. */
  lemma VersionsDecide(streams: Streams, a: View, b: View)
    requires ViewTrue(streams, a) && ViewTrue(streams, b)
    requires forall seat :: VersionIn(a, seat) == VersionIn(b, seat)
    ensures a == b
  {
    assert forall seat | seat in a :: RowTrue(streams, seat, a[seat]) && VersionIn(a, seat) > 0;
    assert forall seat | seat in b :: RowTrue(streams, seat, b[seat]) && VersionIn(b, seat) > 0;
  }

  /** Neither order nor repetition matters: the same projections, in any order and any
      number of times each, leave the same view. */
  lemma OrderAndRepeatsDoNotMatter(view: View, streams: Streams, a: seq<Call>, b: seq<Call>)
    requires Alternating(streams) && ViewTrue(streams, view)
    requires CallsTrue(streams, a) && CallsTrue(streams, b)
    requires forall c :: c in a <==> c in b
    ensures Projected(view, streams, a) == Projected(view, streams, b)
  {
    ProjectionsShowHighest(view, streams, a);
    ProjectionsShowHighest(view, streams, b);
    forall seat ensures Highest(view, a, seat) == Highest(view, b, seat) {
      HighestIsReached(view, a, seat);
      HighestIsReached(view, b, seat);
    }
    VersionsDecide(streams, Projected(view, streams, a), Projected(view, streams, b));
  }

  /** Some projection read the whole stream, or the view already showed all of it. */
  ghost predicate CoversAll(streams: Streams, base: View, calls: seq<Call>) {
    forall seat | seat in streams ::
      VersionIn(base, seat) == Length(streams, seat) || Call(seat, Length(streams, seat)) in calls
  }

  lemma RebuiltShowsAll(streams: Streams)
    requires Alternating(streams)
    ensures ViewTrue(streams, Rebuilt(streams))
    ensures forall seat :: VersionIn(Rebuilt(streams), seat) == Length(streams, seat)
  {
    forall seat ensures SeatAt(streams, seat, Length(streams, seat)).version == Length(streams, seat) {
      SeatAtVersion(streams, seat, Length(streams, seat));
    }
  }

  lemma CoveredIsRebuilt(streams: Streams, view: View, base: View, calls: seq<Call>)
    requires Alternating(streams) && ViewTrue(streams, view) && ViewTrue(streams, base) && CallsTrue(streams, calls)
    requires ShowsHighest(view, base, calls)
    ensures CoversAll(streams, base, calls) <==> view == Rebuilt(streams)
  {
    RebuiltShowsAll(streams);
    CoveringIsHighest(streams, base, calls);
    var full := Rebuilt(streams);
    if forall seat :: VersionIn(view, seat) == VersionIn(full, seat) { VersionsDecide(streams, view, full); }
  }

  lemma CoveringIsHighest(streams: Streams, base: View, calls: seq<Call>)
    requires ViewTrue(streams, base) && CallsTrue(streams, calls)
    ensures CoversAll(streams, base, calls) <==>
      forall seat :: Highest(base, calls, seat) == Length(streams, seat)
  {
    forall seat
      ensures Highest(base, calls, seat) == Length(streams, seat) <==>
        seat !in streams || VersionIn(base, seat) == Length(streams, seat) ||
        Call(seat, Length(streams, seat)) in calls
    {
      HighestCovers(streams, base, calls, seat);
    }
  }

  lemma HighestCovers(streams: Streams, base: View, calls: seq<Call>, seat: string)
    requires ViewTrue(streams, base) && CallsTrue(streams, calls)
    ensures Highest(base, calls, seat) == Length(streams, seat) <==>
      seat !in streams || VersionIn(base, seat) == Length(streams, seat) ||
      Call(seat, Length(streams, seat)) in calls
  {
    HighestIsReached(base, calls, seat);
  }

  /** Projecting is rebuilding: starting from any true view, projections in any order, with
      any repeats and any staleness, end in the view a rebuild computes exactly when every
      stream has one projection that read all of it or was shown in full already. */
  lemma ProjectingIsRebuilding(view: View, streams: Streams, calls: seq<Call>)
    requires Alternating(streams) && ViewTrue(streams, view) && CallsTrue(streams, calls)
    ensures CoversAll(streams, view, calls) <==> Projected(view, streams, calls) == Rebuilt(streams)
  {
    ProjectionsShowHighest(view, streams, calls);
    CoveredIsRebuilt(streams, Projected(view, streams, calls), view, calls);
  }
}
