/** The event table: rows keyed by (stream, version), the key the UNIQUE index makes
    unique. Append checks only that key; streams without gaps are a consequence of how
    its callers choose the expected version. */
module EventStore {
  import opened Base
  import opened Seat

  /** What travels with an event: the flow it belongs to and the message that caused it. */
  datatype Meta = Meta(correlationId: string, causationId: string)

  const NO_META := Meta("", "")

  datatype Recorded = Recorded(body: Message, meta: Meta, recordedAt: Instant)

  datatype Key = Key(stream: string, version: int)

  type Table = map<Key, Recorded>

  /** The streams as whole histories, which the table stores row by row. */
  type Streams = map<string, seq<Recorded>>

  function StreamOf(streams: Streams, s: string): seq<Recorded> {
    if s in streams then streams[s] else []
  }

  function Bodies(recs: seq<Recorded>): (r: seq<Message>)
    ensures |r| == |recs| && forall i | 0 <= i < |recs| :: r[i] == recs[i].body
  {
    seq(|recs|, i requires 0 <= i < |recs| => recs[i].body)
  }

  // ---- append ----

  /** The rows one append inserts: versions expected+1, expected+2, ... */
  function RowsAt(stream: string, expected: int, evts: seq<Recorded>): (t: Table)
    ensures forall k :: k in t <==> k.stream == stream && expected < k.version <= expected + |evts|
    ensures forall k | k in t :: t[k] == evts[k.version - expected - 1]
  {
    if evts == [] then map[]
    else
      var n := |evts| - 1;
      RowsAt(stream, expected, evts[..n])[Key(stream, expected + 1 + n) := evts[n]]
  }

  predicate Taken(t: Table, stream: string, expected: int, n: nat) {
    exists v | expected < v <= expected + n :: Key(stream, v) in t
  }

  /** None is a version conflict: some row of the append is already there. */
  function Appended(t: Table, stream: string, expected: int, evts: seq<Recorded>): Option<Table> {
    if Taken(t, stream, expected, |evts|) then None else Some(t + RowsAt(stream, expected, evts))
  }

  // ---- load ----

  function Versions(t: Table, stream: string): set<int> {
    set k | k in t && k.stream == stream :: k.version
  }

  /** The rows at the given versions, in version order. */
  function InOrder(t: Table, stream: string, versions: set<int>): (r: seq<Recorded>)
    requires forall v | v in versions :: Key(stream, v) in t
    ensures |r| == |versions|
    decreases |versions|
  {
    if |versions| == 0 then []
    else
      var last := Max(versions);
      InOrder(t, stream, versions - {last}) + [t[Key(stream, last)]]
  }

  function Loaded(t: Table, stream: string): seq<Recorded> {
    InOrder(t, stream, Versions(t, stream))
  }

  // ---- the table as streams without gaps ----

  /** Every stream's rows carry exactly the versions 1..n, in the order of its history. */
  ghost predicate Stores(t: Table, streams: Streams) {
    && (forall k :: k in t <==> 1 <= k.version <= |StreamOf(streams, k.stream)|)
    && (forall k | k in t :: t[k] == StreamOf(streams, k.stream)[k.version - 1])
  }

  lemma {:induction false} InOrderOfPrefix(t: Table, stream: string, n: nat, history: seq<Recorded>,
                                           versions: set<int>)
    requires n <= |history|
    requires forall v :: v in versions <==> 1 <= v <= n
    requires forall v | 1 <= v <= |history| :: Key(stream, v) in t && t[Key(stream, v)] == history[v - 1]
    ensures InOrder(t, stream, versions) == history[..n]
    decreases n
  {
    if n == 0 {
      assert versions == {};
    } else {
      assert n in versions;
      assert Max(versions) == n;
      InOrderOfPrefix(t, stream, n - 1, history, versions - {n});
      assert history[..n] == history[..n - 1] + [history[n - 1]];
    }
  }

  /** Loading a stream from the table returns its whole history, oldest first. */
  lemma LoadReadsTheStream(t: Table, streams: Streams, stream: string)
    requires Stores(t, streams)
    ensures Loaded(t, stream) == StreamOf(streams, stream)
  {
    var history := StreamOf(streams, stream);
    var versions := Versions(t, stream);
    forall v ensures v in versions <==> 1 <= v <= |history| {
      assert v in versions <==> Key(stream, v) in t;
    }
    InOrderOfPrefix(t, stream, |history|, history, versions);
    assert history[..|history|] == history;
  }

  /** With an expected version the stream has reached, an append succeeds exactly when it
      is still the stream's version, and then it extends the stream at its end. */
  lemma AppendExtendsTheStream(t: Table, streams: Streams, stream: string, expected: nat,
                               evts: seq<Recorded>)
    requires Stores(t, streams) && evts != []
    requires expected <= |StreamOf(streams, stream)|
    ensures Appended(t, stream, expected, evts).Some? <==> expected == |StreamOf(streams, stream)|
    ensures Appended(t, stream, expected, evts).Some? ==>
      Stores(Appended(t, stream, expected, evts).value,
             streams[stream := StreamOf(streams, stream) + evts])
  {
    var history := StreamOf(streams, stream);
    if expected < |history| {
      assert Key(stream, expected + 1) in t;
    } else {
      assert forall v | expected < v <= expected + |evts| :: Key(stream, v) !in t;
      AppendAtTheEnd(t, streams, stream, evts);
    }
  }

  lemma AppendAtTheEnd(t: Table, streams: Streams, stream: string, evts: seq<Recorded>)
    requires Stores(t, streams)
    ensures Stores(t + RowsAt(stream, |StreamOf(streams, stream)|, evts),
                   streams[stream := StreamOf(streams, stream) + evts])
  {
    var history := StreamOf(streams, stream);
    var rows := RowsAt(stream, |history|, evts);
    var t', streams' := t + rows, streams[stream := history + evts];
    forall k ensures k in t' <==> 1 <= k.version <= |StreamOf(streams', k.stream)| {
      if k.stream != stream { assert StreamOf(streams', k.stream) == StreamOf(streams, k.stream); }
    }
    forall k | k in t' ensures t'[k] == StreamOf(streams', k.stream)[k.version - 1] {
      if k.stream != stream { assert StreamOf(streams', k.stream) == StreamOf(streams, k.stream); }
    }
  }

  /** The append alone guards nothing else: an expected version nobody loaded leaves a gap
      that no history explains. */
  lemma AppendAloneAllowsGaps(e: Recorded, streams: Streams)
    ensures Appended(map[], "seat", 5, [e]).Some?
    ensures !Stores(Appended(map[], "seat", 5, [e]).value, streams)
  {
    var t := Appended(map[], "seat", 5, [e]).value;
    assert Key("seat", 6) in t && Key("seat", 1) !in t;
  }

  /** Fills the rows of one append, one event at a time. */
  method FillRows(stream: string, expected: int, evts: seq<Recorded>) returns (t: Table)
    ensures t == RowsAt(stream, expected, evts)
  {
    t := map[];
    for i := 0 to |evts|
      invariant t == RowsAt(stream, expected, evts[..i])
    {
      assert evts[..i + 1][..i] == evts[..i];
      t := t[Key(stream, expected + 1 + i) := evts[i]];
    }
    assert evts[..|evts|] == evts;
  }

  /** Reads a stream row by row in version order. */
  method Read(t: Table, stream: string) returns (out: seq<Recorded>)
    ensures out == Loaded(t, stream)
  {
    var left := Versions(t, stream);
    out := [];
    while left != {}
      invariant forall v | v in left :: Key(stream, v) in t
      invariant InOrder(t, stream, left) + out == Loaded(t, stream)
      decreases |left|
    {
      var last := Max(left);
      out := [t[Key(stream, last)]] + out;
      left := left - {last};
    }
  }

  /** DISTINCT stream ids. */
  function StreamIds(t: Table): set<string> {
    set k | k in t :: k.stream
  }
}
