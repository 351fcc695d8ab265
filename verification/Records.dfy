/** What a partition holds and what it means for a record to be settled: its command is
    consumed, or a dead letter carries it. */
module Records {
  import opened Base
  import opened Seat
  import opened Envelopes
  import opened Engine

  /** One partition of one topic. */
  datatype Place = Place(topic: string, partition: nat)

  /** A record as polled. The payload is what the decoder makes of its bytes. */
  datatype Record = Record(place: Place, offset: nat, key: string, wire: Wire, payload: Option<Message>)

  datatype Letter = Letter(topic: string, key: string, wire: Wire, payload: Option<Message>)

  /** The record's command is consumed. */
  predicate Applied(db: State, r: Record) {
    var parsed := Parse(FromWire(r.wire));
    parsed.Ok? && KeyOf(parsed.value) in db.store.mail.inbox
  }

  function Digit(n: nat): char
    requires n < 10
  {
    "0123456789"[n]
  }

  function Decimal(n: nat): (s: string)
    ensures |s| > 0
  {
    if n < 10 then [Digit(n)] else Decimal(n / 10) + [Digit(n % 10)]
  }

  /** The letter carries the record: same key, same payload, and all its headers beside the
      four that say where it came from. */
  predicate Carries(d: Letter, r: Record, cause: string) {
    && d.topic == r.place.topic + ".dlq" && d.key == r.key && d.payload == r.payload
    && Lists(d.wire, FromWire(r.wire) +
             Provenance(r.place.topic, Decimal(r.place.partition), Decimal(r.offset), cause))
  }

  ghost predicate DeadLettered(letters: seq<Letter>, r: Record) {
    exists i, cause :: 0 <= i < |letters| && Carries(letters[i], r, cause)
  }

  /** A dead letter parses as the record it carries, so a replay has the same inbox key. */
  lemma LetterKeepsIdentity(d: Letter, r: Record, cause: string)
    requires Carries(d, r, cause)
    ensures Parse(FromWire(d.wire)) == Parse(FromWire(r.wire))
  {
    var topic, partition, offset := r.place.topic, Decimal(r.place.partition), Decimal(r.offset);
    WireKeepsHeaders(d.wire, FromWire(r.wire) + Provenance(topic, partition, offset, cause));
    DeadLetterKeepsAttributes(FromWire(r.wire), topic, partition, offset, cause);
  }

  ghost predicate Settled(db: State, letters: seq<Letter>, r: Record) {
    Applied(db, r) || DeadLettered(letters, r)
  }

  lemma StaysSettled(a: State, b: State, ls: seq<Letter>, ls': seq<Letter>, r: Record)
    requires Settled(a, ls, r) && a.store.mail.inbox <= b.store.mail.inbox && ls <= ls'
    ensures Settled(b, ls', r)
  {
    if DeadLettered(ls, r) {
      var i, cause :| 0 <= i < |ls| && Carries(ls[i], r, cause);
      assert Carries(ls'[i], r, cause);
    }
  }

  /** No redelivery can help: no CloudEvent, no known message, or no command. */
  predicate Hopeless(r: Record) {
    Parse(FromWire(r.wire)).Err? || r.payload.None? || !r.payload.value.IsCommand()
  }

  // ---- one letter, one record ----

  /** The number a string of decimal digits stands for. */
  function ValueOf(s: string): int {
    if s == "" then 0 else ValueOf(s[..|s| - 1]) * 10 + (s[|s| - 1] as int - '0' as int)
  }

  lemma DigitIs(n: nat)
    requires n < 10
    ensures Digit(n) as int == '0' as int + n
  {
    assert "0123456789"[n] as int == 48 + n;
  }

  /** A decimal is read back as the number it was written for. */
  lemma {:induction false} DecimalReadsBack(n: nat)
    ensures ValueOf(Decimal(n)) == n
    ensures forall c | c in Decimal(n) :: '0' <= c <= '9'
  {
    DigitIs(n % 10);
    if n < 10 {
      assert Decimal(n)[..0] == "";
    } else {
      DecimalReadsBack(n / 10);
      assert Decimal(n)[..|Decimal(n)| - 1] == Decimal(n / 10);
    }
  }

  /** A letter goes to its topic's dead-letter topic and says in its headers which record it
      carries and why; every other header is the record's own. */
  lemma LetterSaysWhereItIsFrom(d: Letter, r: Record, cause: string)
    requires Carries(d, r, cause)
    ensures d.topic == r.place.topic + ".dlq" && d.key == r.key && d.payload == r.payload
    ensures var h := FromWire(d.wire);
      && Get(h, "sagaflow_dlq_topic") == r.place.topic && Get(h, "sagaflow_dlq_error") == cause
      && ValueOf(Get(h, "sagaflow_dlq_partition")) == r.place.partition
      && ValueOf(Get(h, "sagaflow_dlq_offset")) == r.offset
      && (forall k | k != "sagaflow_dlq_topic" && k != "sagaflow_dlq_partition" &&
                     k != "sagaflow_dlq_offset" && k != "sagaflow_dlq_error" ::
            (k in h <==> k in FromWire(r.wire)) && Get(h, k) == Get(FromWire(r.wire), k))
  {
    var partition, offset := Decimal(r.place.partition), Decimal(r.offset);
    WireKeepsHeaders(d.wire, FromWire(r.wire) + Provenance(r.place.topic, partition, offset, cause));
    ProvenanceReadsBack(FromWire(r.wire), r.place.topic, partition, offset, cause);
    DecimalReadsBack(r.place.partition);
    DecimalReadsBack(r.offset);
  }

  /** So one letter never carries records of two places or two offsets. */
  lemma LetterNamesItsRecord(d: Letter, r: Record, cause: string, q: Record, cause': string)
    requires Carries(d, r, cause) && Carries(d, q, cause')
    ensures r.place == q.place && r.offset == q.offset && cause == cause'
  {
    LetterSaysWhereItIsFrom(d, r, cause);
    LetterSaysWhereItIsFrom(d, q, cause');
  }

  /** Any header map can be listed. */
  lemma {:induction false} SomeListing(h: Headers) returns (pairs: Wire)
    ensures Lists(pairs, h)
    decreases |h|
  {
    if h.Keys == {} {
      pairs := [];
    } else {
      var key :| key in h;
      var rest := h - {key};
      assert rest.Keys == h.Keys - {key} && |rest.Keys| == |rest| && |h.Keys| == |h|;
      var before := SomeListing(rest);
      pairs := before + [(key, h[key])];
      OneMoreListed(h, key, before);
    }
  }

  lemma OneMoreListed(h: Headers, key: string, before: Wire)
    requires key in h && Lists(before, h - {key})
    ensures Lists(before + [(key, h[key])], h)
  {
    var pairs := before + [(key, h[key])];
    forall k | k in h ensures exists i :: 0 <= i < |pairs| && pairs[i].0 == k {
      if k == key {
        assert pairs[|before|].0 == k;
      } else {
        assert k in h - {key};
        var i :| 0 <= i < |before| && before[i].0 == k;
        assert pairs[i].0 == k;
      }
    }
  }

  /** Every record has a dead letter. */
  lemma SomeLetter(r: Record, cause: string) returns (d: Letter)
    ensures Carries(d, r, cause)
  {
    var wire := SomeListing(FromWire(r.wire) +
      Provenance(r.place.topic, Decimal(r.place.partition), Decimal(r.offset), cause));
    d := Letter(r.place.topic + ".dlq", r.key, wire, r.payload);
  }
}
