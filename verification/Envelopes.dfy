/** Message identity: the envelope, its Kafka headers, and the copies a message leaves on
    its way through brokers and dead-letter queues (binary content mode, section 3.2 of the
    CloudEvents Kafka Protocol Binding v1.0.2). */
module Envelopes {
  import opened Base

  type Headers = map<string, string>

  const SPEC_VERSION := "1.0"
  const CONTENT_TYPE := "application/protobuf"

  datatype Envelope = Envelope(id: string, source: string, ceType: string, subject: string,
                               correlationId: string, causationId: string, traceParent: string)
  {
    predicate Identified() { id != "" && source != "" && ceType != "" }
  }

  datatype ParseError = MissingAttribute(key: string) | UnsupportedVersion(version: string)

  /** Go's map lookup: an absent key reads as the empty string. */
  function Get(h: Headers, key: string): string {
    if key in h then h[key] else ""
  }

  function Required(e: Envelope): Headers {
    map["ce_specversion" := SPEC_VERSION, "ce_id" := e.id, "ce_source" := e.source,
        "ce_type" := e.ceType, "content-type" := CONTENT_TYPE]
  }

  function Optional(e: Envelope): Headers {
    map["ce_subject" := e.subject, "ce_correlationid" := e.correlationId,
        "ce_causationid" := e.causationId, "traceparent" := e.traceParent]
  }

  function NonEmpty(h: Headers): Headers {
    map k | k in h && h[k] != "" :: h[k]
  }

  function Render(e: Envelope): Headers {
    Required(e) + NonEmpty(Optional(e))
  }

  /** The attributes as read, before any of them is checked. */
  function Read(h: Headers): Envelope {
    Envelope(Get(h, "ce_id"), Get(h, "ce_source"), Get(h, "ce_type"), Get(h, "ce_subject"),
             Get(h, "ce_correlationid"), Get(h, "ce_causationid"), Get(h, "traceparent"))
  }

  function Parse(h: Headers): Result<Envelope, ParseError> {
    var version := Get(h, "ce_specversion");
    if version == "" then Err(MissingAttribute("ce_specversion"))
    else if version != SPEC_VERSION then Err(UnsupportedVersion(version))
    else if Get(h, "ce_id") == "" then Err(MissingAttribute("ce_id"))
    else if Get(h, "ce_source") == "" then Err(MissingAttribute("ce_source"))
    else if Get(h, "ce_type") == "" then Err(MissingAttribute("ce_type"))
    else Ok(Read(h))
  }

  // ---- the loops ----

  /** Visits the optional attributes in map order and adds those that are not empty. */
  method AddNonEmpty(h: Headers, optional: Headers) returns (out: Headers)
    ensures out == h + NonEmpty(optional)
  {
    out := h;
    ghost var done: set<string> := {};
    var left := optional.Keys;
    while left != {}
      invariant done + left == optional.Keys && done !! left
      invariant forall k | k in done && optional[k] != "" :: k in out && out[k] == optional[k]
      invariant forall k | k !in done || optional[k] == "" ::
        (k in out <==> k in h) && (k in h ==> out[k] == h[k])
      decreases left
    {
      var key :| key in left;
      if optional[key] != "" {
        out := out[key := optional[key]];
      }
      left, done := left - {key}, done + {key};
    }
  }

  method RenderHeaders(e: Envelope) returns (h: Headers)
    ensures h == Render(e)
  {
    h := AddNonEmpty(Required(e), Optional(e));
  }

  /** Checks the required attributes in order and reports the first one that is missing. */
  method ParseHeaders(h: Headers) returns (r: Result<Envelope, ParseError>)
    ensures r == Parse(h)
  {
    var version := Get(h, "ce_specversion");
    if version == "" { return Err(MissingAttribute("ce_specversion")); }
    if version != SPEC_VERSION { return Err(UnsupportedVersion(version)); }
    var required := ["ce_id", "ce_source", "ce_type"];
    for i := 0 to |required|
      invariant forall j | 0 <= j < i :: Get(h, required[j]) != ""
    {
      assert required[0] == "ce_id" && required[1] == "ce_source" && required[2] == "ce_type";
      if Get(h, required[i]) == "" { return Err(MissingAttribute(required[i])); }
    }
    assert Get(h, required[0]) != "" && Get(h, required[1]) != "" && Get(h, required[2]) != "";
    return Ok(Read(h));
  }

  // ---- on the wire ----

  type Wire = seq<(string, string)>

  /** The pairs are the entries of h, each once, in some order. */
  predicate Lists(pairs: Wire, h: Headers) {
    && (forall i, j | 0 <= i < j < |pairs| :: pairs[i].0 != pairs[j].0)
    && (forall i | 0 <= i < |pairs| :: pairs[i].0 in h && pairs[i].1 == h[pairs[i].0])
    && (forall k | k in h :: exists i :: 0 <= i < |pairs| && pairs[i].0 == k)
  }

  /** Reading the pairs back into a map; a repeated key keeps its last value. */
  function FromWire(pairs: Wire): Headers {
    if pairs == [] then map[]
    else
      var n := |pairs| - 1;
      FromWire(pairs[..n])[pairs[n].0 := pairs[n].1]
  }

  /** Lists a message's headers in whatever order the map yields them. */
  method ToWire(h: Headers) returns (pairs: Wire)
    ensures Lists(pairs, h)
  {
    pairs := [];
    var left := h.Keys;
    while left != {}
      invariant left <= h.Keys
      invariant forall i, j | 0 <= i < j < |pairs| :: pairs[i].0 != pairs[j].0
      invariant forall i | 0 <= i < |pairs| ::
        pairs[i].0 in h && pairs[i].0 !in left && pairs[i].1 == h[pairs[i].0]
      invariant forall k | k in h && k !in left :: exists i :: 0 <= i < |pairs| && pairs[i].0 == k
      decreases left
    {
      var key :| key in left;
      ghost var before := pairs;
      pairs := pairs + [(key, h[key])];
      left := left - {key};
      forall k | k in h && k !in left ensures exists i :: 0 <= i < |pairs| && pairs[i].0 == k {
        if k == key {
          assert pairs[|before|].0 == k;
        } else {
          var i :| 0 <= i < |before| && before[i].0 == k;
          assert pairs[i].0 == k;
        }
      }
    }
  }

  method ReadWire(pairs: Wire) returns (h: Headers)
    ensures h == FromWire(pairs)
  {
    h := map[];
    for i := 0 to |pairs|
      invariant h == FromWire(pairs[..i])
    {
      assert pairs[..i + 1][..i] == pairs[..i];
      h := h[pairs[i].0 := pairs[i].1];
    }
    assert pairs[..|pairs|] == pairs;
  }

  lemma {:induction false} FromWireHoldsThePairs(pairs: Wire)
    requires forall i, j | 0 <= i < j < |pairs| :: pairs[i].0 != pairs[j].0
    ensures forall i | 0 <= i < |pairs| :: pairs[i].0 in FromWire(pairs) && FromWire(pairs)[pairs[i].0] == pairs[i].1
    ensures forall k | k in FromWire(pairs) :: exists i :: 0 <= i < |pairs| && pairs[i].0 == k
  {
    if pairs != [] {
      var n := |pairs| - 1;
      var rest := pairs[..n];
      FromWireHoldsThePairs(rest);
      forall k | k in FromWire(pairs) ensures exists i :: 0 <= i < |pairs| && pairs[i].0 == k {
        if k != pairs[n].0 {
          assert k in FromWire(rest);
          var i :| 0 <= i < |rest| && rest[i].0 == k;
          assert pairs[i].0 == k;
        }
      }
    }
  }

  /** Whatever order the headers travel in, the consumer reads the same map back. */
  lemma WireKeepsHeaders(pairs: Wire, h: Headers)
    requires Lists(pairs, h)
    ensures FromWire(pairs) == h
  {
    FromWireHoldsThePairs(pairs);
    assert FromWire(pairs).Keys == h.Keys;
  }

  // ---- copies ----

  /** Where a dead letter came from and why, as four extra headers. */
  function Provenance(topic: string, partition: string, offset: string, cause: string): Headers {
    map["sagaflow_dlq_topic" := topic, "sagaflow_dlq_partition" := partition,
        "sagaflow_dlq_offset" := offset, "sagaflow_dlq_error" := cause]
  }

  datatype Hop =
    | OverTheWire(pairs: Wire)
    | DeadLetter(topic: string, partition: string, offset: string, cause: string)

  /** The headers of the copy after one hop. Pairs that do not list the headers never
      travel, so such a hop changes nothing. */
  ghost function AfterHop(h: Headers, hop: Hop): Headers {
    match hop
    case OverTheWire(pairs) => if Lists(pairs, h) then FromWire(pairs) else h
    case DeadLetter(topic, partition, offset, cause) => h + Provenance(topic, partition, offset, cause)
  }

  ghost function AfterHops(h: Headers, hops: seq<Hop>): Headers {
    if hops == [] then h
    else AfterHop(AfterHops(h, hops[..|hops| - 1]), hops[|hops| - 1])
  }

  /** Two header maps that parse alike. */
  ghost predicate SameAttributes(h: Headers, h': Headers) {
    Get(h, "ce_specversion") == Get(h', "ce_specversion") && Read(h) == Read(h')
  }

  /** A dead letter's extra headers all start with an 's', so no other key changes. */
  lemma DeadLetterKeeps(h: Headers, extra: Headers, key: string)
    requires forall k | k in extra :: k != [] && k[0] == 's'
    requires key != [] && key[0] != 's'
    ensures Get(h + extra, key) == Get(h, key)
  {
  }

  lemma DeadLetterKeepsAttributes(h: Headers, topic: string, partition: string, offset: string, cause: string)
    ensures SameAttributes(h + Provenance(topic, partition, offset, cause), h)
  {
    var extra := Provenance(topic, partition, offset, cause);
    assert forall k | k in extra :: k[0] == 's';
    DeadLetterKeeps(h, extra, "ce_specversion");
    DeadLetterKeeps(h, extra, "ce_id");
    DeadLetterKeeps(h, extra, "ce_source");
    DeadLetterKeeps(h, extra, "ce_type");
    DeadLetterKeeps(h, extra, "ce_subject");
    DeadLetterKeeps(h, extra, "ce_correlationid");
    DeadLetterKeeps(h, extra, "ce_causationid");
    DeadLetterKeeps(h, extra, "traceparent");
  }

  lemma {:induction false} HopsKeepAttributes(h: Headers, hops: seq<Hop>)
    ensures SameAttributes(AfterHops(h, hops), h)
    decreases |hops|
  {
    if hops != [] {
      var n := |hops| - 1;
      var before := AfterHops(h, hops[..n]);
      HopsKeepAttributes(h, hops[..n]);
      match hops[n]
      case OverTheWire(pairs) =>
        if Lists(pairs, before) { WireKeepsHeaders(pairs, before); }
      case DeadLetter(topic, partition, offset, cause) =>
        DeadLetterKeepsAttributes(before, topic, partition, offset, cause);
    }
  }

  lemma RenderedAttribute(e: Envelope, key: string)
    requires key in Required(e) <==> key !in Optional(e)
    ensures Get(Render(e), key) == if key in Required(e) then Required(e)[key] else Optional(e)[key]
  {
  }

  /** No attribute name is used twice. */
  lemma NamesAreDistinct()
    ensures |"ce_id"| == 5 && |"ce_type"| == 7 && |"ce_source"| == 9 && |"ce_subject"| == 10
    ensures |"traceparent"| == 11 && |"content-type"| == 12 && |"ce_correlationid"| == 16
    ensures |"ce_specversion"| == |"ce_causationid"| == 14 && "ce_specversion" != "ce_causationid"
  {
    assert "ce_specversion"[3] == 's' && "ce_causationid"[3] == 'c';
  }

  lemma RequiredReadsBack(e: Envelope)
    ensures Get(Render(e), "ce_specversion") == SPEC_VERSION
    ensures Get(Render(e), "ce_id") == e.id
    ensures Get(Render(e), "ce_source") == e.source
    ensures Get(Render(e), "ce_type") == e.ceType
  {
    NamesAreDistinct();
    RenderedAttribute(e, "ce_specversion");
    RenderedAttribute(e, "ce_id");
    RenderedAttribute(e, "ce_source");
    RenderedAttribute(e, "ce_type");
  }

  lemma OptionalReadsBack(e: Envelope)
    ensures Get(Render(e), "ce_subject") == e.subject
    ensures Get(Render(e), "ce_correlationid") == e.correlationId
    ensures Get(Render(e), "ce_causationid") == e.causationId
    ensures Get(Render(e), "traceparent") == e.traceParent
  {
    NamesAreDistinct();
    RenderedAttribute(e, "ce_subject");
    RenderedAttribute(e, "ce_correlationid");
    RenderedAttribute(e, "ce_causationid");
    RenderedAttribute(e, "traceparent");
  }

  lemma RenderReadsBack(e: Envelope)
    ensures Get(Render(e), "ce_specversion") == SPEC_VERSION
    ensures Read(Render(e)) == e
  {
    RequiredReadsBack(e);
    OptionalReadsBack(e);
  }

  /** Every copy keeps its identity: after any number of trips over the wire and any number
      of dead-letterings, the copy parses to the envelope it was rendered from. An envelope
      parses back at all exactly when its id, source and type are not empty. */
  lemma EveryCopyKeepsItsIdentity(e: Envelope, hops: seq<Hop>)
    ensures Parse(AfterHops(Render(e), hops)).Ok? <==> e.Identified()
    ensures e.Identified() ==> Parse(AfterHops(Render(e), hops)) == Ok(e)
  {
    RenderReadsBack(e);
    HopsKeepAttributes(Render(e), hops);
  }

  /** Parsing takes exactly what rendering would write: a parsed envelope renders headers
      that parse to it again, whatever else the record carried. */
  lemma ParsedEnvelopeRendersBack(h: Headers)
    requires Parse(h).Ok?
    ensures Parse(h).value.Identified()
    ensures Parse(Render(Parse(h).value)) == Parse(h)
  {
    RenderReadsBack(Parse(h).value);
  }

  // ---- header by header ----

  const REQUIRED_ATTRIBUTES := ["ce_specversion", "ce_id", "ce_source", "ce_type"]

  /** What a consumer makes of headers: an envelope exactly when they are of version 1.0 and
      name an id, a source and a type; else the first attribute missing, where a version other
      than 1.0 is refused before anything after it is looked at. */
  lemma ParseVerdicts(h: Headers)
    ensures Parse(h).Ok? <==> Get(h, "ce_specversion") == "1.0" && Read(h).Identified()
    ensures Parse(h).Ok? ==> Parse(h).value == Read(h)
    ensures forall v :: Parse(h) == Err(UnsupportedVersion(v)) <==>
      "ce_specversion" in h && v == h["ce_specversion"] && v != "" && v != "1.0"
    ensures forall key :: Parse(h) == Err(MissingAttribute(key)) <==> FirstMissing(h, key)
  {
    var r := REQUIRED_ATTRIBUTES;
    assert r[0] == "ce_specversion" && r[1] == "ce_id" && r[2] == "ce_source" && r[3] == "ce_type";
    forall key ensures Parse(h) == Err(MissingAttribute(key)) <==> FirstMissing(h, key) {
      if Parse(h) == Err(MissingAttribute(key)) {
        assert MissingAt(h, 0, key) || MissingAt(h, 1, key) || MissingAt(h, 2, key) || MissingAt(h, 3, key);
      }
    }
  }

  /** Attribute i is missing, none before it is, and the version, when it comes before, is 1.0. */
  ghost predicate MissingAt(h: Headers, i: nat, key: string)
    requires i < 4
  {
    && key == REQUIRED_ATTRIBUTES[i] && Get(h, key) == ""
    && (forall j: nat | j < i :: Get(h, REQUIRED_ATTRIBUTES[j]) != "")
    && (i > 0 ==> Get(h, "ce_specversion") == "1.0")
  }

  ghost predicate FirstMissing(h: Headers, key: string) {
    exists i: nat :: i < 4 && MissingAt(h, i, key)
  }

  /** The headers a message travels with: five always, four more where the envelope has them,
      and nothing else. */
  lemma HeadersOnTheWire(e: Envelope)
    ensures forall k :: k in Render(e) <==>
      || k == "ce_specversion" || k == "ce_id" || k == "ce_source" || k == "ce_type" || k == "content-type"
      || (k == "ce_subject" && e.subject != "") || (k == "ce_correlationid" && e.correlationId != "")
      || (k == "ce_causationid" && e.causationId != "") || (k == "traceparent" && e.traceParent != "")
    ensures Get(Render(e), "ce_specversion") == "1.0" && Get(Render(e), "content-type") == "application/protobuf"
    ensures Get(Render(e), "ce_id") == e.id && Get(Render(e), "ce_source") == e.source
    ensures Get(Render(e), "ce_type") == e.ceType && Get(Render(e), "ce_subject") == e.subject
    ensures Get(Render(e), "ce_correlationid") == e.correlationId
    ensures Get(Render(e), "ce_causationid") == e.causationId && Get(Render(e), "traceparent") == e.traceParent
  {
    NamesAreDistinct();
    RequiredReadsBack(e);
    OptionalReadsBack(e);
    RenderedAttribute(e, "content-type");
  }

  /** A dead letter says where it came from and why, and changes no other header. */
  lemma ProvenanceReadsBack(h: Headers, topic: string, partition: string, offset: string, cause: string)
    ensures var letter := h + Provenance(topic, partition, offset, cause);
      && Get(letter, "sagaflow_dlq_topic") == topic && Get(letter, "sagaflow_dlq_partition") == partition
      && Get(letter, "sagaflow_dlq_offset") == offset && Get(letter, "sagaflow_dlq_error") == cause
      && (forall k | k != "sagaflow_dlq_topic" && k != "sagaflow_dlq_partition" &&
                     k != "sagaflow_dlq_offset" && k != "sagaflow_dlq_error" ::
            (k in letter <==> k in h) && Get(letter, k) == Get(h, k))
  {
    assert "sagaflow_dlq_offset"[13] == 'o' && "sagaflow_dlq_error"[13] == 'e' && "sagaflow_dlq_topic"[13] == 't';
    assert "sagaflow_dlq_partition"[13] == 'p';
  }
}
