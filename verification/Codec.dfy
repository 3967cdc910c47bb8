/**
 * The event codec: how a domain event becomes bytes in the store and how the
 * two readers (the actor, and the projections and process managers) get it back.
 *
 * JSON text and UUID text are abstract: a `Wire` carries the printers and
 * parsers, and `Lawful` says what the codec relies on.
 */
module Codec {
  import opened Prelude

  datatype Json =
    | Null
    | Bool(b: bool)
    | Num(n: int)
    | Str(s: string)
    | Arr(items: seq<Json>)
    | Obj(fields: map<string, Json>)

  type Bytes = seq<bv8>

  type Uuid = nat

  datatype Wire = Wire(
    render: Json -> Bytes,
    parse: Bytes -> Option<Json>,
    showUuid: Uuid -> string,
    readUuid: string -> Option<Uuid>)
  {
    ghost predicate Lawful() {
      && (forall j: Json :: render(j) != [] && parse(render(j)) == Some(j))
      && (forall u: Uuid :: readUuid(showUuid(u)) == Some(u))
    }
  }

  datatype Context = Context(
    actor: Option<string>,
    correlationId: Option<string>,
    metadata: Option<Json>,
    sourceDevice: Option<string>)

  datatype Identity = Identity(aggregateType: string, instanceId: string)

  datatype Metadata = Metadata(
    identity: Identity,
    actor: Option<string>,
    correlationId: Option<string>,
    sourceDevice: Option<string>)

  datatype Proposed = Proposed(eventId: Uuid, eventType: string, payload: Json, metadata: Metadata)

  datatype ProtoEvent = ProtoEvent(eventId: string, eventType: string, metadata: Bytes, payload: Bytes)

  datatype Recorded = Recorded(
    eventId: string,
    streamId: string,
    version: nat,
    position: nat,
    eventType: string,
    metadata: Bytes,
    payload: Bytes,
    recordedAt: nat)

  datatype StoredEvent = StoredEvent(
    eventId: Uuid,
    streamId: Uuid,
    identity: Identity,
    version: nat,
    position: nat,
    eventType: string,
    payload: Json,
    metadata: Json,
    recordedAt: nat)

  /** What the encoder needs of a serialized event; anything else makes it panic. */
  predicate Tagged(j: Json) {
    && j.Obj?
    && "type" in j.fields
    && j.fields["type"].Str?
  }

  function Encode(tagged: Json, ctx: Context, who: Identity, id: Uuid): Proposed
    requires Tagged(tagged)
  {
    Proposed(
      id,
      tagged.fields["type"].s,
      if "data" in tagged.fields then tagged.fields["data"] else Null,
      Metadata(who, ctx.actor, ctx.correlationId, ctx.sourceDevice))
  }

  function Optional(key: string, value: Option<string>): map<string, Json> {
    match value
    case None => map[]
    case Some(s) => map[key := Str(s)]
  }

  function MetadataJson(m: Metadata): Json {
    Obj(map["aggregate_type" := Str(m.identity.aggregateType), "instance_id" := Str(m.identity.instanceId)]
        + Optional("actor", m.actor)
        + Optional("correlation_id", m.correlationId)
        + Optional("source_device", m.sourceDevice))
  }

  function ToProto(w: Wire, p: Proposed): ProtoEvent {
    ProtoEvent(w.showUuid(p.eventId), p.eventType, w.render(MetadataJson(p.metadata)), w.render(p.payload))
  }

  /** The server keeps the four proposed fields and assigns the rest. */
  predicate Records(p: ProtoEvent, r: Recorded) {
    && r.eventId == p.eventId
    && r.eventType == p.eventType
    && r.metadata == p.metadata
    && r.payload == p.payload
  }

  function ParsePayload(w: Wire, payload: Bytes): Option<Json> {
    if payload == [] then Some(Null) else w.parse(payload)
  }

  /** The adjacently tagged envelope the actor rebuilds before deserializing. */
  function DecodeEnvelope(w: Wire, r: Recorded): Option<Json> {
    match ParsePayload(w, r.payload)
    case None => None
    case Some(payload) =>
      Some(Obj(
             if payload.Null? then map["type" := Str(r.eventType)]
             else map["type" := Str(r.eventType), "data" := payload]))
  }

  function NonEmptyText(j: Json, key: string): Option<string> {
    if j.Obj? && key in j.fields && j.fields[key].Str? && j.fields[key].s != ""
    then Some(j.fields[key].s)
    else None
  }

  function DecodeStored(w: Wire, r: Recorded): Option<StoredEvent> {
    match w.parse(r.metadata)
    case None => None
    case Some(meta) =>
      match (NonEmptyText(meta, "aggregate_type"), NonEmptyText(meta, "instance_id"),
             w.readUuid(r.eventId), w.readUuid(r.streamId), ParsePayload(w, r.payload))
      case (Some(aggregateType), Some(instanceId), Some(eventId), Some(streamId), Some(payload)) =>
        Some(StoredEvent(eventId, streamId, Identity(aggregateType, instanceId), r.version, r.position,
                         r.eventType, payload, meta, r.recordedAt))
      case _ => None
  }

  /** The envelope a reader can still see: the type, and the data unless it is null. */
  function Visible(tagged: Json): Json
    requires Tagged(tagged)
  {
    Obj(map key | key in tagged.fields
        && (key == "type" || (key == "data" && !tagged.fields[key].Null?)) :: tagged.fields[key])
  }

  /**
   * Write then read on the actor's side: of the envelope its type and its
   * non-null `data` survive. So it comes back unchanged exactly when it is
   * adjacently tagged, with no third field, and had no null `data`.
   */
  lemma EnvelopeRoundTrip(w: Wire, tagged: Json, ctx: Context, who: Identity, id: Uuid, r: Recorded)
    requires w.Lawful() && Tagged(tagged)
    requires Records(ToProto(w, Encode(tagged, ctx, who, id)), r)
    ensures DecodeEnvelope(w, r) == Some(Visible(tagged))
    ensures DecodeEnvelope(w, r) == Some(tagged) <==>
            tagged.fields.Keys <= {"type", "data"} && !("data" in tagged.fields && tagged.fields["data"].Null?)
  {
    var p := Encode(tagged, ctx, who, id);
    assert w.parse(r.payload) == Some(p.payload);
    assert DecodeEnvelope(w, r).value.fields == Visible(tagged).fields;
    if tagged.fields.Keys <= {"type", "data"} && !("data" in tagged.fields && tagged.fields["data"].Null?) {
      assert Visible(tagged).fields == tagged.fields;
    } else {
      var lost :| lost in tagged.fields && lost !in Visible(tagged).fields;
    }
  }

  /** An object with this text under the key, or without the key. */
  predicate Carries(j: Json, key: string, value: Option<string>) {
    j.Obj? && if value.Some? then key in j.fields && j.fields[key] == Str(value.value) else key !in j.fields
  }

  /** Which events of other clients the actor's decoder can still read, and as what. */
  lemma ForeignEnvelopes(w: Wire, r: Recorded)
    ensures DecodeEnvelope(w, r).Some? <==> r.payload == [] || w.parse(r.payload).Some?
    ensures DecodeEnvelope(w, r).Some? ==>
              var envelope := DecodeEnvelope(w, r).value;
              && Carries(envelope, "type", Some(r.eventType))
              && envelope.fields.Keys <= {"type", "data"}
              && ("data" in envelope.fields <==> r.payload != [] && !w.parse(r.payload).value.Null?)
              && ("data" in envelope.fields ==> envelope.fields["data"] == w.parse(r.payload).value)
  {
  }

  /** Which events of other clients the consumers do not skip, and what they see of them. */
  lemma ForeignEvents(w: Wire, r: Recorded)
    ensures DecodeStored(w, r).Some? <==>
            && w.parse(r.metadata).Some?
            && (exists text :: text != "" && Carries(w.parse(r.metadata).value, "aggregate_type", Some(text)))
            && (exists text :: text != "" && Carries(w.parse(r.metadata).value, "instance_id", Some(text)))
            && w.readUuid(r.eventId).Some? && w.readUuid(r.streamId).Some?
            && (r.payload == [] || w.parse(r.payload).Some?)
    ensures DecodeStored(w, r).Some? ==>
              var e := DecodeStored(w, r).value;
              && Some(e.eventId) == w.readUuid(r.eventId) && Some(e.streamId) == w.readUuid(r.streamId)
              && Carries(e.metadata, "aggregate_type", Some(e.identity.aggregateType))
              && Carries(e.metadata, "instance_id", Some(e.identity.instanceId))
              && Some(e.metadata) == w.parse(r.metadata)
              && e.payload == (if r.payload == [] then Null else w.parse(r.payload).value)
              && (e.version, e.position, e.eventType, e.recordedAt)
                 == (r.version, r.position, r.eventType, r.recordedAt)
  {
    var meta := w.parse(r.metadata);
    if DecodeStored(w, r).Some? {
      var who := DecodeStored(w, r).value.identity;
      assert Carries(meta.value, "aggregate_type", Some(who.aggregateType));
      assert Carries(meta.value, "instance_id", Some(who.instanceId));
    }
  }

  /**
   * Write then read on the consumers' side: an event written by this client is
   * decoded, with its identity, type, payload and metadata intact, exactly when its
   * aggregate type and instance id are both non-empty.
   */
  lemma StoredRoundTrip(w: Wire, tagged: Json, ctx: Context, who: Identity, id: Uuid, stream: Uuid, r: Recorded)
    requires w.Lawful() && Tagged(tagged)
    requires Records(ToProto(w, Encode(tagged, ctx, who, id)), r) && r.streamId == w.showUuid(stream)
    ensures DecodeStored(w, r).Some? <==> who.aggregateType != "" && who.instanceId != ""
    ensures DecodeStored(w, r).Some? ==>
              var e := DecodeStored(w, r).value;
              && e.eventId == id && e.streamId == stream && e.identity == who
              && e.version == r.version && e.position == r.position && e.recordedAt == r.recordedAt
              && Str(e.eventType) == tagged.fields["type"]
              && e.payload == (if "data" in tagged.fields then tagged.fields["data"] else Null)
              && e.metadata == MetadataJson(Metadata(who, ctx.actor, ctx.correlationId, ctx.sourceDevice))
              && Carries(e.metadata, "aggregate_type", Some(who.aggregateType))
              && Carries(e.metadata, "instance_id", Some(who.instanceId))
              && Carries(e.metadata, "actor", ctx.actor)
              && Carries(e.metadata, "correlation_id", ctx.correlationId)
              && Carries(e.metadata, "source_device", ctx.sourceDevice)
  {
    var p := Encode(tagged, ctx, who, id);
    assert w.parse(r.payload) == Some(p.payload);
    assert w.parse(r.metadata) == Some(MetadataJson(p.metadata));
    var fields := MetadataJson(p.metadata).fields;
    assert fields["aggregate_type"] == Str(who.aggregateType) && fields["instance_id"] == Str(who.instanceId);
  }

  lemma MetadataKeys(m: Metadata)
    ensures MetadataJson(m).Obj?
    ensures MetadataJson(m).fields.Keys ==
            {"aggregate_type", "instance_id"}
            + (if m.actor.Some? then {"actor"} else {})
            + (if m.correlationId.Some? then {"correlation_id"} else {})
            + (if m.sourceDevice.Some? then {"source_device"} else {})
  {
  }

  /**
   * `CommandContext::metadata` reaches no reader: two contexts that differ only
   * there are encoded alike, and what the consumers decode has exactly the keys
   * of the identity and of the three other context fields.
   */
  lemma ContextMetadataIsDropped(w: Wire, tagged: Json, ctx: Context, other: Option<Json>, who: Identity, id: Uuid,
                                 stream: Uuid, r: Recorded)
    requires w.Lawful() && Tagged(tagged)
    requires Records(ToProto(w, Encode(tagged, ctx, who, id)), r) && r.streamId == w.showUuid(stream)
    ensures Encode(tagged, ctx, who, id) == Encode(tagged, ctx.(metadata := other), who, id)
    ensures DecodeStored(w, r).Some? ==>
              && DecodeStored(w, r).value.metadata.Obj?
              && DecodeStored(w, r).value.metadata.fields.Keys ==
                 {"aggregate_type", "instance_id"}
                 + (if ctx.actor.Some? then {"actor"} else {})
                 + (if ctx.correlationId.Some? then {"correlation_id"} else {})
                 + (if ctx.sourceDevice.Some? then {"source_device"} else {})
  {
    hide DecodeStored, MetadataJson, Records, ToProto;
    StoredRoundTrip(w, tagged, ctx, who, id, stream, r);
    MetadataKeys(Metadata(who, ctx.actor, ctx.correlationId, ctx.sourceDevice));
  }
}
