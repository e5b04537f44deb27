/**
 * Decoding of the bodies the browser SDK posts over the bridge into the
 * typed messages the native side forwards: a log, a RUM event, or a
 * session-replay record bound to the controller that received it.
 */
module WebViewMessages {
  import opened Wrappers
  import opened Json

  /** The `view` descriptor of a record; only its `id` is read. */
  datatype ViewDescriptor = ViewDescriptor(id: string)

  /** A session-replay record: the view it belongs to, the receiving controller's slot, the raw event. */
  datatype WebViewRecord = WebViewRecord(view: ViewDescriptor, slotId: string, event: JsonObject)

  datatype WebViewMessage =
    | Log(event: JsonObject)
    | Rum(event: JsonObject)
    | Record(record: WebViewRecord)

  /** The top-level members of a body that decoding reads; `tags` is not among them. */
  datatype Envelope = Envelope(eventType: string, event: JsonObject, view: Option<JsonObject>)

  /** A body is an object with a string `eventType` and an object `event`; `view` is kept when it is an object. */
  function ParseEnvelope(body: Json): Option<Envelope>
  {
    if !body.JObject? then None
    else
      var obj := body.fields;
      match (StringMember(obj, "eventType"), ObjectMember(obj, "event"))
      case (Some(t), Some(e)) => Some(Envelope(t, e, ObjectMember(obj, "view")))
      case _ => None
  }

  function TagValues(tags: seq<string>): (r: seq<Json>)
    ensures |r| == |tags|
  {
    seq(|tags|, i requires 0 <= i < |tags| => JString(tags[i]))
  }

  /** The body the web side posts for `env`, with its informational `tags` when it sends them. */
  function EncodeBody(env: Envelope, tags: Option<seq<string>>): Json
  {
    var base := map["eventType" := JString(env.eventType), "event" := JObject(env.event)];
    var withView := match env.view case Some(v) => base["view" := JObject(v)] case None => base;
    JObject(match tags case Some(ts) => withView["tags" := JArray(TagValues(ts))] case None => withView)
  }

  /** Every envelope the web side can send is read back as it was sent, whatever its tags. */
  lemma ParseEncode(env: Envelope, tags: Option<seq<string>>)
    ensures ParseEnvelope(EncodeBody(env, tags)) == Some(env)
  {
  }

  /**
   * The message an envelope stands for. "log" and "record" are recognised;
   * every other event type is a RUM event forwarded as is. A record needs a
   * `view` object with a string `id`.
   */
  function Route(env: Envelope, slotId: string): Option<WebViewMessage>
  {
    if env.eventType == "log" then Some(Log(env.event))
    else if env.eventType == "record" then
      match env.view
      case Some(v) =>
        (match StringMember(v, "id")
         case Some(id) => Some(Record(WebViewRecord(ViewDescriptor(id), slotId, env.event)))
         case None => None)
      case None => None
    else Some(Rum(env.event))
  }

  /** The event object a message carries: a log's or RUM event's, or a record's raw event. */
  function EventOf(m: WebViewMessage): JsonObject
  {
    match m
    case Log(e) => e
    case Rum(e) => e
    case Record(r) => r.event
  }

  /**
   * Decoding a body received on the controller whose slot is `slotId`;
   * `None` when nothing is forwarded. Whatever is forwarded carries the
   * body's `event` object unchanged, and a record carries the receiving slot.
   */
  function Decode(body: Json, slotId: string): (r: Option<WebViewMessage>)
    ensures r.Some? ==> body.JObject? && ObjectMember(body.fields, "event") == Some(EventOf(r.value))
    ensures r.Some? && r.value.Record? ==> r.value.record.slotId == slotId
    ensures r.Some? && r.value.Log? <==> body.JObject? && StringMember(body.fields, "eventType") == Some("log")
                                          && ObjectMember(body.fields, "event").Some?
  {
    match ParseEnvelope(body)
    case Some(env) => Route(env, slotId)
    case None => None
  }

  /** A log body is forwarded as a log whose event is the body's `event`, field for field. */
  lemma DecodeLog(obj: JsonObject, event: JsonObject, slotId: string)
    requires StringMember(obj, "eventType") == Some("log")
    requires ObjectMember(obj, "event") == Some(event)
    ensures Decode(JObject(obj), slotId) == Some(Log(event))
  {
  }

  /** Any other event type is forwarded as a RUM event carrying the body's `event` unchanged. */
  lemma DecodeRum(obj: JsonObject, eventType: string, event: JsonObject, slotId: string)
    requires StringMember(obj, "eventType") == Some(eventType)
    requires eventType != "log" && eventType != "record"
    requires ObjectMember(obj, "event") == Some(event)
    ensures Decode(JObject(obj), slotId) == Some(Rum(event))
  {
  }

  /** A record takes its view id from the top-level `view`, its slot from the receiver, and the raw `event`. */
  lemma DecodeRecord(obj: JsonObject, event: JsonObject, view: JsonObject, slotId: string)
    requires StringMember(obj, "eventType") == Some("record")
    requires ObjectMember(obj, "event") == Some(event)
    requires ObjectMember(obj, "view") == Some(view)
    ensures var r := Decode(JObject(obj), slotId);
      match StringMember(view, "id")
      case Some(id) => r == Some(Record(WebViewRecord(ViewDescriptor(id), slotId, event)))
      case None => r == None
  {
  }

  /** Nothing is forwarded exactly when the body is malformed or a record lacks its view id. */
  lemma DecodeNothing(body: Json, slotId: string)
    ensures Decode(body, slotId) == None <==>
      || !body.JObject?
      || StringMember(body.fields, "eventType").None?
      || ObjectMember(body.fields, "event").None?
      || (body.fields["eventType"] == JString("record")
          && (ObjectMember(body.fields, "view").None?
              || StringMember(ObjectMember(body.fields, "view").value, "id").None?))
  {
  }

  /** The top-level `tags` member never changes what is forwarded. */
  lemma DecodeIgnoresTags(obj: JsonObject, tags: Json, slotId: string)
    ensures Decode(JObject(obj["tags" := tags]), slotId) == Decode(JObject(obj - {"tags"}), slotId)
  {
  }

  /** Only records depend on the receiving slot. */
  lemma DecodeSlotOnlyInRecords(body: Json, slot1: string, slot2: string)
    ensures Decode(body, slot1).Some? == Decode(body, slot2).Some?
    ensures Decode(body, slot1).Some? && !Decode(body, slot1).value.Record? ==>
      Decode(body, slot1) == Decode(body, slot2)
    ensures Decode(body, slot1).Some? && Decode(body, slot1).value.Record? ==>
      Decode(body, slot2).value.Record? && Decode(body, slot2).value.record.slotId == slot2 &&
      Decode(body, slot2).value.record.(slotId := slot1) == Decode(body, slot1).value.record
  {
  }
}
