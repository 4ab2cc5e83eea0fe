/**
 * The protocol's message payloads: the three builders that wrap a
 * payload dictionary in a one-part message, and `parse_message`, which
 * extracts the first data part and stamps it with the envelope's ids.
 */
module Messages {
  import opened Wrappers
  import opened Json
  import opened Types

  datatype MessageType = DiscoveryMsg | OfferMsg | ActionMsg {
    function Value(): string {
      match this
      case DiscoveryMsg => "discovery"
      case OfferMsg => "offer"
      case ActionMsg => "action"
    }
  }

  /** `MessageType(s)`: None where the source raises ValueError. */
  function MessageTypeFromValue(s: string): (r: Option<MessageType>)
    ensures r.Some? <==> s in {"discovery", "offer", "action"}
    ensures r.Some? ==> r.value.Value() == s
  {
    if s == "discovery" then Some(DiscoveryMsg)
    else if s == "offer" then Some(OfferMsg)
    else if s == "action" then Some(ActionMsg)
    else None
  }

  datatype ActionType = Init | Accept | Cancel | Ack {
    function Value(): string {
      match this
      case Init => "init"
      case Accept => "accept"
      case Cancel => "cancel"
      case Ack => "ack"
    }
  }

  /** `ActionType(s)`: the action kinds are exactly init, accept, cancel and ack. */
  function ActionTypeFromValue(s: string): (r: Option<ActionType>)
    ensures r.Some? <==> s in {"init", "accept", "cancel", "ack"}
    ensures r.Some? ==> r.value.Value() == s
  {
    if s == "init" then Some(Init)
    else if s == "accept" then Some(Accept)
    else if s == "cancel" then Some(Cancel)
    else if s == "ack" then Some(Ack)
    else None
  }

  /** Both enumerations read back what they print. */
  lemma EnumValuesRoundTrip(m: MessageType, a: ActionType)
    ensures MessageTypeFromValue(m.Value()) == Some(m)
    ensures ActionTypeFromValue(a.Value()) == Some(a)
  {
  }

  /**
   * A message part. A2A wraps every part of a message or artifact in a
   * `Part` whose `root` is the concrete part; `Wrapped` is that wrapper,
   * the other three are the concrete kinds.
   */
  datatype Part = DataPart(data: Object) | TextPart(text: string) | FilePart | Wrapped(root: Part)

  /** The envelope fields the protocol reads. */
  datatype Message = Message(parts: seq<Part>, contextId: Option<string>, taskId: Option<string>)

  /** The fields every payload starts with: a fresh id and the creation time. */
  function Header(messageId: string, now: Timestamp, t: MessageType): Object {
    map["message_id" := JStr(messageId), "timestamp" := JStr(IsoFormat(now)), "type" := JStr(t.Value())]
  }

  /** The payload of `create_discovery_message`. */
  function DiscoveryPayload(messageId: string, now: Timestamp, discoveryData: Object): Object {
    Header(messageId, now, DiscoveryMsg)["discovery_data" := JObj(discoveryData)]
  }

  /** The payload of `create_offer_message`. */
  function OfferPayload(messageId: string, now: Timestamp, offer: Offer, sessionType: SessionType): Object {
    Header(messageId, now, OfferMsg)["session_type" := JStr(sessionType.Value())]["offer" := JObj(OfferToDict(offer))]
  }

  /** The payload of `create_action_message`; missing or empty action data becomes `{}`. */
  function ActionPayload(messageId: string, now: Timestamp, action: ActionType, actionData: Option<Object>): Object {
    Header(messageId, now, ActionMsg)["action" := JStr(action.Value())]
      ["action_data" := JObj(if actionData.Some? then actionData.value else map[])]
  }

  function CreateDiscoveryMessage(discoveryData: Object, contextId: Option<string>, messageId: string, now: Timestamp)
    : (r: Message)
    ensures r.contextId == contextId && r.taskId.None? && |r.parts| == 1 && r.parts[0].DataPart?
    ensures var d := r.parts[0].data;
      && Get(d, "type") == JStr("discovery") && Get(d, "message_id") == JStr(messageId)
      && Get(d, "timestamp") == JStr(IsoFormat(now)) && Get(d, "discovery_data") == JObj(discoveryData)
  {
    Message([DataPart(DiscoveryPayload(messageId, now, discoveryData))], contextId, None)
  }

  function CreateOfferMessage(offer: Offer, sessionType: SessionType, contextId: Option<string>, taskId: Option<string>,
                              messageId: string, now: Timestamp): (r: Message)
    ensures r.contextId == contextId && r.taskId == taskId && |r.parts| == 1 && r.parts[0].DataPart?
    ensures var d := r.parts[0].data;
      && Get(d, "type") == JStr("offer") && Get(d, "message_id") == JStr(messageId)
      && Get(d, "timestamp") == JStr(IsoFormat(now)) && Get(d, "session_type") == JStr(sessionType.Value())
      && Get(d, "offer") == JObj(OfferToDict(offer))
  {
    Message([DataPart(OfferPayload(messageId, now, offer, sessionType))], contextId, taskId)
  }

  function CreateActionMessage(action: ActionType, actionData: Option<Object>, contextId: Option<string>,
                               taskId: Option<string>, messageId: string, now: Timestamp): (r: Message)
    ensures r.contextId == contextId && r.taskId == taskId && |r.parts| == 1 && r.parts[0].DataPart?
    ensures var d := r.parts[0].data;
      && Get(d, "type") == JStr("action") && Get(d, "message_id") == JStr(messageId)
      && Get(d, "timestamp") == JStr(IsoFormat(now)) && Get(d, "action") == JStr(action.Value())
      && Get(d, "action_data") == JObj(if actionData.Some? then actionData.value else map[])
  {
    Message([DataPart(ActionPayload(messageId, now, action, actionData))], contextId, taskId)
  }

  /** `get_data_parts`: the data of every part whose root is a data part, in order. */
  function DataParts(parts: seq<Part>): (r: seq<Object>)
    ensures |r| <= |parts|
    ensures forall d :: d in r ==> DataPart(d) in parts || Wrapped(DataPart(d)) in parts
  {
    if parts == [] then []
    else
      var rest := DataParts(parts[1..]);
      assert forall p :: p in parts[1..] ==> p in parts;
      match parts[0]
      case DataPart(d) => [d] + rest
      case Wrapped(DataPart(d)) => [d] + rest
      case _ => rest
  }

  /**
   * `parse_message`: None without a data part; otherwise the first data
   * part with `context_id` and `task_id` overwritten from the envelope.
   */
  function ParseMessage(m: Message): (r: Option<Object>)
    ensures r.Some? <==> DataParts(m.parts) != []
    ensures r.Some? ==> r.value == DataParts(m.parts)[0]["context_id" := OptStr(m.contextId)]["task_id" := OptStr(m.taskId)]
    ensures r.Some? ==> "context_id" in r.value && "task_id" in r.value
  {
    var ds := DataParts(m.parts);
    if ds == [] then None
    else Some(ds[0]["context_id" := OptStr(m.contextId)]["task_id" := OptStr(m.taskId)])
  }

  /**
   * A built discovery message parses back to its payload with the
   * envelope's context and no task added, so every field reads back.
   */
  lemma ParseDiscoveryMessage(discoveryData: Object, ctx: Option<string>, messageId: string, now: Timestamp)
    ensures var r := ParseMessage(CreateDiscoveryMessage(discoveryData, ctx, messageId, now));
      && r == Some(DiscoveryPayload(messageId, now, discoveryData)["context_id" := OptStr(ctx)]["task_id" := JNull])
      && Get(r.value, "type") == JStr("discovery") && Get(r.value, "timestamp") == JStr(IsoFormat(now))
      && Get(r.value, "message_id") == JStr(messageId) && Get(r.value, "context_id") == OptStr(ctx)
      && Get(r.value, "task_id") == JNull && Get(r.value, "discovery_data") == JObj(discoveryData)
  {
    var m := CreateDiscoveryMessage(discoveryData, ctx, messageId, now);
    assert DataParts(m.parts) == [DiscoveryPayload(messageId, now, discoveryData)] by {
      assert m.parts[1..] == [];
    }
  }

  /** A built offer message parses back to its payload with the envelope's ids added. */
  lemma ParseOfferMessage(offer: Offer, t: SessionType, ctx: Option<string>, task: Option<string>,
                          messageId: string, now: Timestamp)
    ensures var r := ParseMessage(CreateOfferMessage(offer, t, ctx, task, messageId, now));
      && r == Some(OfferPayload(messageId, now, offer, t)["context_id" := OptStr(ctx)]["task_id" := OptStr(task)])
      && Get(r.value, "type") == JStr("offer") && Get(r.value, "timestamp") == JStr(IsoFormat(now))
      && Get(r.value, "message_id") == JStr(messageId) && Get(r.value, "context_id") == OptStr(ctx)
      && Get(r.value, "task_id") == OptStr(task) && Get(r.value, "session_type") == JStr(t.Value())
      && Get(r.value, "offer") == JObj(OfferToDict(offer))
  {
    var m := CreateOfferMessage(offer, t, ctx, task, messageId, now);
    assert DataParts(m.parts) == [OfferPayload(messageId, now, offer, t)] by {
      assert m.parts[1..] == [];
    }
  }

  /** A built action message parses back to its payload with the envelope's ids added. */
  lemma ParseActionMessage(action: ActionType, actionData: Option<Object>, ctx: Option<string>,
                           task: Option<string>, messageId: string, now: Timestamp)
    ensures var r := ParseMessage(CreateActionMessage(action, actionData, ctx, task, messageId, now));
      && r == Some(ActionPayload(messageId, now, action, actionData)["context_id" := OptStr(ctx)]["task_id" := OptStr(task)])
      && Get(r.value, "type") == JStr("action") && Get(r.value, "timestamp") == JStr(IsoFormat(now))
      && Get(r.value, "message_id") == JStr(messageId) && Get(r.value, "context_id") == OptStr(ctx)
      && Get(r.value, "task_id") == OptStr(task) && Get(r.value, "action") == JStr(action.Value())
      && Get(r.value, "action_data") == JObj(if actionData.Some? then actionData.value else map[])
  {
    var m := CreateActionMessage(action, actionData, ctx, task, messageId, now);
    assert DataParts(m.parts) == [ActionPayload(messageId, now, action, actionData)] by {
      assert m.parts[1..] == [];
    }
  }
}
