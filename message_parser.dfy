/**
 * Reading protocol messages into `ParsedMessage` records: from a raw
 * payload dictionary, from one message part, and from a whole reply
 * (a task whose artifacts hold parts, or a direct message).
 */
module MessageParsing {
  import opened Wrappers
  import opened Json
  import opened Types
  import opened Messages

  /**
   * `ParsedMessage`. Fields the parser copies without checking stay JSON
   * values; JNull stands for Python's None, which is also the default of
   * the type-specific fields another message type leaves unset.
   */
  datatype ParsedMessage = ParsedMessage(
    messageId: Json,
    messageType: MessageType,
    timestamp: Timestamp,
    contextId: Json,
    taskId: Json,
    discoveryData: Json,
    offerData: Json,
    action: Json,
    actionData: Json,
    sessionType: Json,
    rawData: Object)

  /** `MessageType(x)` on whatever `data.get("type")` holds. */
  function TypeOf(data: Object): Option<MessageType> {
    var t := Get(data, "type");
    if t.JStr? then MessageTypeFromValue(t.s) else None
  }

  /**
   * `parse_message_data`: Success(None) for a non-dict, a missing or
   * falsy `type`, or a type outside the enumeration; Failure when a
   * present timestamp is not ISO text (`fromisoformat` raises);
   * otherwise the record with only the message type's own fields set.
   */
  function ParseMessageData(data: Json, now: Timestamp): (r: Result<Option<ParsedMessage>>)
    ensures r.Success? && r.value.Some? <==>
      data.JObj? && TypeOf(data.fields).Some?
      && (Truthy(Get(data.fields, "timestamp")) ==> ParseTimestamp(Get(data.fields, "timestamp")).Success?)
    ensures r.Failure? ==> data.JObj? && TypeOf(data.fields).Some? && Truthy(Get(data.fields, "timestamp"))
    ensures r.Success? && r.value.Some? ==>
      var m, d := r.value.value, data.fields;
      && m.messageType == TypeOf(d).value
      && m.messageId == GetOr(d, "message_id", JStr(""))
      && m.contextId == Get(d, "context_id") && m.taskId == Get(d, "task_id")
      && m.rawData == d
      && m.timestamp == (if Truthy(Get(d, "timestamp")) then ParseTimestamp(Get(d, "timestamp")).value else now)
      && (m.messageType.DiscoveryMsg? ==> m.discoveryData == GetOr(d, "discovery_data", JObj(map[])))
      && (m.messageType.OfferMsg? ==> m.offerData == GetOr(d, "offer", JObj(map[])) && m.sessionType == Get(d, "session_type"))
      && (m.messageType.ActionMsg? ==> m.action == Get(d, "action") && m.actionData == GetOr(d, "action_data", JObj(map[])))
      && (!m.messageType.DiscoveryMsg? ==> m.discoveryData == JNull)
      && (!m.messageType.OfferMsg? ==> m.offerData == JNull && m.sessionType == JNull)
      && (!m.messageType.ActionMsg? ==> m.action == JNull && m.actionData == JNull)
  {
    if !data.JObj? then Success(None)
    else
      var d := data.fields;
      if !Truthy(Get(d, "type")) then Success(None)
      else match TypeOf(d)
        case None => Success(None)
        case Some(t) =>
          var ts := Get(d, "timestamp");
          var stamp := if Truthy(ts) then ParseTimestamp(ts) else Success(now);
          if stamp.Failure? then Failure(stamp.error)
          else
            var base := ParsedMessage(GetOr(d, "message_id", JStr("")), t, stamp.value, Get(d, "context_id"),
                                      Get(d, "task_id"), JNull, JNull, JNull, JNull, JNull, d);
            Success(Some(match t
              case DiscoveryMsg => base.(discoveryData := GetOr(d, "discovery_data", JObj(map[])))
              case OfferMsg => base.(offerData := GetOr(d, "offer", JObj(map[])), sessionType := Get(d, "session_type"))
              case ActionMsg => base.(action := Get(d, "action"), actionData := GetOr(d, "action_data", JObj(map[])))))
  }

  /** `json.loads`: None where it raises `JSONDecodeError`. */
  type Decoder = string -> Option<Json>

  /** A part reader, as `_parse_part` is once the decoder and the clock are fixed. */
  type PartReader = Part -> Result<Option<ParsedMessage>>

  /**
   * `_parse_part`: a data part, bare or under a wrapper, is parsed as
   * its data; a bare text part is decoded as JSON and parsed, with
   * decoding and parsing errors turned into None. A wrapped text part
   * matches none of the branches and gives None.
   */
  function ParsePart(part: Part, decode: Decoder, now: Timestamp): (r: Result<Option<ParsedMessage>>)
    ensures part.TextPart? ==> r.Success?
    ensures part.FilePart? || (part.Wrapped? && !part.root.DataPart?) ==> r == Success(None)
    ensures part.DataPart? ==> r == ParseMessageData(JObj(part.data), now)
    ensures part.Wrapped? && part.root.DataPart? ==> r == ParseMessageData(JObj(part.root.data), now)
  {
    match part
    case DataPart(d) => ParseMessageData(JObj(d), now)
    case Wrapped(DataPart(d)) => ParseMessageData(JObj(d), now)
    case TextPart(text) =>
      (match decode(text)
       case None => Success(None)
       case Some(j) =>
         var p := ParseMessageData(j, now);
         if p.Failure? then Success(None) else p)
    case _ => Success(None)
  }

  /**
   * The parts of a reply parsed left to right, keeping the ones that
   * parse; the first part that raises aborts the whole reply.
   */
  function ParseParts(parts: seq<Part>, read: PartReader): (r: Result<seq<ParsedMessage>>)
    ensures r.Success? ==> |r.value| <= |parts|
  {
    if parts == [] then Success([])
    else
      var last := parts[|parts| - 1];
      var front := ParseParts(parts[..|parts| - 1], read);
      if front.Failure? then front
      else match read(last)
        case Failure(err) => Failure(err)
        case Success(None) => front
        case Success(Some(m)) => Success(front.value + [m])
  }

  datatype Artifact = Artifact(parts: seq<Part>)

  /** The `root` of a `SendMessageResponse`. */
  datatype Response =
    | NoResponse                           // the response or its root is falsy
    | ErrorResponse                        // a JSON-RPC error: it has no `result`
    | TaskResult(artifacts: seq<Artifact>)
    | MessageResult(message: Message)
    | OtherResult

  /** The parts of the artifacts, artifact by artifact. */
  function AllParts(artifacts: seq<Artifact>): seq<Part> {
    if artifacts == [] then [] else AllParts(artifacts[..|artifacts| - 1]) + artifacts[|artifacts| - 1].parts
  }

  /** `parse_a2a_message`: the first data part of the message, parsed. */
  function ParseA2AMessage(m: Message, now: Timestamp): (r: Result<Option<ParsedMessage>>)
    ensures DataParts(m.parts) == [] ==> r == Success(None)
    ensures r.Success? && r.value.Some? ==>
      && DataParts(m.parts) != []
      && r.value.value.contextId == OptStr(m.contextId) && r.value.value.taskId == OptStr(m.taskId)
      && r.value.value.rawData == DataParts(m.parts)[0]["context_id" := OptStr(m.contextId)]["task_id" := OptStr(m.taskId)]
  {
    match ParseMessage(m)
    case None => Success(None)
    case Some(d) => ParseMessageData(JObj(d), now)
  }

  /** A single parse result as a list: the message if there is one; a raised error stays raised. */
  function AtMostOne(p: Result<Option<ParsedMessage>>): (r: Result<seq<ParsedMessage>>)
    ensures r.Failure? <==> p.Failure?
    ensures r.Success? ==> |r.value| <= 1 && (r.value != [] <==> p.value.Some?)
    ensures r.Success? && p.value.Some? ==> r.value[0] == p.value.value
  {
    match p
    case Failure(err) => Failure(err)
    case Success(None) => Success([])
    case Success(Some(m)) => Success([m])
  }

  /**
   * `parse_response`: every part of every artifact of a task, in order,
   * that parses; at most one message for a direct message reply;
   * nothing for no response or another result. Reading `result` off an
   * error response raises AttributeError.
   */
  method ParseResponse(response: Response, decode: Decoder, now: Timestamp) returns (r: Result<seq<ParsedMessage>>)
    ensures response.NoResponse? || response.OtherResult? ==> r == Success([])
    ensures response.ErrorResponse? ==> r.Failure?
    ensures response.TaskResult? ==> r == ParseParts(AllParts(response.artifacts), p => ParsePart(p, decode, now))
    ensures response.MessageResult? ==> r.Success? ==> |r.value| <= 1
    ensures response.MessageResult? ==> r == AtMostOne(ParseA2AMessage(response.message, now))
  {
    var messages: seq<ParsedMessage> := [];
    match response {
      case NoResponse =>
      case ErrorResponse =>
        return Failure("AttributeError: result");
      case TaskResult(artifacts) =>
        r := ParseArtifacts(artifacts, p => ParsePart(p, decode, now));
        return;
      case MessageResult(m) =>
        var parsed := ParseA2AMessage(m, now);
        if parsed.Failure? {
          return Failure(parsed.error);
        }
        if parsed.value.Some? {
          messages := messages + [parsed.value.value];
          assert messages == [parsed.value.value];
        }
      case OtherResult =>
    }
    r := Success(messages);
  }

  /** The nested loop of `parse_response` over a task's artifacts and their parts. */
  method ParseArtifacts(artifacts: seq<Artifact>, read: PartReader) returns (r: Result<seq<ParsedMessage>>)
    ensures r == ParseParts(AllParts(artifacts), read)
  {
    var messages: seq<ParsedMessage> := [];
    var i := 0;
    while i < |artifacts|
      invariant 0 <= i <= |artifacts|
      invariant ParseParts(AllParts(artifacts[..i]), read) == Success(messages)
    {
      var parts := artifacts[i].parts;
      ghost var seen := AllParts(artifacts[..i]);
      var j := 0;
      assert seen + parts[..0] == seen;
      while j < |parts|
        invariant 0 <= j <= |parts|
        invariant seen == AllParts(artifacts[..i]) + parts[..j]
        invariant ParseParts(seen, read) == Success(messages)
      {
        var parsed := read(parts[j]);
        assert parts[..j + 1] == parts[..j] + [parts[j]];
        if parsed.Failure? {
          FailureAborts(artifacts, i, j, read, messages);
          return Failure(parsed.error);
        }
        ParsePartsStep(seen, parts[j], read, messages);
        seen := seen + [parts[j]];
        if parsed.value.Some? {
          messages := messages + [parsed.value.value];
        }
        j := j + 1;
      }
      assert parts[..j] == parts;
      AllPartsPrefix(artifacts, i);
      i := i + 1;
    }
    assert artifacts[..i] == artifacts;
    r := Success(messages);
  }

  /** The first part that raises decides the result of the whole reply. */
  lemma FailureAborts(artifacts: seq<Artifact>, i: nat, j: nat, read: PartReader, messages: seq<ParsedMessage>)
    requires i < |artifacts| && j < |artifacts[i].parts|
    requires ParseParts(AllParts(artifacts[..i]) + artifacts[i].parts[..j], read) == Success(messages)
    requires read(artifacts[i].parts[j]).Failure?
    ensures ParseParts(AllParts(artifacts), read) == Failure(read(artifacts[i].parts[j]).error)
  {
    var parts, before, after := artifacts[i].parts, AllParts(artifacts[..i]), AllParts(artifacts[i + 1..]);
    var seen := before + (parts[..j] + [parts[j]]);
    ParsePartsStepFails(before + parts[..j], parts[j], read);
    assert before + parts[..j] + [parts[j]] == seen;
    AllPartsSplit(artifacts, i);
    assert parts == parts[..j] + [parts[j]] + parts[j + 1..];
    SeqAssoc(before, parts[..j] + [parts[j]], parts[j + 1..], after);
    ParsePartsFailurePersists(seen, parts[j + 1..] + after, read);
  }

  /** Regrouping a concatenation of four sequences. */
  lemma SeqAssoc<T>(a: seq<T>, b: seq<T>, c: seq<T>, d: seq<T>)
    ensures a + (b + c) + d == (a + b) + (c + d)
  {
  }

  /** Parsing one more part that does not raise keeps it when it parses. */
  lemma ParsePartsStep(ps: seq<Part>, p: Part, read: PartReader, messages: seq<ParsedMessage>)
    requires ParseParts(ps, read) == Success(messages)
    requires read(p).Success?
    ensures ParseParts(ps + [p], read)
         == Success(if read(p).value.Some? then messages + [read(p).value.value]
                    else messages)
  {
    assert (ps + [p])[..|ps + [p]| - 1] == ps;
  }

  /** A part that raises makes the parts so far raise its error. */
  lemma ParsePartsStepFails(ps: seq<Part>, p: Part, read: PartReader)
    requires ParseParts(ps, read).Success?
    requires read(p).Failure?
    ensures ParseParts(ps + [p], read) == Failure(read(p).error)
  {
    assert (ps + [p])[..|ps + [p]| - 1] == ps;
  }

  /** The parts of one more artifact. */
  lemma AllPartsPrefix(artifacts: seq<Artifact>, i: nat)
    requires i < |artifacts|
    ensures AllParts(artifacts[..i + 1]) == AllParts(artifacts[..i]) + artifacts[i].parts
  {
    assert artifacts[..i + 1][..i] == artifacts[..i];
  }

  /** A part that raises aborts the reply: whatever follows it is not looked at. */
  lemma {:induction false} ParsePartsFailurePersists(prefix: seq<Part>, rest: seq<Part>, read: PartReader)
    requires ParseParts(prefix, read).Failure?
    ensures ParseParts(prefix + rest, read) == ParseParts(prefix, read)
    decreases |rest|
  {
    if rest != [] {
      var front := rest[..|rest| - 1];
      assert (prefix + rest)[..|prefix + rest| - 1] == prefix + front;
      ParsePartsFailurePersists(prefix, front, read);
    } else {
      assert prefix + rest == prefix;
    }
  }

  /** The parts of artifact `i` sit between those before it and those after it. */
  lemma {:induction false} AllPartsSplit(artifacts: seq<Artifact>, i: nat)
    requires i < |artifacts|
    ensures AllParts(artifacts) == AllParts(artifacts[..i]) + artifacts[i].parts + AllParts(artifacts[i + 1..])
    decreases |artifacts|
  {
    if i == |artifacts| - 1 {
      assert artifacts[i + 1..] == [];
      assert artifacts[..|artifacts| - 1] == artifacts[..i];
    } else {
      var front := artifacts[..|artifacts| - 1];
      AllPartsSplit(front, i);
      assert front[..i] == artifacts[..i];
      assert front[i + 1..] == artifacts[i + 1..|artifacts| - 1];
      var tail := artifacts[i + 1..];
      assert tail[..|tail| - 1] == front[i + 1..];
      assert tail[|tail| - 1] == artifacts[|artifacts| - 1];
    }
  }

  /** A payload stamped by the builders parses, as its own type, at its own creation time. */
  lemma StampedPayloadParses(d: Object, t: MessageType, created: Timestamp, now: Timestamp)
    requires Get(d, "type") == JStr(t.Value()) && Get(d, "timestamp") == JStr(IsoFormat(created))
    ensures var r := ParseMessageData(JObj(d), now);
      && r.Success? && r.value.Some? && r.value.value.messageType == t && r.value.value.timestamp == created
      && r.value.value.messageId == GetOr(d, "message_id", JStr(""))
      && r.value.value.contextId == Get(d, "context_id") && r.value.value.taskId == Get(d, "task_id")
  {
    IsoRoundTrip(created);
    EnumValuesRoundTrip(t, Ack);
  }

  /**
   * A discovery message the protocol builds reads back as a discovery
   * message with its id, creation time, context and data, and no task.
   */
  lemma DiscoveryMessageRoundTrip(discoveryData: Object, ctx: Option<string>, messageId: string, created: Timestamp,
                                  now: Timestamp)
    ensures var r := ParseA2AMessage(CreateDiscoveryMessage(discoveryData, ctx, messageId, created), now);
      && r.Success? && r.value.Some?
      && var m := r.value.value;
      && m.messageType == DiscoveryMsg && m.messageId == JStr(messageId) && m.timestamp == created
      && m.contextId == OptStr(ctx) && m.taskId == JNull && m.discoveryData == JObj(discoveryData)
  {
    ParseDiscoveryMessage(discoveryData, ctx, messageId, created);
    var d := ParseMessage(CreateDiscoveryMessage(discoveryData, ctx, messageId, created)).value;
    StampedPayloadParses(d, DiscoveryMsg, created, now);
  }

  /**
   * An offer message reads back as an offer message whose offer data is
   * the offer itself, whatever the reader's clock says, with the session
   * type, ids and creation time it was built with.
   */
  lemma OfferMessageRoundTrip(offer: Offer, t: SessionType, ctx: Option<string>, task: Option<string>,
                              messageId: string, created: Timestamp, now: Timestamp)
    ensures var r := ParseA2AMessage(CreateOfferMessage(offer, t, ctx, task, messageId, created), now);
      && r.Success? && r.value.Some?
      && var m := r.value.value;
      && m.messageType == OfferMsg && m.messageId == JStr(messageId) && m.timestamp == created
      && m.contextId == OptStr(ctx) && m.taskId == OptStr(task)
      && m.sessionType == JStr(t.Value()) && OfferFromJson(m.offerData, now) == Success(offer)
  {
    ParseOfferMessage(offer, t, ctx, task, messageId, created);
    var d := ParseMessage(CreateOfferMessage(offer, t, ctx, task, messageId, created)).value;
    StampedPayloadParses(d, OfferMsg, created, now);
    OfferRoundTrip(offer, now);
  }

  /**
   * An action message reads back as an action message whose action names
   * the action it was built with and whose data is the given data, or
   * `{}` when none was given.
   */
  lemma ActionMessageRoundTrip(action: ActionType, actionData: Option<Object>, ctx: Option<string>,
                               task: Option<string>, messageId: string, created: Timestamp, now: Timestamp)
    ensures var r := ParseA2AMessage(CreateActionMessage(action, actionData, ctx, task, messageId, created), now);
      && r.Success? && r.value.Some?
      && var m := r.value.value;
      && m.messageType == ActionMsg && m.messageId == JStr(messageId) && m.timestamp == created
      && m.contextId == OptStr(ctx) && m.taskId == OptStr(task)
      && m.action.JStr? && ActionTypeFromValue(m.action.s) == Some(action)
      && m.actionData == JObj(if actionData.Some? then actionData.value else map[])
  {
    ParseActionMessage(action, actionData, ctx, task, messageId, created);
    var d := ParseMessage(CreateActionMessage(action, actionData, ctx, task, messageId, created)).value;
    StampedPayloadParses(d, ActionMsg, created, now);
    EnumValuesRoundTrip(DiscoveryMsg, action);
  }
}
