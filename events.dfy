/**
 * Events: immutable records of something that happened in a session. The
 * per-session event log is the source of truth; session state is a fold
 * over it.
 */
module Events {
  import opened Wrappers
  import opened Json
  import opened Types
  import Text

  datatype EventType =
    | SessionCreated | SessionStarted | SessionCompleted | SessionCancelled | SessionFailed
    | CounterpartyJoined | CounterpartyLeft
    | OfferSent | OfferReceived | OfferAccepted | OfferRejected
    | DiscoveryMessage | DiscoverySent | DiscoveryReceived
    | ReverseAuctionStarted | BiddingRoundStarted | BiddingRoundEnded
    | NegotiationRoundStarted
    | TimeoutWarning | TimeoutReached
    | StateUpdated
  {
    /** The wire value, `event_type.value`. */
    function Value(): string {
      match this
      case SessionCreated => "session_created"
      case SessionStarted => "session_started"
      case SessionCompleted => "session_completed"
      case SessionCancelled => "session_cancelled"
      case SessionFailed => "session_failed"
      case CounterpartyJoined => "counterparty_joined"
      case CounterpartyLeft => "counterparty_left"
      case OfferSent => "offer_sent"
      case OfferReceived => "offer_received"
      case OfferAccepted => "offer_accepted"
      case OfferRejected => "offer_rejected"
      case DiscoveryMessage => "discovery_message"
      case DiscoverySent => "discovery_sent"
      case DiscoveryReceived => "discovery_received"
      case ReverseAuctionStarted => "reverse_auction_started"
      case BiddingRoundStarted => "bidding_round_started"
      case BiddingRoundEnded => "bidding_round_ended"
      case NegotiationRoundStarted => "negotiation_round_started"
      case TimeoutWarning => "timeout_warning"
      case TimeoutReached => "timeout_reached"
      case StateUpdated => "state_updated"
    }
  }

  const EventTypeValues: set<string> := {
    "session_created", "session_started", "session_completed", "session_cancelled", "session_failed",
    "counterparty_joined", "counterparty_left",
    "offer_sent", "offer_received", "offer_accepted", "offer_rejected",
    "discovery_message", "discovery_sent", "discovery_received",
    "reverse_auction_started", "bidding_round_started", "bidding_round_ended",
    "negotiation_round_started", "timeout_warning", "timeout_reached", "state_updated"}

  /** `EventType(s)`: the closed set of wire values; anything else raises ValueError. */
  function EventTypeFromValue(s: string): (r: Option<EventType>)
    ensures r.Some? <==> s in EventTypeValues
    ensures r.Some? ==> r.value.Value() == s
  {
    if s == "session_created" then Some(SessionCreated)
    else if s == "session_started" then Some(SessionStarted)
    else if s == "session_completed" then Some(SessionCompleted)
    else if s == "session_cancelled" then Some(SessionCancelled)
    else if s == "session_failed" then Some(SessionFailed)
    else if s == "counterparty_joined" then Some(CounterpartyJoined)
    else if s == "counterparty_left" then Some(CounterpartyLeft)
    else if s == "offer_sent" then Some(OfferSent)
    else if s == "offer_received" then Some(OfferReceived)
    else if s == "offer_accepted" then Some(OfferAccepted)
    else if s == "offer_rejected" then Some(OfferRejected)
    else if s == "discovery_message" then Some(DiscoveryMessage)
    else if s == "discovery_sent" then Some(DiscoverySent)
    else if s == "discovery_received" then Some(DiscoveryReceived)
    else if s == "reverse_auction_started" then Some(ReverseAuctionStarted)
    else if s == "bidding_round_started" then Some(BiddingRoundStarted)
    else if s == "bidding_round_ended" then Some(BiddingRoundEnded)
    else if s == "negotiation_round_started" then Some(NegotiationRoundStarted)
    else if s == "timeout_warning" then Some(TimeoutWarning)
    else if s == "timeout_reached" then Some(TimeoutReached)
    else if s == "state_updated" then Some(StateUpdated)
    else None
  }

  /** Each event type parses back from its wire value, and the values are pairwise distinct. */
  lemma EventTypeRoundTrip(t: EventType)
    ensures EventTypeFromValue(t.Value()) == Some(t)
    ensures t.Value() in EventTypeValues
  {
  }

  datatype Event = Event(
    eventId: string,
    sessionId: string,
    eventType: EventType,
    timestamp: Timestamp,
    contextId: Option<string>,
    data: Object,
    metadata: Object)

  const EventIdPrefix := "evt-"

  /**
   * `Event.create`: identifier `evt-` + twelve hex digits, the current
   * time, and `data or {}` / `metadata or {}`.
   */
  function EventCreate(sessionId: string, eventType: EventType, data: Option<Object>, contextId: Option<string>,
                       metadata: Option<Object>, idSuffix: string, now: Timestamp): (e: Event)
    requires Text.IsHexId(idSuffix)
    ensures e.eventId == EventIdPrefix + idSuffix && |e.eventId| == 16
    ensures e.sessionId == sessionId && e.eventType == eventType && e.timestamp == now && e.contextId == contextId
    ensures e.data == (if data.Some? then data.value else map[])
    ensures e.metadata == (if metadata.Some? then metadata.value else map[])
  {
    Event(EventIdPrefix + idSuffix, sessionId, eventType, now, contextId,
      if data.Some? && data.value != map[] then data.value else map[],
      if metadata.Some? && metadata.value != map[] then metadata.value else map[])
  }

  function EventToDict(e: Event): (r: Object)
    ensures r.Keys == {"event_id", "session_id", "event_type", "timestamp", "context_id", "data", "metadata"}
    ensures r["event_type"] == JStr(e.eventType.Value()) && r["timestamp"] == JStr(IsoFormat(e.timestamp))
  {
    map[
      "event_id" := JStr(e.eventId),
      "session_id" := JStr(e.sessionId),
      "event_type" := JStr(e.eventType.Value()),
      "timestamp" := JStr(IsoFormat(e.timestamp)),
      "context_id" := OptStr(e.contextId),
      "data" := JObj(e.data),
      "metadata" := JObj(e.metadata)]
  }

  /**
   * `Event.from_dict`: a missing required key raises KeyError, an unknown
   * `event_type` or a malformed timestamp raises ValueError.
   */
  function EventFromDict(d: Object): (r: Result<Event>)
    ensures r.Success? <==> && RequireStr(d, "event_id").Success? && RequireStr(d, "session_id").Success?
                            && RequireStr(d, "event_type").Success? && d["event_type"].s in EventTypeValues
                            && "timestamp" in d && ParseTimestamp(d["timestamp"]).Success?
                            && OptionalStr(d, "context_id").Success?
                            && ObjectField(d, "data").Success? && ObjectField(d, "metadata").Success?
    ensures r.Success? ==> "event_id" in d && "session_id" in d && "event_type" in d && "timestamp" in d
    ensures r.Success? ==> && d["event_id"] == JStr(r.value.eventId) && d["session_id"] == JStr(r.value.sessionId)
                           && d["event_type"] == JStr(r.value.eventType.Value())
                           && ParseTimestamp(d["timestamp"]) == Success(r.value.timestamp)
                           && Get(d, "context_id") == OptStr(r.value.contextId)
                           && GetOr(d, "data", JObj(map[])) == JObj(r.value.data)
                           && GetOr(d, "metadata", JObj(map[])) == JObj(r.value.metadata)
    ensures r.Success? && "context_id" !in d ==> r.value.contextId.None?
    ensures r.Success? ==> ("data" !in d ==> r.value.data == map[]) && ("metadata" !in d ==> r.value.metadata == map[])
    ensures "event_type" in d && d["event_type"].JStr? && d["event_type"].s !in EventTypeValues ==> r.Failure?
  {
    var eventId :- RequireStr(d, "event_id");
    var sessionId :- RequireStr(d, "session_id");
    var typeName :- RequireStr(d, "event_type");
    var eventType :- match EventTypeFromValue(typeName)
      case Some(t) => Success(t)
      case None => Failure("ValueError: not a valid EventType");
    var timestamp :- if "timestamp" in d then ParseTimestamp(d["timestamp"]) else Failure("KeyError: timestamp");
    var contextId :- OptionalStr(d, "context_id");
    var data :- ObjectField(d, "data");
    var metadata :- ObjectField(d, "metadata");
    Success(Event(eventId, sessionId, eventType, timestamp, contextId, data, metadata))
  }

  /** Serialising an event and reading it back gives the same event. */
  lemma {:induction false} EventRoundTrip(e: Event)
    ensures EventFromDict(EventToDict(e)) == Success(e)
  {
    var d := EventToDict(e);
    IsoRoundTrip(e.timestamp);
    EventTypeRoundTrip(e.eventType);
    assert RequireStr(d, "event_id") == Success(e.eventId);
    assert RequireStr(d, "session_id") == Success(e.sessionId);
    assert RequireStr(d, "event_type") == Success(e.eventType.Value());
    assert ParseTimestamp(d["timestamp"]) == Success(e.timestamp);
    assert OptionalStr(d, "context_id") == Success(e.contextId);
    assert ObjectField(d, "data") == Success(e.data);
    assert ObjectField(d, "metadata") == Success(e.metadata);
  }

  /** The event types of a log, in order. */
  function TypesOf(log: seq<Event>): (ts: seq<EventType>)
    ensures |ts| == |log| && forall i :: 0 <= i < |log| ==> ts[i] == log[i].eventType
  {
    if log == [] then [] else [log[0].eventType] + TypesOf(log[1..])
  }

  lemma {:induction false} TypesOfAppend(a: seq<Event>, b: seq<Event>)
    ensures TypesOf(a + b) == TypesOf(a) + TypesOf(b)
  {
    var l, r := TypesOf(a + b), TypesOf(a) + TypesOf(b);
    assert |l| == |r|;
    forall i | 0 <= i < |l|
      ensures l[i] == r[i]
    {
      if i < |a| {
        assert (a + b)[i] == a[i];
      } else {
        assert (a + b)[i] == b[i - |a|];
      }
    }
  }
}
