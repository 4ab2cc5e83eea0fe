/**
 * The server side of a session: the request executor that answers each
 * incoming protocol message. An INIT creates the session under the
 * request's context id. Any other message is first logged in its
 * session, then answered: a counterparty's acceptance of the last offer
 * we sent is acknowledged at once; otherwise the agent configured for the
 * session's type decides, and the executor carries the decision out.
 */
module AgentExecution {
  import opened Wrappers
  import opened Json
  import opened Types
  import opened Events
  import opened SessionStates
  import opened StateManagement
  import opened MessageParsing
  import opened Messages
  import opened Coordination
  import Text

  /** What `_handle_message` answers with: a payload dict, sent as a data part, or text. */
  datatype Reply = DataReply(data: Object) | TextReply(text: string)

  /** The uuid a built payload carries as `message_id`: one per payload, from a counter. */
  function MessageId(n: nat): string {
    Text.HexId(n)
  }

  /** Whether a parsed message is the protocol action `a`. */
  predicate IsAction(m: ParsedMessage, a: ActionType) {
    m.messageType == ActionMsg && m.action == JStr(a.Value())
  }

  /** An event to log: its type and payload. */
  datatype Entry = Entry(eventType: EventType, data: Object)

  /** `e` was logged at `now` with this type, payload and context. */
  predicate Carries(e: Event, t: EventType, data: Object, ctx: Option<string>, now: Timestamp) {
    e.eventType == t && e.data == data && e.contextId == ctx && e.timestamp == now
  }

  /** `x` is the entry, logged at `now` under `ctx`, or nothing when there is no entry. */
  predicate Logged(x: seq<Event>, entry: Option<Entry>, ctx: Option<string>, now: Timestamp) {
    match entry
    case None => x == []
    case Some(en) => |x| == 1 && Carries(x[0], en.eventType, en.data, ctx, now)
  }

  /** The payload of an offer event. */
  function OfferEntryData(o: Offer): Object {
    map["offer" := JObj(OfferToDict(o))]
  }

  // Exception texts of the lookups that can fail on ill-typed message data.
  const NoGetError := "AttributeError: object has no attribute 'get'"
  const NoValueError := "AttributeError: object has no attribute 'value'"
  const NoLastOfferError := "AttributeError: 'ReverseAuctionState' object has no attribute 'last_offer_sent'"

  // ---------------------------------------------------------------------
  // INIT

  /** What an INIT asks for; `theirRole` is whatever the peer sent as its role. */
  datatype InitRequest = InitRequest(sessionType: SessionType, item: Item, theirRole: Json)

  /** `d.get(key, default)` read as a string. */
  function StrOr(d: Object, key: string, default: string): (r: Result<string>)
    ensures r.Success? <==> GetOr(d, key, JStr(default)).JStr?
    ensures r.Success? ==> GetOr(d, key, JStr(default)) == JStr(r.value)
  {
    match GetOr(d, key, JStr(default))
    case JStr(s) => Success(s)
    case _ => Failure("TypeError: " + key)
  }

  /** The `Item` an INIT builds from `action_data["item"]`: every field has a default. */
  function InitItem(d: Object): (r: Result<Item>)
    ensures d == map[] ==> r == Success(Item("unknown", "Unknown Item", "", None, map[]))
    ensures r.Success? <==> && GetOr(d, "id", JStr("unknown")).JStr? && GetOr(d, "name", JStr("Unknown Item")).JStr?
                            && GetOr(d, "description", JStr("")).JStr?
                            && OptionalStr(d, "category").Success? && ObjectField(d, "metadata").Success?
    ensures r.Success? ==>
      && GetOr(d, "id", JStr("unknown")) == JStr(r.value.id) && GetOr(d, "name", JStr("Unknown Item")) == JStr(r.value.name)
      && GetOr(d, "description", JStr("")) == JStr(r.value.description)
      && Get(d, "category") == OptStr(r.value.category)
      && GetOr(d, "metadata", JObj(map[])) == JObj(r.value.metadata)
    ensures r.Success? ==> ("category" !in d ==> r.value.category.None?) && ("metadata" !in d ==> r.value.metadata == map[])
  {
    var id :- StrOr(d, "id", "unknown");
    var name :- StrOr(d, "name", "Unknown Item");
    var description :- StrOr(d, "description", "");
    var category :- OptionalStr(d, "category");
    var metadata :- ObjectField(d, "metadata");
    Success(Item(id, name, description, category, metadata))
  }

  /**
   * How `_handle_init` reads `action_data or {}`: the session type
   * defaults to "negotiation" and must name a registered type (ValueError
   * otherwise), the item fields default, and the peer's role defaults to
   * "buyer". Data without `.get`, or a session type that is not text,
   * raises AttributeError.
   */
  function InitPlan(actionData: Json): (r: Result<InitRequest>)
  {
    var ad := ObjectOr(actionData);
    if !ad.JObj? then Failure(NoGetError)
    else
      var st := GetOr(ad.fields, "session_type", JStr("negotiation"));
      if !st.JStr? then Failure(NoValueError)
      else if SessionTypeFromValue(st.s).None? then Failure("ValueError: " + st.s + " is not a valid SessionType")
      else
        var itemData := GetOr(ad.fields, "item", JObj(map[]));
        if !itemData.JObj? then Failure(NoGetError)
        else
          var item :- InitItem(itemData.fields);
          Success(InitRequest(SessionTypeFromValue(st.s).value, item, GetOr(ad.fields, "role", JStr("buyer"))))
  }

  /** Our role is the opposite of the peer's: seller exactly when the peer says "buyer". */
  function OurRole(theirRole: Json): AgentRole {
    if theirRole == JStr("buyer") then Seller else Buyer
  }

  /** The `action_data` of the ACK answering an INIT. */
  function InitAck(ctx: string, q: InitRequest): Object {
    map["context_id" := JStr(ctx), "status" := JStr("initialized"), "session_type" := JStr(q.sessionType.Value()),
        "item" := JStr(q.item.name), "role" := q.theirRole, "our_role" := JStr(OurRole(q.theirRole).Value()),
        "message" := JStr("Session initialized. Ready to " + q.sessionType.Value() + "!")]
  }

  /** The ACK payload answering an INIT, built as the `n`-th payload. */
  function InitAnswer(n: nat, now: Timestamp, ctx: string, q: InitRequest): Reply {
    DataReply(ActionPayload(MessageId(n), now, Ack, Some(InitAck(ctx, q))))
  }

  /** An INIT without action data opens a negotiation over the placeholder item, with us as the seller. */
  lemma InitDefaults(actionData: Json)
    requires !Truthy(actionData)
    ensures InitPlan(actionData) == Success(InitRequest(Negotiation, Item("unknown", "Unknown Item", "", None, map[]),
                                                        JStr("buyer")))
    ensures OurRole(InitPlan(actionData).value.theirRole) == Seller
  {
    assert SessionTypeFromValue("negotiation") == Some(Negotiation);
  }

  /**
   * Of an INIT that is accepted: the session type is negotiation exactly
   * when none, or "negotiation", is named, and we are the seller exactly
   * when the peer names no role or "buyer".
   */
  lemma InitRoleFlip(actionData: Json)
    requires InitPlan(actionData).Success?
    ensures var d, q := ObjectOr(actionData).fields, InitPlan(actionData).value;
      && (q.sessionType == Negotiation <==> "session_type" !in d || d["session_type"] == JStr("negotiation"))
      && (OurRole(q.theirRole) == Seller <==> "role" !in d || d["role"] == JStr("buyer"))
  {
    var d := ObjectOr(actionData).fields;
    var st := GetOr(d, "session_type", JStr("negotiation"));
    assert SessionTypeFromValue(st.s) == Some(InitPlan(actionData).value.sessionType);
  }

  // ---------------------------------------------------------------------
  // Recording the incoming message

  const CancelledReason := "Cancelled"
  const CounterpartyCancelledReason := "Cancelled by counterparty"

  /**
   * `_update_state_from_message`: the entry a message is logged as before
   * anyone is asked, if any, or the exception building it raises. An
   * offer with data is stored as read (Offer.from_dict may raise); an
   * accept records its data; a cancel records its reason, or a default;
   * a discovery records its data, or `{}`; nothing else is logged.
   */
  function Incoming(m: ParsedMessage, now: Timestamp): (r: Result<Option<Entry>>)
  {
    match m.messageType
    case OfferMsg =>
      if !Truthy(m.offerData) then Success(None)
      else
        var o :- OfferFromJson(m.offerData, now);
        Success(Some(Entry(OfferReceived, OfferEntryData(o))))
    case ActionMsg =>
      if m.action == JStr(Accept.Value()) then Success(Some(Entry(OfferAccepted, map["action_data" := m.actionData])))
      else if m.action == JStr(Cancel.Value()) then
        if !Truthy(m.actionData) then Success(Some(Entry(SessionCancelled, map["reason" := JStr(CancelledReason)])))
        else if !m.actionData.JObj? then Failure(NoGetError)
        else Success(Some(Entry(SessionCancelled,
                                map["reason" := GetOr(m.actionData.fields, "reason", JStr(CounterpartyCancelledReason))])))
      else Success(None)
    case DiscoveryMsg => Success(Some(Entry(DiscoveryReceived, map["discovery_data" := ObjectOr(m.discoveryData)])))
  }

  /**
   * What logging a message does to a negotiation: a readable offer becomes
   * the last one received, an acceptance completes the session, a
   * cancellation cancels it, a discovery is appended to the discovery
   * messages; none of them moves the last offer we sent.
   */
  lemma IncomingNegotiationFold(n: NegotiationView, m: ParsedMessage, e: Event)
    requires Incoming(m, e.timestamp).Success? && Incoming(m, e.timestamp).value.Some?
    requires var en := Incoming(m, e.timestamp).value.value; e.eventType == en.eventType && e.data == en.data
    ensures var n' := Fold(NegotiationSession(n), e, e.timestamp).n;
      && n'.lastOfferSent == n.lastOfferSent && n'.base.updatedAt == e.timestamp
      && (m.messageType.OfferMsg? ==> n'.lastOfferReceived == Some(OfferFromJson(m.offerData, e.timestamp).value))
      && (IsAction(m, Accept) ==> n'.base.status == Completed)
      && (IsAction(m, Cancel) ==> n'.base.status == Cancelled)
      && (m.messageType.DiscoveryMsg? ==>
            n'.discoveryMessages == n.discoveryMessages + [DiscoveryEntry(ObjectOr(m.discoveryData), e.timestamp, e.contextId)])
  {
    if m.messageType.OfferMsg? {
      CarriedOfferReads(e, OfferFromJson(m.offerData, e.timestamp).value, e.timestamp);
    }
  }

  /** An offer logged in a reverse auction joins `all_offers` and the current round's bucket. */
  lemma IncomingAuctionOffer(a: AuctionView, m: ParsedMessage, e: Event)
    requires m.messageType.OfferMsg? && Incoming(m, e.timestamp).Success? && Incoming(m, e.timestamp).value.Some?
    requires var en := Incoming(m, e.timestamp).value.value; e.eventType == en.eventType && e.data == en.data
    ensures var o, a' := OfferFromJson(m.offerData, e.timestamp).value, Fold(AuctionSession(a), e, e.timestamp).a;
      && a'.allOffers == a.allOffers + [o]
      && Bucket(a', a.currentRound) == Bucket(a, a.currentRound) + [o]
      && a'.base.status == a.base.status
  {
    var o := OfferFromJson(m.offerData, e.timestamp).value;
    CarriedOfferReads(e, o, e.timestamp);
    assert RoundArg(e.data).None?;
  }

  // ---------------------------------------------------------------------
  // A counterparty's ACCEPT

  /**
   * `_handle_accept`'s check: the offer a counterparty's acceptance names
   * must be the last one we sent. None when the session is missing, the
   * acceptance names no offer, or names another. Reading the offer id off
   * data without `.get` raises, and so does reading the last offer sent
   * off a reverse-auction session, which has none.
   */
  function AcceptedOffer(sv: Option<SessionView>, actionData: Json): Result<Option<Offer>> {
    if sv.None? then Success(None)
    else if Truthy(actionData) && !actionData.JObj? then Failure(NoGetError)
    else
      var offerId := if Truthy(actionData) then Get(actionData.fields, "offer_id") else JNull;
      if !Truthy(offerId) then Success(None)
      else match sv.value
        case AuctionSession(_) => Failure(NoLastOfferError)
        case NegotiationSession(n) =>
          if n.lastOfferSent.None? || JStr(n.lastOfferSent.value.offerId) != offerId then Success(None)
          else Success(Some(n.lastOfferSent.value))
  }

  /** Validation passes exactly for a negotiation whose last offer sent has the non-empty id the acceptance names. */
  lemma AcceptValidated(sv: Option<SessionView>, actionData: Json, o: Offer)
    ensures AcceptedOffer(sv, actionData) == Success(Some(o)) <==>
      && sv.Some? && sv.value.NegotiationSession? && sv.value.n.lastOfferSent == Some(o)
      && o.offerId != "" && actionData.JObj? && Get(actionData.fields, "offer_id") == JStr(o.offerId)
  {
    if actionData.JObj? && Get(actionData.fields, "offer_id") == JStr(o.offerId) && o.offerId != "" {
      assert "offer_id" in actionData.fields;
      assert Truthy(actionData);
    }
  }

  /** SESSION_COMPLETED for a validated acceptance: the price is our last offer's. */
  function CounterpartyAcceptData(o: Offer): Object {
    map["reason" := JStr("Offer accepted by counterparty"), "final_price" := JNum(o.price),
        "accepted_offer_id" := JStr(o.offerId)]
  }

  /** The ACK of a validated acceptance. */
  function AcceptAck(o: Offer): Object {
    map["status" := JStr("completed"), "message" := JStr("Offer accepted. Deal complete!"),
        "offer_id" := JStr(o.offerId), "final_price" := JNum(o.price)]
  }

  // ---------------------------------------------------------------------
  // The agent's decision

  const AgentAcceptReason := "Offer accepted"
  const DefaultDealMessage := "Deal!"
  const UnknownActionText := "Unknown action type"
  const SessionNotFoundText := "Error: Session not found"

  /** The ACCEPT payload for an agent's acceptance: a missing or empty message becomes "Deal!". */
  function AgentAcceptData(offerId: string, message: Option<string>): Object {
    map["offer_id" := JStr(offerId),
        "message" := JStr(if message.Some? && message.value != "" then message.value else DefaultDealMessage),
        "status" := JStr("completed")]
  }

  function NoAgentText(sv: Option<SessionView>): string {
    "No agent configured for " + (if sv.Some? then sv.value.Base().sessionType.Value() else "unknown")
  }

  function AgentErrorText(err: string): string {
    "Error: Agent failed to decide action: " + err
  }

  /** `_get_agent_for_session`: by session type; none for a missing session. */
  function AgentFor(sv: Option<SessionView>, negotiationAgent: Option<Agent>, reverseAuctionAgent: Option<Agent>)
    : (r: Option<Agent>)
    ensures r.Some? ==> sv.Some?
  {
    match sv
    case None => None
    case Some(NegotiationSession(_)) => negotiationAgent
    case Some(AuctionSession(_)) => reverseAuctionAgent
  }

  /** What the answer to one message reads and changes: the session's state and the executor's counters. */
  datatype Snapshot = Snapshot(sv: Option<SessionView>, consulted: nat, offersMade: nat, messagesMade: nat)

  /** A stored state after logging `x`; a missing one stays missing. */
  ghost function Folded(sv: Option<SessionView>, x: seq<Event>): Option<SessionView> {
    if sv.Some? then Some(Replay(sv.value, x)) else None
  }

  /**
   * `_execute_action` on a stored session `sv`: SendOffer creates a fresh
   * offer on the session's item, logs it as sent and answers with the
   * offer payload; Accept logs OFFER_ACCEPTED then SESSION_COMPLETED and
   * answers with an ACCEPT; Discovery logs nothing and answers with the
   * discovery data, the message merged in; anything else is refused.
   */
  ghost predicate ActionDone(action: AgentAction, sv: SessionView, ctx: string, now: Timestamp,
                             b: Snapshot, x: seq<Event>, a: Snapshot, r: Reply)
  {
    && a.sv == Folded(b.sv, x) && a.consulted == b.consulted
    && match action
       case SendOfferAction(price, message, metadata) =>
         var o := OfferCreate(price, sv.Base().item.id, message, metadata, Text.HexId(b.offersMade), now);
         && Logged(x, Some(Entry(OfferSent, OfferEntryData(o))), Some(ctx), now)
         && a.offersMade == b.offersMade + 1 && a.messagesMade == b.messagesMade + 1
         && r == DataReply(OfferPayload(MessageId(b.messagesMade), now, o, sv.Base().sessionType))
       case AcceptOfferAction(offerId, message) =>
         && |x| == 2
         && Carries(x[0], OfferAccepted, map["offer_id" := JStr(offerId)], Some(ctx), now)
         && Carries(x[1], SessionCompleted, map["reason" := JStr(AgentAcceptReason)], None, now)
         && a.offersMade == b.offersMade && a.messagesMade == b.messagesMade + 1
         && r == DataReply(ActionPayload(MessageId(b.messagesMade), now, Accept, Some(AgentAcceptData(offerId, message))))
       case SendDiscoveryAction(text, data) =>
         && x == [] && a.offersMade == b.offersMade && a.messagesMade == b.messagesMade + 1
         && r == DataReply(DiscoveryPayload(MessageId(b.messagesMade), now, DiscoveryDataOf(text, data)))
       case UnknownAction =>
         x == [] && a == b && r == TextReply(UnknownActionText)
  }

  /**
   * Asking `agent` about the session: with no agent, or when it raises,
   * a text answer and nothing logged; otherwise its decision is carried
   * out.
   */
  ghost predicate Responded(agent: Option<Agent>, ctx: string, now: Timestamp, b: Snapshot, x: seq<Event>, a: Snapshot,
                            r: Reply)
  {
    match agent
    case None => x == [] && a == b && r == TextReply(NoAgentText(b.sv))
    case Some(decide) =>
      && b.sv.Some?
      && match decide(b.consulted, b.sv.value)
         case AgentRaised(err) => x == [] && a == b.(consulted := b.consulted + 1) && r == TextReply(AgentErrorText(err))
         case Decided(action) => ActionDone(action, b.sv.value, ctx, now, b.(consulted := b.consulted + 1), x, a, r)
  }

  /**
   * `_handle_message` after the session id is found: the message is logged
   * first (`x0`), and if building its entry raises nothing is.
   */
  ghost predicate Routed(m: ParsedMessage, ctx: string, negotiationAgent: Option<Agent>, reverseAuctionAgent: Option<Agent>,
                         now: Timestamp, b: Snapshot, x0: seq<Event>, x1: seq<Event>, a: Snapshot, r: Result<Reply>)
  {
    var p := Incoming(m, now);
    if p.Failure? then r == Failure(p.error) && x0 == [] && x1 == [] && a == b
    else
      && Logged(x0, p.value, Some(ctx), now)
      && AnsweredAfterLogging(m, ctx, negotiationAgent, reverseAuctionAgent, now, b.(sv := Folded(b.sv, x0)), x1, a, r)
  }

  /**
   * Once the message is logged: a valid counterparty acceptance is
   * answered without the agent; an invalid one falls through to the agent
   * like any other message.
   */
  ghost predicate AnsweredAfterLogging(m: ParsedMessage, ctx: string, negotiationAgent: Option<Agent>,
                                       reverseAuctionAgent: Option<Agent>, now: Timestamp, b: Snapshot, x: seq<Event>,
                                       a: Snapshot, r: Result<Reply>)
  {
    var acc := if IsAction(m, Accept) then AcceptedOffer(b.sv, m.actionData) else Success(None);
    if acc.Failure? then r == Failure(acc.error) && x == [] && a == b
    else if acc.value.Some? then
      && Logged(x, Some(Entry(SessionCompleted, CounterpartyAcceptData(acc.value.value))), None, now)
      && a == b.(sv := Folded(b.sv, x), messagesMade := b.messagesMade + 1)
      && r == Success(DataReply(ActionPayload(MessageId(b.messagesMade), now, Ack, Some(AcceptAck(acc.value.value)))))
    else
      r.Success? && Responded(AgentFor(b.sv, negotiationAgent, reverseAuctionAgent), ctx, now, b, x, a, r.value)
  }

  /**
   * The offer an agent's SendOffer creates becomes the last offer we
   * sent, on the session's item at the agent's price; a counterparty
   * ACCEPT naming its id then passes validation, and the session is
   * completed by the very OFFER_ACCEPTED that records it.
   */
  lemma OwnOfferAccepted(n: NegotiationView, price: Price, message: Option<string>, metadata: Option<Object>, ctx: string,
                         now: Timestamp, b: Snapshot, x: seq<Event>, a: Snapshot, r: Reply, m: ParsedMessage, e: Event)
    requires b.sv == Some(NegotiationSession(n))
    requires ActionDone(SendOfferAction(price, message, metadata), NegotiationSession(n), ctx, now, b, x, a, r)
    requires var o := OfferCreate(price, n.base.item.id, message, metadata, Text.HexId(b.offersMade), now);
      IsAction(m, Accept) && m.actionData.JObj? && Get(m.actionData.fields, "offer_id") == JStr(o.offerId)
    requires Incoming(m, e.timestamp) == Success(Some(Entry(e.eventType, e.data)))
    ensures var o := OfferCreate(price, n.base.item.id, message, metadata, Text.HexId(b.offersMade), now);
      && a.sv.Some? && a.sv.value.NegotiationSession?
      && a.sv.value.n.lastOfferSent == Some(o) && o.itemId == n.base.item.id && o.price == price
      && var after := Fold(a.sv.value, e, e.timestamp);
         AcceptedOffer(Some(after), m.actionData) == Success(Some(o)) && after.n.base.status == Completed
  {
    var o := OfferCreate(price, n.base.item.id, message, metadata, Text.HexId(b.offersMade), now);
    assert x == [x[0]];
    assert Replay(NegotiationSession(n), x) == Fold(NegotiationSession(n), x[0], x[0].timestamp) by {
      assert x[..0] == [];
    }
    CarriedOfferReads(x[0], o, x[0].timestamp);
    var sent := Fold(NegotiationSession(n), x[0], x[0].timestamp);
    assert sent.n.lastOfferSent == Some(o);
    IncomingNegotiationFold(sent.n, m, e);
    AcceptValidated(Some(Fold(sent, e, e.timestamp)), m.actionData, o);
  }

  /** An agent's acceptance leaves the session completed, whatever its kind. */
  lemma AgentAcceptCompletes(offerId: string, message: Option<string>, sv: SessionView, ctx: string, now: Timestamp,
                             b: Snapshot, x: seq<Event>, a: Snapshot, r: Reply)
    requires b.sv == Some(sv) && ActionDone(AcceptOfferAction(offerId, message), sv, ctx, now, b, x, a, r)
    ensures a.sv.Some? && a.sv.value.Base().status == Completed
  {
    assert x[..1] == [x[0]] && x[..1][..0] == [] && x == x[..1] + [x[1]];
    ReplayAppend(sv, x[..1], x[1]);
    match Replay(sv, x[..1])
    case NegotiationSession(_) =>
    case AuctionSession(_) =>
  }

  datatype TaskState = TaskCompleted | TaskFailed

  /** What `execute` leaves on the A2A task: the artifact it added, if any, and the final state. */
  datatype TaskOutcome = TaskOutcome(artifact: Option<Reply>, state: TaskState)

  const InvalidFormatText := "Failed to parse message - invalid format"

  /** The A2A task after `_handle_message` answered, or raised. */
  function Answer(r: Result<Reply>): (t: TaskOutcome)
    ensures t.state == TaskCompleted <==> r.Success?
    ensures r.Success? ==> t.artifact == Some(r.value)
  {
    match r
    case Success(reply) => TaskOutcome(Some(reply), TaskCompleted)
    case Failure(err) => TaskOutcome(Some(TextReply("Error: " + err)), TaskFailed)
  }

  // ---------------------------------------------------------------------
  // The executor

  class ShaketAgentExecutor {
    const sm: StateManager
    /** The server's context-to-session map, which an INIT writes. */
    var contextToSession: map<string, string>
    const negotiationAgent: Option<Agent>
    const reverseAuctionAgent: Option<Agent>
    /** Agent decisions asked for so far; the count numbers the next one. */
    var consulted: nat
    /** Offers created so far; the next offer id is `offer-` + HexId(offersMade). */
    var offersMade: nat
    /** Payloads built so far; the next one carries MessageId(messagesMade). */
    var messagesMade: nat

    constructor (sm: StateManager, contextToSession: map<string, string>, negotiationAgent: Option<Agent>,
                 reverseAuctionAgent: Option<Agent>)
      ensures this.sm == sm && this.contextToSession == contextToSession
      ensures this.negotiationAgent == negotiationAgent && this.reverseAuctionAgent == reverseAuctionAgent
      ensures consulted == 0 && offersMade == 0 && messagesMade == 0
    {
      this.sm := sm;
      this.contextToSession := contextToSession;
      this.negotiationAgent := negotiationAgent;
      this.reverseAuctionAgent := reverseAuctionAgent;
      consulted := 0;
      offersMade := 0;
      messagesMade := 0;
    }

    ghost function Snap(sid: string): Snapshot
      reads this, sm
    {
      Snapshot(sm.GetSession(sid), consulted, offersMade, messagesMade)
    }

    /** Nothing in the store but the session `sid`'s log and state changed. */
    twostate predicate OnlySession(sid: string)
      reads this, sm
    {
      && sm.events - {sid} == old(sm.events) - {sid}
      && sm.states - {sid} == old(sm.states) - {sid}
      && sm.states.Keys == old(sm.states.Keys)
      && sm.contextToSession == old(sm.contextToSession)
      && sm.initial == old(sm.initial)
      && sm.clock == old(sm.clock)
    }

    /** `_get_session_id`: the mapped id; an unmapped context, or one mapped to "", raises ValueError. */
    function SessionIdOf(ctx: string): (r: Result<string>)
      reads this
      ensures r.Success? <==> ctx in contextToSession && contextToSession[ctx] != ""
      ensures r.Success? ==> r.value == contextToSession[ctx]
      ensures r.Failure? ==> r.error == "No session found for context " + ctx
    {
      if ctx in contextToSession && contextToSession[ctx] != "" then Success(contextToSession[ctx])
      else Failure("No session found for context " + ctx)
    }

    /** `emit_event` for an event without an offer: logged, and folded without raising. */
    method Emit(sid: string, t: EventType, data: Object, ctx: Option<string>) returns (e: Event)
      requires sm.Valid() && t != StateUpdated && t != OfferSent && t != OfferReceived
      modifies sm
      ensures sm.Valid() && OnlySession(sid)
      ensures sm.Log(sid) == old(sm.Log(sid)) + [e]
      ensures Carries(e, t, data, ctx, old(sm.clock))
      ensures sm.GetSession(sid) == Folded(old(sm.GetSession(sid)), [e])
    {
      ghost var before := sm.GetSession(sid);
      var err;
      e, err := sm.EmitEvent(sid, t, data, ctx, None);
      FoldedOne(before, e);
    }

    /** `emit_event` for an offer event carrying `offer.to_dict()`: logged, and folded without raising. */
    method EmitOffer(sid: string, t: EventType, o: Offer, ctx: Option<string>) returns (e: Event)
      requires sm.Valid() && (t == OfferSent || t == OfferReceived)
      modifies sm
      ensures sm.Valid() && OnlySession(sid)
      ensures sm.Log(sid) == old(sm.Log(sid)) + [e]
      ensures Carries(e, t, OfferEntryData(o), ctx, old(sm.clock))
      ensures sm.GetSession(sid) == Folded(old(sm.GetSession(sid)), [e])
    {
      ghost var before := sm.GetSession(sid);
      var err;
      e, err := sm.EmitEvent(sid, t, OfferEntryData(o), ctx, None);
      FoldedOne(before, e);
    }

    /** `_update_state_from_message`: the message's entry is logged under the request's context. */
    method RecordIncoming(sid: string, m: ParsedMessage, ctx: string) returns (err: Option<string>, ghost x: seq<Event>)
      requires sm.Valid()
      modifies sm
      ensures sm.Valid() && OnlySession(sid)
      ensures sm.Log(sid) == old(sm.Log(sid)) + x
      ensures var p := Incoming(m, old(sm.clock));
        && (p.Failure? ==> err == Some(p.error) && x == [])
        && (p.Success? ==> err.None? && Logged(x, p.value, Some(ctx), old(sm.clock)))
      ensures sm.GetSession(sid) == Folded(old(sm.GetSession(sid)), x)
    {
      err, x := None, [];
      var e;
      match m.messageType
      case OfferMsg =>
        if Truthy(m.offerData) {
          var read := OfferFromJson(m.offerData, sm.clock);
          if read.Failure? {
            return Some(read.error), [];
          }
          e := EmitOffer(sid, OfferReceived, read.value, Some(ctx));
          x := [e];
        }
      case ActionMsg =>
        if m.action == JStr(Accept.Value()) {
          e := Emit(sid, OfferAccepted, map["action_data" := m.actionData], Some(ctx));
          x := [e];
        } else if m.action == JStr(Cancel.Value()) {
          var reason := JStr(CancelledReason);
          if Truthy(m.actionData) {
            if !m.actionData.JObj? {
              return Some(NoGetError), [];
            }
            reason := GetOr(m.actionData.fields, "reason", JStr(CounterpartyCancelledReason));
          }
          e := Emit(sid, SessionCancelled, map["reason" := reason], Some(ctx));
          x := [e];
        }
      case DiscoveryMsg =>
        e := Emit(sid, DiscoveryReceived, map["discovery_data" := ObjectOr(m.discoveryData)], Some(ctx));
        x := [e];
    }

    /** `_handle_accept`: a validated acceptance completes the session at our last offer's price and is acknowledged. */
    method HandleAccept(sid: string, m: ParsedMessage, ctx: string) returns (r: Result<Option<Reply>>, ghost x: seq<Event>)
      requires sm.Valid()
      modifies sm, this`messagesMade
      ensures sm.Valid() && OnlySession(sid)
      ensures sm.Log(sid) == old(sm.Log(sid)) + x
      ensures var acc := AcceptedOffer(old(sm.GetSession(sid)), m.actionData);
        && (acc.Failure? ==> r == Failure(acc.error) && x == [] && messagesMade == old(messagesMade) && unchanged(sm))
        && (acc == Success(None) ==> r == Success(None) && x == [] && messagesMade == old(messagesMade) && unchanged(sm))
        && (acc.Success? && acc.value.Some? ==>
              && Logged(x, Some(Entry(SessionCompleted, CounterpartyAcceptData(acc.value.value))), None, old(sm.clock))
              && messagesMade == old(messagesMade) + 1
              && r == Success(Some(DataReply(ActionPayload(MessageId(old(messagesMade)), old(sm.clock), Ack,
                                                           Some(AcceptAck(acc.value.value)))))))
      ensures sm.GetSession(sid) == Folded(old(sm.GetSession(sid)), x)
    {
      x := [];
      var acc := ValidateAccept(sid, m);
      if acc.Failure? {
        return Failure(acc.error), x;
      }
      if acc.value.None? {
        return Success(None), x;
      }
      var last := acc.value.value;
      var e := Emit(sid, SessionCompleted, CounterpartyAcceptData(last), None);
      x := [e];
      r := Success(Some(DataReply(ActionPayload(MessageId(messagesMade), sm.clock, Ack, Some(AcceptAck(last))))));
      messagesMade := messagesMade + 1;
    }

    /** The checks `_handle_accept` makes before completing: the offer named must be our last one sent. */
    method ValidateAccept(sid: string, m: ParsedMessage) returns (acc: Result<Option<Offer>>)
      ensures acc == AcceptedOffer(sm.GetSession(sid), m.actionData)
    {
      if sid !in sm.states {
        return Success(None);
      }
      var state := sm.states[sid];
      var offerId := JNull;
      if Truthy(m.actionData) {
        if !m.actionData.JObj? {
          return Failure(NoGetError);
        }
        offerId := Get(m.actionData.fields, "offer_id");
      }
      if !Truthy(offerId) {
        return Success(None);
      }
      if state.AuctionSession? {
        return Failure(NoLastOfferError);
      }
      var last := state.n.lastOfferSent;
      if last.None? || JStr(last.value.offerId) != offerId {
        return Success(None);
      }
      acc := Success(Some(last.value));
    }

    /** `_execute_action`: a missing session is answered with an error text; otherwise the decision is carried out. */
    method ExecuteAction(sid: string, action: AgentAction, ctx: string) returns (r: Reply, ghost x: seq<Event>)
      requires sm.Valid()
      modifies sm, this`offersMade, this`messagesMade
      ensures sm.Valid() && OnlySession(sid)
      ensures sm.Log(sid) == old(sm.Log(sid)) + x
      ensures sid !in old(sm.states) ==> r == TextReply(SessionNotFoundText) && x == [] && Snap(sid) == old(Snap(sid))
      ensures sid in old(sm.states) ==>
        ActionDone(action, old(sm.states[sid]), ctx, old(sm.clock), old(Snap(sid)), x, Snap(sid), r)
    {
      if sid !in sm.states {
        return TextReply(SessionNotFoundText), [];
      }
      var state := sm.states[sid];
      match action
      case SendOfferAction(price, message, metadata) =>
        r, x := SendOffer(sid, state, price, message, metadata, ctx);
      case AcceptOfferAction(offerId, message) =>
        r, x := AcceptOffer(sid, state, offerId, message, ctx);
      case SendDiscoveryAction(text, data) =>
        x := [];
        r := DataReply(DiscoveryPayload(MessageId(messagesMade), sm.clock, DiscoveryDataOf(text, data)));
        messagesMade := messagesMade + 1;
      case UnknownAction =>
        x := [];
        r := TextReply(UnknownActionText);
    }

    /** A SendOffer decision: a fresh offer on the session's item is logged as sent and sent. */
    method SendOffer(sid: string, state: SessionView, price: Price, message: Option<string>, metadata: Option<Object>,
                     ctx: string) returns (r: Reply, ghost x: seq<Event>)
      requires sm.Valid() && sm.GetSession(sid) == Some(state)
      modifies sm, this`offersMade, this`messagesMade
      ensures sm.Valid() && OnlySession(sid)
      ensures sm.Log(sid) == old(sm.Log(sid)) + x
      ensures ActionDone(SendOfferAction(price, message, metadata), state, ctx, old(sm.clock), old(Snap(sid)), x, Snap(sid), r)
    {
      var offer := OfferCreate(price, state.Base().item.id, message, metadata, Text.HexId(offersMade), sm.clock);
      offersMade := offersMade + 1;
      var e := EmitOffer(sid, OfferSent, offer, Some(ctx));
      x := [e];
      r := DataReply(OfferPayload(MessageId(messagesMade), sm.clock, offer, state.Base().sessionType));
      messagesMade := messagesMade + 1;
    }

    /** An Accept decision: OFFER_ACCEPTED under the request's context, then SESSION_COMPLETED, then an ACCEPT. */
    method AcceptOffer(sid: string, state: SessionView, offerId: string, message: Option<string>, ctx: string)
      returns (r: Reply, ghost x: seq<Event>)
      requires sm.Valid() && sm.GetSession(sid) == Some(state)
      modifies sm, this`messagesMade
      ensures sm.Valid() && OnlySession(sid)
      ensures sm.Log(sid) == old(sm.Log(sid)) + x
      ensures ActionDone(AcceptOfferAction(offerId, message), state, ctx, old(sm.clock), old(Snap(sid)), x, Snap(sid), r)
    {
      ghost var log0 := sm.Log(sid);
      var e0 := Emit(sid, OfferAccepted, map["offer_id" := JStr(offerId)], Some(ctx));
      var e1 := Emit(sid, SessionCompleted, map["reason" := JStr(AgentAcceptReason)], None);
      x := [e0, e1];
      LoggedTwo(log0, Some(state), e0, e1);
      r := DataReply(ActionPayload(MessageId(messagesMade), sm.clock, Accept, Some(AgentAcceptData(offerId, message))));
      messagesMade := messagesMade + 1;
    }

    /** The agent step of `_handle_message`: choose the agent by session type, ask it, carry out its decision. */
    method Respond(sid: string, ctx: string) returns (r: Reply, ghost x: seq<Event>)
      requires sm.Valid()
      modifies sm, this`consulted, this`offersMade, this`messagesMade
      ensures sm.Valid() && OnlySession(sid)
      ensures sm.Log(sid) == old(sm.Log(sid)) + x
      ensures Responded(AgentFor(old(sm.GetSession(sid)), negotiationAgent, reverseAuctionAgent), ctx, old(sm.clock),
                        old(Snap(sid)), x, Snap(sid), r)
    {
      var state := sm.GetSession(sid);
      var agent := AgentFor(state, negotiationAgent, reverseAuctionAgent);
      if agent.None? {
        return TextReply(NoAgentText(state)), [];
      }
      var reply := agent.value(consulted, state.value);
      consulted := consulted + 1;
      match reply
      case AgentRaised(err) =>
        r, x := TextReply(AgentErrorText(err)), [];
      case Decided(action) =>
        r, x := ExecuteAction(sid, action, ctx);
    }

    /** `_handle_message` once the session id is known. */
    method Route(sid: string, m: ParsedMessage, ctx: string) returns (r: Result<Reply>, ghost x0: seq<Event>,
                                                                      ghost x1: seq<Event>)
      requires sm.Valid()
      modifies sm, this`consulted, this`offersMade, this`messagesMade
      ensures sm.Valid() && OnlySession(sid)
      ensures sm.Log(sid) == old(sm.Log(sid)) + x0 + x1
      ensures Routed(m, ctx, negotiationAgent, reverseAuctionAgent, old(sm.clock), old(Snap(sid)), x0, x1, Snap(sid), r)
    {
      var err;
      err, x0 := RecordIncoming(sid, m, ctx);
      if err.Some? {
        return Failure(err.value), x0, [];
      }
      r, x1 := AnswerLogged(sid, m, ctx);
    }

    /** The rest of `_handle_message`: validating a counterparty acceptance, then the agent. */
    method AnswerLogged(sid: string, m: ParsedMessage, ctx: string) returns (r: Result<Reply>, ghost x: seq<Event>)
      requires sm.Valid()
      modifies sm, this`consulted, this`offersMade, this`messagesMade
      ensures sm.Valid() && OnlySession(sid)
      ensures sm.Log(sid) == old(sm.Log(sid)) + x
      ensures AnsweredAfterLogging(m, ctx, negotiationAgent, reverseAuctionAgent, old(sm.clock), old(Snap(sid)), x,
                                   Snap(sid), r)
    {
      var acc := Success(None);
      x := [];
      if IsAction(m, Accept) {
        acc, x := HandleAccept(sid, m, ctx);
      }
      if acc.Failure? {
        return Failure(acc.error), x;
      }
      if acc.value.Some? {
        return Success(acc.value.value), x;
      }
      var reply;
      reply, x := Respond(sid, ctx);
      r := Success(reply);
    }

    /**
     * `_handle_init`: the session is created under the request's context
     * id, which becomes its id and its primary context, and is mapped to
     * it in both maps; the answer is an ACK carrying the context id.
     */
    twostate predicate InitHandled(m: ParsedMessage, ctx: string, new r: Result<Reply>)
      reads this, sm
    {
      var p := InitPlan(m.actionData);
      && consulted == old(consulted) && offersMade == old(offersMade)
      && if p.Failure? then
        && r == Failure(p.error)
        && sm.states == old(sm.states) && sm.events == old(sm.events) && sm.contextToSession == old(sm.contextToSession)
        && contextToSession == old(contextToSession) && messagesMade == old(messagesMade)
      else
        r.Success? && InitDone(ctx, p.value, r.value)
    }

    /** An accepted INIT: the session is opened and mapped, and the ACK built. */
    twostate predicate InitDone(ctx: string, q: InitRequest, new r: Reply)
      reads this, sm
    {
      && contextToSession == old(contextToSession)[ctx := ctx]
      && Opened(ctx, q)
      && r == InitAnswer(old(messagesMade), old(sm.clock), ctx, q)
      && messagesMade == old(messagesMade) + 1
    }

    /**
     * The store after `create_session(session_id=context_id, ...)`: the
     * session is new-born, with the request's context as id and primary
     * context, the type, item and our role asked for, and one
     * SESSION_CREATED in its log.
     */
    twostate predicate Opened(ctx: string, q: InitRequest)
      reads sm
    {
      && sm.contextToSession == old(sm.contextToSession)[Some(ctx) := ctx]
      && ctx in sm.states && sm.states == old(sm.states)[ctx := sm.states[ctx]]
      && sm.events == old(sm.events)[ctx := sm.Log(ctx)] && |sm.Log(ctx)| == 1
      && Carries(sm.Log(ctx)[0], SessionCreated, CreatedData(Some(ctx), q.sessionType, OurRole(q.theirRole), q.item),
                 Some(ctx), old(sm.clock))
      && var b := sm.states[ctx].Base();
         && b.sessionId == ctx && b.contextId == Some(ctx) && b.sessionType == q.sessionType
         && b.role == OurRole(q.theirRole) && b.item == q.item && b.status == Initialized
    }

    method OpenSession(ctx: string, q: InitRequest)
      requires sm.Valid()
      modifies sm
      ensures sm.Valid() && Opened(ctx, q)
    {
      var now := sm.clock;
      var made := sm.CreateSession(ctx, Some(ctx), Some(q.sessionType), OurRole(q.theirRole), q.item, NoOptions);
      assert made.Success?;
      CreatedBase(ctx, q.sessionType, OurRole(q.theirRole), q.item, now, sm.Log(ctx)[0]);
    }

    method HandleInit(m: ParsedMessage, ctx: string) returns (r: Result<Reply>)
      requires sm.Valid()
      modifies sm, this`contextToSession, this`messagesMade
      ensures sm.Valid()
      ensures InitHandled(m, ctx, r)
    {
      var p := InitPlan(m.actionData);
      if p.Failure? {
        return Failure(p.error);
      }
      var reply := Initialize(ctx, p.value);
      r := Success(reply);
    }

    method Initialize(ctx: string, q: InitRequest) returns (r: Reply)
      requires sm.Valid()
      modifies sm, this`contextToSession, this`messagesMade
      ensures sm.Valid() && InitDone(ctx, q, r)
      ensures consulted == old(consulted) && offersMade == old(offersMade)
    {
      var now := sm.clock;
      OpenSession(ctx, q);
      contextToSession := contextToSession[ctx := ctx];
      r := InitAnswer(messagesMade, now, ctx, q);
      messagesMade := messagesMade + 1;
    }

    /**
     * `_handle_message`: INIT is handled before any lookup; any other
     * message on an unmapped context is answered with the lookup's error
     * text and logs nothing; otherwise it is routed in its session.
     */
    twostate predicate Handled(m: ParsedMessage, ctx: string, new r: Result<Reply>, x0: seq<Event>, x1: seq<Event>)
      reads this, sm
    {
      if IsAction(m, Init) then InitHandled(m, ctx, r)
      else
        && contextToSession == old(contextToSession)
        && match old(SessionIdOf(ctx))
           case Failure(err) =>
             && r == Success(TextReply(err))
             && sm.states == old(sm.states) && sm.events == old(sm.events)
             && consulted == old(consulted) && offersMade == old(offersMade) && messagesMade == old(messagesMade)
           case Success(sid) =>
             && OnlySession(sid)
             && sm.Log(sid) == old(sm.Log(sid)) + x0 + x1
             && Routed(m, ctx, negotiationAgent, reverseAuctionAgent, old(sm.clock), old(Snap(sid)), x0, x1, Snap(sid), r)
    }

    method HandleMessage(m: ParsedMessage, ctx: string) returns (r: Result<Reply>, ghost x0: seq<Event>,
                                                                 ghost x1: seq<Event>)
      requires sm.Valid()
      modifies this, sm
      ensures sm.Valid()
      ensures Handled(m, ctx, r, x0, x1)
    {
      x0, x1 := [], [];
      if IsAction(m, Init) {
        r := HandleInit(m, ctx);
        return;
      }
      var sid := SessionIdOf(ctx);
      if sid.Failure? {
        return Success(TextReply(sid.error)), x0, x1;
      }
      r, x0, x1 := Route(sid.value, m, ctx);
    }

    /**
     * `execute`: a request without a message fails with no artifact; one
     * whose message does not parse fails with a text artifact; otherwise
     * the answer is the artifact and the A2A task completes, unless handling
     * raised, when the error text is the artifact and the A2A task fails.
     */
    method Execute(message: Option<Message>, ctx: string)
      returns (t: TaskOutcome, parsed: Result<Option<ParsedMessage>>, r: Result<Reply>,
               ghost x0: seq<Event>, ghost x1: seq<Event>)
      requires sm.Valid()
      modifies this, sm
      ensures sm.Valid()
      ensures message.None? ==> t == TaskOutcome(None, TaskFailed) && unchanged(this, sm)
      ensures message.Some? ==> parsed == ParseA2AMessage(message.value, old(sm.clock))
      ensures message.Some? && parsed.Failure? ==>
        t == TaskOutcome(Some(TextReply("Error: " + parsed.error)), TaskFailed) && unchanged(this, sm)
      ensures message.Some? && parsed == Success(None) ==>
        t == TaskOutcome(Some(TextReply(InvalidFormatText)), TaskFailed) && unchanged(this, sm)
      ensures message.Some? && parsed.Success? && parsed.value.Some? ==>
        t == Answer(r) && Handled(parsed.value.value, ctx, r, x0, x1)
    {
      parsed, r, x0, x1 := Success(None), Success(TextReply("")), [], [];
      if message.None? {
        return TaskOutcome(None, TaskFailed), parsed, r, x0, x1;
      }
      parsed := ParseA2AMessage(message.value, sm.clock);
      if parsed.Failure? {
        return TaskOutcome(Some(TextReply("Error: " + parsed.error)), TaskFailed), parsed, r, x0, x1;
      }
      if parsed.value.None? {
        return TaskOutcome(Some(TextReply(InvalidFormatText)), TaskFailed), parsed, r, x0, x1;
      }
      r, x0, x1 := HandleMessage(parsed.value.value, ctx);
      t := Answer(r);
    }
  }

  /** Logging one event folds it into a stored state. */
  lemma FoldedOne(sv: Option<SessionView>, e: Event)
    ensures Folded(sv, [e]) == if sv.Some? then Some(Fold(sv.value, e, e.timestamp)) else None
  {
    if sv.Some? {
      assert [] + [e] == [e];
      ReplayAppend(sv.value, [], e);
    }
  }

  /** Logging two events one after the other logs and folds both. */
  lemma LoggedTwo(log: seq<Event>, sv: Option<SessionView>, e0: Event, e1: Event)
    ensures log + [e0] + [e1] == log + [e0, e1]
    ensures Folded(Folded(sv, [e0]), [e1]) == Folded(sv, [e0, e1])
  {
    AppendAssoc(log, [e0], [e1]);
    assert [e0] + [e1] == [e0, e1];
    FoldedOne(sv, e0);
    if sv.Some? {
      ReplayAppend(sv.value, [e0], e1);
      FoldedOne(Some(Replay(sv.value, [e0])), e1);
    }
  }

  /** A session just created under `sid` has the id, context, type, role and item asked for, and is initialized. */
  lemma CreatedBase(sid: string, t: SessionType, role: AgentRole, item: Item, now: Timestamp, e: Event)
    requires e.eventType == SessionCreated
    ensures var b := Fold(InitialView(sid, Some(sid), t, role, item, NoOptions, now), e, now).Base();
      && b.sessionId == sid && b.contextId == Some(sid) && b.sessionType == t && b.role == role && b.item == item
      && b.status == Initialized
  {
  }
}
