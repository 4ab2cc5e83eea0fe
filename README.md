# shaket session engine, in Dafny

A model of the event-sourced session engine at the heart of shaket, a
protocol through which buying and selling agents negotiate or run reverse
auctions, together with proofs about it.

A session (a bilateral negotiation or a multi-round reverse auction) is a
state record. It changes only by folding events into it: lifecycle
changes, counterparties joining, offers sent and received, rounds opening
and closing. The store keeps one state per session, an append-only event
log per session and an index from conversation contexts to sessions.
Emitting an event appends it to the log and folds it into the live state.
The coordinators drive sessions through the store:

- the negotiation coordinator loops over agent decisions and counterparty replies;
- the reverse-auction coordinators, a current one and an older agent-less one, run numbered bidding rounds over every seller;
- the server-side executor answers each incoming protocol message.

Around them sit the value types and their dictionary codecs (items,
offers, events), the protocol message payloads with their parser, and the
capability card's skill selection.

The modules follow the repository:

- Wrappers, Json, Text, Dicts (wrappers.dfy, json.dfy, text.dfy, dicts.dfy): results, the JSON-like values the repository passes around, truthiness, decimal and hex text, insertion-ordered dictionaries.
- Types (types.dfy): session types, roles, `Item`, `Offer` and `SessionContext`.
- Events (events.dfy): `EventType`, `Event.create`, `to_dict` and `from_dict`.
- SessionStates, SessionFacts (session_state.dfy, session_facts.dfy): the three state records as classes whose `ApplyEvent` mutates their fields, each specified by a pure fold over a value snapshot, and the facts proved about the folds.
- StateManagement (state_manager.dfy): `StateManager`. Every mutating method keeps the replay invariant: the live state of every session is its initial state with its log folded in.
- Messages, MessageParsing (messages.dfy, message_parser.dfy): the payload builders, `parse_message` and `MessageParser`.
- Coordination (coordination.dfy): agent actions, the abstract agent and messenger, `CoordinatorResult` and price ranges.
- NegotiationCoordination (negotiation.dfy): `NegotiationCoordinator`.
- AuctionRules, AuctionSteps (auction_rules.dfy, auction_steps.dfy): the rules and store steps both reverse-auction coordinators share.
- ReverseAuctionCoordination, ReverseAuctionLegacy (reverse_auction.dfy, reverse_auction_legacy.dfy): the current and the older `ReverseAuctionCoordinator`.
- AgentExecution (agent_executor.dfy): `ShaketAgentExecutor`.
- AgentCards (agent_card.dfy): `generate_agent_card`.

The agent and the messenger are function parameters numbered by a call
counter, so each consultation or send may answer differently; a reply is
either a list of parsed messages or a failure. Each coordinator method
states what it logs, in order, and what the replayed state becomes. A
"Ready" precondition says the store is consistent and the session, if
stored, is of the coordinator's kind. An "OnlySession" postcondition says
no other session, no index entry and no clock reading changed.

## Model

| member | source | states |
|---|---|---|
| Text.DecimalText | src/shaket/state/events.py:149 | the rendering of a timestamp is a non-empty run of decimal digits |
| Text.ParseDecimal | src/shaket/state/events.py:170 | parsing accepts exactly the non-empty runs of decimal digits and refuses every other text |
| Text.DigitsValueOfDecimal | src/shaket/state/events.py:149 | the digits of a rendered number evaluate back to that number |
| Text.ParseDecimalText | src/shaket/state/events.py:149-170 | parsing the rendering of a timestamp gives the timestamp back (`fromisoformat(isoformat(t)) == t`) |
| Text.HexDigits | src/shaket/state/events.py:129 | an identifier suffix has exactly the requested width and uses only lower-case hex digits |
| Text.HexId | src/shaket/state/events.py:129 | a generated id suffix is twelve lower-case hex digits, as `uuid4().hex[:12]` is |
| Text.HexDigitsValue | src/shaket/state/events.py:129 | the hex digits encode the counter modulo 16 to the width |
| Text.HexIdInjective | src/shaket/state/events.py:129 | two different counter values below 16^12 give two different id suffixes, so generated ids do not collide |
| Text.Join | src/server/agent_card.py:65 | `sep.join`: the empty list joins to "", a single part joins to itself |
| Json.RequireStr | src/shaket/core/types.py:116 | `data[key]` fails with KeyError when the key is absent, as the source does; the model also refuses a present value that is not text (the source keeps it as found), and otherwise returns the text |
| Json.RequireNum | src/shaket/core/types.py:117 | `data[key]` fails with KeyError when the key is absent, as the source does; the model also refuses a present value that is not a whole number (the source keeps it as found), and otherwise returns the number |
| Json.OptionalStr | src/shaket/core/types.py:119 | `data.get(key)` read as optional text succeeds exactly when the value is absent, None or a string, and returns it |
| Json.ObjectField | src/shaket/core/types.py:125 | `data.get(key, {})` read as a dict succeeds exactly when the value (default `{}`) is a dict, and returns it |
| Dicts.Dict.Get | src/shaket/state/session_state.py:343-352 | a lookup finds a value exactly when the key is present, and it is the stored value |
| Dicts.Dict.Put | src/shaket/state/session_state.py:318-320 | assignment keeps the dict well formed, overwrites the entry, keeps the key order for an existing key and appends a new key at the end |
| Dicts.Dict.Values | src/shaket/state/session_state.py:343-352 | `list(d.values())` lists one value per key, in insertion order |
| Dicts.ValuesOf | src/shaket/state/session_state.py:524-533 | the values of a list of keys, one per key, in that order |
| Dicts.Empty | src/shaket/state/session_state.py:277-280 | a fresh dict is well formed and has no keys |
| Dicts.PutGet | src/shaket/state/session_state.py:318-328 | after assigning `d[k] = v`, looking up `k` gives `v` and every other key gives what it gave before |
| Types.IsoRoundTrip | src/shaket/state/events.py:149-170 | `fromisoformat(isoformat(t)) == t` |
| Types.IsoFormat | src/shaket/state/events.py:149 | a rendered timestamp is non-empty text made of decimal digits only |
| Types.ParseTimestamp | src/shaket/state/events.py:170 | `fromisoformat` succeeds exactly on a string that is a rendered timestamp, and returns that timestamp |
| Types.SessionTypeFromValue | src/shaket/core/types.py:14-18 | `SessionType(value)` succeeds exactly for "negotiation" and "reverse_auction", and the member's value is the input |
| Types.AgentRoleFromValue | src/shaket/core/types.py:21-25 | `AgentRole(value)` succeeds exactly for "buyer" and "seller", and the member's value is the input |
| Types.EnumRoundTrips | src/shaket/core/types.py:14-25 | `SessionType(t.value) == t` and `AgentRole(r.value) == r` |
| Types.ItemFromDict | src/shaket/core/types.py:53-61 | the model's reading of `Item.from_dict` succeeds exactly when id, name and description are present as strings, the category is absent, None or a string, and metadata (default `{}`) is a dict; a missing id, name or description fails as the source's KeyError does, and a present value of another kind is refused where the source stores it; the item holds exactly the values read, with no category and empty metadata when the keys are absent |
| Types.ItemToDict | src/shaket/core/types.py:42-51 | `Item.to_dict` has exactly the keys id, name, description, category and metadata |
| Types.ItemRoundTrip | src/shaket/core/types.py:42-61 | `Item.from_dict(item.to_dict()) == item` |
| Types.OfferCreate | src/shaket/core/types.py:82-96 | `Offer.create` gives an id "offer-" plus twelve hex digits, keeps price, item, message, takes the current time, defaults metadata to `{}` and leaves from/to/signature empty |
| Types.OfferFromJson | src/shaket/core/types.py:113-129 | the model's reading of `Offer.from_dict` succeeds exactly on a dict with offer_id and item_id as text and price as a whole number (a missing one fails as the source's KeyError does; one of another kind is refused where the source stores it), optional message/from/to/signature strings, a dict of metadata and a timestamp that parses when present; the offer holds each of those values (sender from `from`, recipient from `to`), the parsed timestamp, or the current time when there is none, and None or `{}` for absent optional keys |
| Types.OfferToDict | src/shaket/core/types.py:98-110 | `Offer.to_dict` writes the timestamp as ISO text, the sender under `from` and the recipient under `to` |
| Types.OfferRoundTrip | src/shaket/core/types.py:98-129 | `Offer.from_dict(offer.to_dict()) == offer`, whatever the current time |
| Types.OfferDictTruthy | src/shaket/core/types.py:98-110 | an offer's dict form has exactly the nine keys of `to_dict`, so it is never empty and `if offer_data:` tests presence only |
| Types.SessionContext.constructor | src/shaket/core/types.py:133-157 | a new context stores its arguments and starts with no counterparties, state "initialized", round 0 and empty metadata |
| Types.SessionContext.AddCounterparty | src/shaket/core/types.py:159-166 | the link (endpoint, context id) is appended and nothing else changes |
| Events.EventTypeFromValue | src/shaket/state/events.py:15-62 | `EventType(value)` succeeds exactly for the listed event-type strings, and the member's value is the input |
| Events.EventTypeRoundTrip | src/shaket/state/events.py:15-62 | `EventType(t.value) == t`, and every value is among the listed strings |
| Events.EventCreate | src/shaket/state/events.py:107-136 | `Event.create` gives an id "evt-" plus twelve hex digits, keeps session, type and context, takes the current time and defaults data and metadata to `{}` |
| Events.EventFromDict | src/shaket/state/events.py:156-174 | the model's reading of `Event.from_dict` succeeds exactly when event_id, session_id, event_type (a known type) and a parsable timestamp are present, with optional context id and dict-valued data and metadata (a missing key, an unknown type or a timestamp that is not text fails as in the source; present ids, context id, data or metadata of another kind are refused where the source stores them); the event holds exactly those values, `{}` for absent data or metadata and None for an absent context id |
| Events.EventToDict | src/shaket/state/events.py:138-154 | `Event.to_dict` has exactly the keys event_id, session_id, event_type, timestamp, context_id, data and metadata, with the type as its value string and the timestamp as ISO text |
| Events.EventRoundTrip | src/shaket/state/events.py:138-174 | `Event.from_dict(event.to_dict()) == event` |
| Events.TypesOf | src/state/state_manager.py:273-307 | the event types of a log, one per event, in log order |
| Events.TypesOfAppend | src/state/state_manager.py:214-271 | the types of an appended log are the old types followed by the new ones |
| SessionStates.StatusFromName | src/shaket/state/session_state.py:63-65 | a status name is recognised exactly when it is one of initialized, active, completed, cancelled, failed, and names itself back |
| SessionStates.BaseView.AllContexts | src/shaket/state/session_state.py:131-145 | the contexts are the primary context (first, when it is truthy) and every counterparty context, and nothing else; the length is the number of counterparties plus one for a truthy primary context |
| SessionStates.SessionState.GetAllContexts | src/shaket/state/session_state.py:131-145 | the primary context comes first when it is set and non-empty, followed by the counterparty contexts in the order they joined; with no primary context the list is exactly the counterparty contexts in that order |
| SessionStates.FoldError | src/shaket/state/session_state.py:160-205 | applying an event reports an error exactly when the fold would raise (a malformed offer payload, a non-dict `updates`) |
| SessionStates.BucketTotalAdd | src/shaket/state/session_state.py:503-522 | appending an offer to a round bucket keeps the per-round dict well formed and adds one to the total of all buckets |
| SessionStates.BucketTotalOpen | src/shaket/state/session_state.py:476-478 | opening an empty bucket for a new round keeps the dict well formed and keeps the total |
| SessionStates.BaseFoldKeepsDicts | src/shaket/state/session_state.py:160-205 | the base fold keeps the counterparty dict well formed |
| SessionStates.NegotiationFoldPreservesWellFormed | src/shaket/state/session_state.py:297-341 | every event keeps a negotiation state well formed: its offer dicts are well formed and the last sent and received offers are entries of them |
| SessionStates.NegotiationOfferKeepsWellFormed | src/shaket/state/session_state.py:315-329 | OFFER_SENT and OFFER_RECEIVED keep a negotiation state well formed |
| SessionStates.AuctionFoldPreservesWellFormed | src/shaket/state/session_state.py:456-501 | every event keeps a reverse-auction state well formed: the per-round buckets together hold exactly as many offers as `all_offers` |
| SessionStates.AuctionRoundKeepsWellFormed | src/shaket/state/session_state.py:474-478 | BIDDING_ROUND_STARTED keeps a reverse-auction state well formed |
| SessionStates.AuctionOfferKeepsWellFormed | src/shaket/state/session_state.py:484-491 | OFFER_RECEIVED keeps a reverse-auction state well formed |
| SessionStates.FoldPreservesWellFormed | src/shaket/state/session_state.py:160-205 | applying any event to a well-formed session state of either kind gives a well-formed state |
| SessionStates.InitialBase | src/shaket/state/session_state.py:17-100 | a fresh base state has a well-formed (empty) counterparty dict |
| SessionStates.SessionState.constructor | src/shaket/state/session_state.py:17-100 | a new state has the given identity, status "initialized", creation and update time now, no counterparties, round 0 and empty metadata |
| SessionStates.SessionState.AddCounterparty | src/shaket/state/session_state.py:110-129 | the counterparty is stored under its context (the name only when truthy), an existing entry is replaced in place, and updated_at becomes now; nothing else changes |
| SessionStates.SessionState.GetCounterpartyEndpoint | src/shaket/state/session_state.py:147-158 | an endpoint is returned exactly when the context is a counterparty, and it is that counterparty's endpoint |
| SessionStates.SessionState.ApplyEvent | src/shaket/state/session_state.py:160-205 | the new state is the base fold of the old one: updated_at takes the event time, lifecycle events set the status, COUNTERPARTY_JOINED with truthy endpoint and context adds the counterparty, STATE_UPDATED sets the named fields; an error is reported exactly when the event is malformed |
| SessionStates.NegotiationState.constructor | src/shaket/state/session_state.py:235-296 | a new negotiation state is the initial negotiation view: no offers, no last offers, no discovery messages, the given limits |
| SessionStates.NegotiationState.ApplyEvent | src/shaket/state/session_state.py:297-341 | the new state is the negotiation fold of the old one (base fold first, then round, offers sent and received, acceptance, discovery); an error is reported exactly when the event is malformed |
| SessionStates.NegotiationState.GetAllOffers | src/shaket/state/session_state.py:343-352 | the offers sent, in insertion order, followed by the offers received, in insertion order |
| SessionStates.InitialNegotiation | src/shaket/state/session_state.py:235-296 | a fresh negotiation state is well formed |
| SessionStates.ReverseAuctionState.constructor | src/shaket/state/session_state.py:383-455 | a new reverse-auction state is the initial auction view: round 0, no buckets, no offers, the given round settings |
| SessionStates.ReverseAuctionState.AddOffer | src/shaket/state/session_state.py:503-522 | the offer is appended to `all_offers` and to the bucket of the given round (the current round when none is given), the bucket is created when missing, and updated_at becomes now |
| SessionStates.ReverseAuctionState.ApplyEvent | src/shaket/state/session_state.py:456-501 | the new state is the auction fold of the old one (base fold, then start, round start with its bucket, offers through `add_offer`, discovery); an error is reported exactly when the event is malformed |
| SessionStates.ReverseAuctionState.GetAllOffers | src/shaket/state/session_state.py:524-533 | returns `all_offers`, whose length is the total over all round buckets |
| SessionStates.InitialAuction | src/shaket/state/session_state.py:383-455 | a fresh reverse-auction state is well formed |
| SessionFacts.FoldStampsUpdatedAt | src/shaket/state/session_state.py:173-174 | every event sets updated_at to the event's time, except that an offer recorded in a reverse auction sets it to the current time (through `add_offer`) |
| SessionFacts.LifecycleEventSetsStatus | src/shaket/state/session_state.py:176-187 | SESSION_STARTED/COMPLETED/CANCELLED/FAILED set the status to active/completed/cancelled/failed, applying the same event again changes nothing further, and the counterparties are untouched |
| SessionFacts.NoTerminalGuard | src/shaket/state/session_state.py:177-178 | there is no terminal-state guard: SESSION_STARTED reactivates a completed, cancelled or failed session |
| SessionFacts.CounterpartyJoins | src/shaket/state/session_state.py:189-198 | only COUNTERPARTY_JOINED with a truthy endpoint and context id adds or replaces exactly that counterparty (with its name when truthy); every other counterparty and every other event leaves the dict as it was |
| SessionFacts.StateUpdateNamesOnly | src/shaket/state/session_state.py:200-205 | STATE_UPDATED changes only fields it names; a field it does not name keeps its value |
| SessionFacts.StateUpdateSetsStatus | src/shaket/state/session_state.py:200-205 | STATE_UPDATED naming a status sets that status |
| SessionFacts.NegotiationOffersGrow | src/shaket/state/session_state.py:315-329 | offer ids are never removed from either offer dict, and only OFFER_SENT (OFFER_RECEIVED) touches the sent (received) dict and last offer |
| SessionFacts.NegotiationRecordsOffer | src/shaket/state/session_state.py:315-329 | a well-formed offer payload is stored under its id and becomes the last offer sent or received; a missing payload changes only updated_at |
| SessionFacts.MissingOfferChangesNothing | src/shaket/state/session_state.py:317-318 | an offer event without a truthy offer payload changes nothing but updated_at, in either kind of session |
| SessionFacts.NegotiationRoundAdvances | src/shaket/state/session_state.py:312-313 | NEGOTIATION_ROUND_STARTED sets the round to `round_number` when given and to the old round plus one otherwise |
| SessionFacts.AcceptCompletes | src/shaket/state/session_state.py:331-332 | OFFER_ACCEPTED completes the negotiation and leaves the sent offers alone |
| SessionFacts.BiddingRoundOpens | src/shaket/state/session_state.py:474-478 | BIDDING_ROUND_STARTED sets the round (default old round plus one) and its start time, opens an empty bucket only when the round has none, and changes no other bucket, offer or status |
| SessionFacts.AuctionRecordsOffer | src/shaket/state/session_state.py:484-491 | OFFER_RECEIVED appends the offer to `all_offers` and to the bucket of the `round` field (default the current round); no other bucket, the status and the round are unchanged |
| StateManagement.ReplayAppend | src/state/state_manager.py:255-269 | replaying a log extended by one event is folding that event into the replay of the log |
| StateManagement.ReplayStep | src/state/state_manager.py:255-269 | applying an event to the live state that equals the replay of the log gives the replay of the extended log |
| StateManagement.ReplayWellFormed | src/state/state_manager.py:214-271 | replaying any log from a well-formed initial state gives a well-formed state |
| StateManagement.ReplayKeepsKind | src/state/state_manager.py:214-271 | no event changes a session from negotiation to reverse auction or back |
| StateManagement.FilterEvents | src/state/state_manager.py:293-307 | the filtered events are exactly the events of the log that match every given filter (type, strictly after the time, context), and no more of them |
| StateManagement.FilterEventsAppend | src/state/state_manager.py:293-307 | filtering distributes over concatenation, so the filters keep log order |
| StateManagement.RemoveContexts | src/state/state_manager.py:199-201 | popping each context of a list from the index removes exactly those keys |
| StateManagement.EmitKeepsValid | src/state/state_manager.py:214-271 | appending an event to a session's log and applying it to the live state (when there is one) keeps the store invariant: every live state is the replay of its log from its initial state |
| StateManagement.RemoveKeepsValid | src/state/state_manager.py:188-212 | removing sessions from all tables keeps the store invariant |
| StateManagement.InsertKeepsValid | src/state/state_manager.py:56-122 | adding a fresh well-formed session with an empty log keeps the store invariant |
| StateManagement.RemoveOneMore | src/state/state_manager.py:325-326 | deleting one more session during cleanup removes its state, its log and all its context keys |
| StateManagement.StateManager.constructor | src/state/state_manager.py:33-54 | a new store is empty and satisfies the store invariant |
| StateManagement.StateManager.LiveWellFormed | src/state/state_manager.py:214-271 | every live session state of a valid store is well formed |
| StateManagement.StateManager.Tick | src/state/state_manager.py:309-316 | time passes: the clock advances by the given amount and nothing else changes |
| StateManagement.StateManager.EmitEvent | src/state/state_manager.py:214-271 | the new event (fresh id, current time, `data or {}`) is appended to the session's log even when no state exists, it is applied to the live state when there is one, no other session changes, and the store invariant (live state == replay of the log) is kept |
| StateManagement.StateManager.CreateSession | src/state/state_manager.py:56-122 | creation succeeds exactly for a known session type whose options fit it; then the new state is stored, the context is indexed, the log holds exactly one SESSION_CREATED event describing the session, the returned state is the initial state with that event applied, and the invariant is kept |
| StateManagement.StateManager.GetSession | src/state/state_manager.py:124-134 | a state is returned exactly when the session exists, and it is the stored one |
| StateManagement.StateManager.GetSessionByContext | src/state/state_manager.py:136-149 | a state is returned exactly when the context is indexed to a truthy session id that exists, and it is that session's state |
| StateManagement.StateManager.AddContextMapping | src/state/state_manager.py:151-161 | the context is (re)indexed to the session, nothing else changes, and the invariant is kept |
| StateManagement.StateManager.DeleteSession | src/state/state_manager.py:188-212 | the session's state and log and every one of its contexts leave the tables; a missing session changes nothing; the invariant is kept |
| StateManagement.StateManager.ListSessions | src/state/state_manager.py:163-186 | exactly the stored sessions whose status and type match the filters are listed, each with its stored state |
| StateManagement.StateManager.GetEvents | src/state/state_manager.py:273-307 | an unknown session has no events; otherwise the result holds exactly the logged events matching every filter |
| StateManagement.StateManager.CleanupOldSessions | src/state/state_manager.py:309-328 | exactly the completed, cancelled or failed sessions last updated before the cutoff are deleted, with their logs and contexts, and the invariant is kept |
| Messages.MessageTypeFromValue | src/protocol/messages.py:23-28 | `MessageType(value)` succeeds exactly for discovery, offer and action, and the member's value is the input |
| Messages.ActionTypeFromValue | src/protocol/messages.py:31-37 | `ActionType(value)` succeeds exactly for init, accept, cancel and ack, and the member's value is the input |
| Messages.EnumValuesRoundTrip | src/protocol/messages.py:23-37 | `MessageType(m.value) == m` and `ActionType(a.value) == a` |
| Messages.DataParts | src/protocol/messages.py:191-202 | only data parts (bare or wrapped in a root) are kept, and each kept dict comes from one of them |
| Messages.ParseMessage | src/protocol/messages.py:172-202 | a payload is returned exactly when the message has a data part; it is the first one with the message's context and task ids added |
| Messages.CreateDiscoveryMessage | src/protocol/messages.py:40-78 | a discovery message has one data part of type "discovery" with the message id, the ISO time and the discovery data, the given context and no task |
| Messages.CreateOfferMessage | src/protocol/messages.py:80-112 | an offer message has one data part of type "offer" with the message id, the ISO time, the session type's value and the offer's dict form, and the given context and task |
| Messages.CreateActionMessage | src/protocol/messages.py:114-170 | an action message has one data part of type "action" with the message id, the ISO time, the action's value and the action data (`{}` when none), and the given context and task |
| Messages.ParseDiscoveryMessage | src/protocol/messages.py:40-78 | parsing a created discovery message gives its payload back: type discovery, the message id and time, the context id, no task id and the discovery data |
| Messages.ParseOfferMessage | src/protocol/messages.py:80-112 | parsing a created offer message gives its payload back: type offer, the message id and time, context and task ids, the session type and the offer's dict |
| Messages.ParseActionMessage | src/protocol/messages.py:114-170 | parsing a created action message gives its payload back: type action, the message id and time, context and task ids, the action's value and the action data (`{}` when none) |
| MessageParsing.ParseMessageData | src/shaket_layer/message_parser.py:124-184 | a message is parsed exactly from a dict with a known `type` whose truthy timestamp (if any) parses; a bad timestamp raises; the parsed fields are read with the source's defaults, and only the fields of the message's own type are filled |
| MessageParsing.ParseA2AMessage | src/shaket_layer/message_parser.py:62-78 | a message without data parts parses to nothing; a parsed message comes from the first data part, and its context and task ids are the envelope's, overriding any in the payload |
| MessageParsing.ParsePart | src/shaket_layer/message_parser.py:186-220 | a data part (bare or in a root) is parsed as message data, a text part never raises, a file part or other root gives nothing |
| MessageParsing.ParseParts | src/shaket_layer/message_parser.py:105-111 | the parts yield at most one message each |
| MessageParsing.AtMostOne | src/shaket_layer/message_parser.py:113-117 | a direct message reply yields one message when it parses to one, none when it parses to nothing, and the parse error otherwise |
| MessageParsing.ParseResponse | src/shaket_layer/message_parser.py:81-121 | no response or another result gives no messages; an error response raises; a task gives the messages of all artifact parts in order; a direct message gives at most one message |
| MessageParsing.ParseArtifacts | src/shaket_layer/message_parser.py:105-111 | the nested loop over artifacts and parts collects exactly the messages of all parts in order, stopping at the first part that raises |
| MessageParsing.FailureAborts | src/shaket_layer/message_parser.py:105-111 | a part that raises makes the whole response fail with that error, whatever follows it |
| MessageParsing.ParsePartsStep | src/shaket_layer/message_parser.py:107-111 | one more part adds its message, if it has one, at the end |
| MessageParsing.ParsePartsStepFails | src/shaket_layer/message_parser.py:107-109 | one more part that raises fails the parse with its error |
| MessageParsing.ParsePartsFailurePersists | src/shaket_layer/message_parser.py:105-111 | once a part has raised, no later part changes the outcome |
| MessageParsing.StampedPayloadParses | src/shaket_layer/message_parser.py:124-184 | a payload carrying a known type and a rendered timestamp parses to a message of that type with that timestamp, id, context and task |
| MessageParsing.DiscoveryMessageRoundTrip | src/shaket_layer/message_parser.py:62-78 | a created discovery message parses back to a discovery message with the same id, time, context, no task and the same discovery data |
| MessageParsing.OfferMessageRoundTrip | src/shaket_layer/message_parser.py:62-78 | a created offer message parses back with the same id, time, context, task and session type, and its offer data decodes to the same offer |
| MessageParsing.ActionMessageRoundTrip | src/shaket_layer/message_parser.py:62-78 | a created action message parses back with the same id, time, context, task, action and action data |
| AgentCards.RoleWords | src/server/agent_card.py:57-63 | the role words hold one entry per supported role, the buying word first and the selling word last |
| AgentCards.GenerateAgentCard | src/server/agent_card.py:14-123 | the card keeps the name, endpoint and version (default "1.0.0"), streams only when asked (default no), never offers push notifications, speaks JSON-RPC with JSON in and out, has at most three skills, and its description begins with the one given |
| AgentCards.SkillsFollowSupport | src/server/agent_card.py:54-103 | the card lists the negotiate skill exactly when negotiation is supported, the auction-seller skill exactly when auctions and selling are, and the auction-buyer skill exactly when auctions and buying are, in that order |
| AgentCards.SkillIdsAppend | src/server/agent_card.py:54-103 | the skill ids of concatenated skill lists are concatenated |
| AgentCards.CardDescribesRoles | src/server/agent_card.py:54-123 | the negotiate skill is tagged negotiation, shaket and then buy/sell per role; the description ends with "(acts as buyer and seller)" or the single role; streaming is advertised as configured and push notifications are off |
| Coordination.NotFound | src/shaket/coordinators/negotiation.py:246-252 | a missing session gives a failed result for that session and type with no data |
| Coordination.ContextOf | src/shaket/coordinators/reverse_auction.py:432-443 | the context recorded for an incoming message is its context id when that is a string, and None otherwise |
| Coordination.DiscoveryDataOf | src/shaket/coordinators/negotiation.py:206-209 | the discovery payload is the action's discovery data (`{}` when none) with `message` set to the action's text when that is non-empty; every other key keeps its value |
| Coordination.CarriedOfferReads | src/shaket/state/session_state.py:315-329 | an event carrying an offer's dict form reads back as that offer |
| Coordination.EmittedEventsDoNotRaise | src/shaket/state/session_state.py:160-205 | an event the coordinators emit (never STATE_UPDATED, offers always in dict form) never makes `apply_event` raise |
| Coordination.PricesOf | src/shaket/coordinators/reverse_auction.py:518-526 | the prices of the offers, one per offer, in order |
| Coordination.Min | src/shaket/coordinators/reverse_auction.py:522 | `min(prices)` is one of the prices and no price is below it |
| Coordination.Max | src/shaket/coordinators/reverse_auction.py:523 | `max(prices)` is one of the prices and no price is above it |
| Coordination.RangeBounds | src/shaket/coordinators/reverse_auction.py:518-526 | the reported price range has a minimum and maximum that are offered prices bounding every price, and an average between them |
| NegotiationCoordination.LastAccepted | src/shaket/coordinators/negotiation.py:534-539 | the position found is the last OFFER_ACCEPTED event of the log, and none is found exactly when the log has no such event |
| NegotiationCoordination.LastAcceptedUnique | src/shaket/coordinators/negotiation.py:534-539 | any position that is the last OFFER_ACCEPTED event is the one the scan finds |
| NegotiationCoordination.LastAcceptedSkips | src/shaket/coordinators/negotiation.py:534-539 | appending an event other than OFFER_ACCEPTED does not change which acceptance is the most recent |
| NegotiationCoordination.FinalPriceSkips | src/shaket/coordinators/negotiation.py:528-559 | appending an event other than OFFER_ACCEPTED does not change the final price |
| NegotiationCoordination.FindLastAccepted | src/shaket/coordinators/negotiation.py:534-539 | the `for event in reversed(events)` scan returns the most recent OFFER_ACCEPTED event |
| NegotiationCoordination.NamedPrice | src/shaket/coordinators/negotiation.py:537-557 | a price is found exactly when the acceptance names a non-empty offer id that is among the sent or received offers; it is the sent offer's price when the id is sent, else the received one's; a falsy id fails with "Session completed but no OFFER_ACCEPTED event found for " and the session id, and a text id in neither map with "Accepted offer_id ", the id, " not found in sent or received offers for " and the session id |
| NegotiationCoordination.FinalPrice | src/shaket/coordinators/negotiation.py:528-559 | with no OFFER_ACCEPTED in the log the lookup fails with "Session completed but no OFFER_ACCEPTED event found for " and the session id; otherwise it is the price named by the most recent acceptance |
| NegotiationCoordination.FinalPriceOfNewest | src/shaket/coordinators/negotiation.py:534-539 | right after an OFFER_ACCEPTED event the final price is the one that event names |
| NegotiationCoordination.AcceptedPrice | src/shaket/coordinators/negotiation.py:528-559 | the loop over the log computes the final price of the most recent acceptance, or the ValueError |
| NegotiationCoordination.SameOffersSamePrice | src/shaket/coordinators/negotiation.py:546-557 | the final price depends only on the log and the two offer dicts |
| NegotiationCoordination.UnfilteredIsLog | src/shaket/coordinators/negotiation.py:531 | `get_events` without filters is the whole log |
| NegotiationCoordination.ConcludingFold | src/shaket/coordinators/negotiation.py:503-515 | SESSION_COMPLETED and SESSION_FAILED set the requested status and the update time, and nothing else |
| NegotiationCoordination.Summary | src/shaket/coordinators/negotiation.py:517-571 | the negotiation result has the requested status and reason, the current round, the last offer received, the creation and completion times and the final price given, and is agreed exactly when completed |
| NegotiationCoordination.SummaryAgreedOnlyCompleted | src/shaket/coordinators/negotiation.py:517-571 | a result is agreed exactly when it is completed, it has a final price exactly when agreed, and its rounds are the current round |
| NegotiationCoordination.ConcludesReports | src/shaket/coordinators/negotiation.py:503-571 | a result `_complete_session` builds for a requested status the session ends with reports that status, agreed exactly when completed and exactly when priced |
| NegotiationCoordination.OutcomeReports | src/shaket/coordinators/negotiation.py:391-483 | a result any handled message produces (the round limit, an acceptance) reports the session's new status, agreed exactly when completed with a price |
| NegotiationCoordination.HandledReports | src/shaket/coordinators/negotiation.py:254-287 | the result that ends the handling of a reply reports the session's status after it |
| NegotiationCoordination.DiscoveryFold | src/shaket/state/session_state.py:334-341 | DISCOVERY_RECEIVED appends one discovery entry with its data, time and context |
| NegotiationCoordination.OfferReceivedFold | src/shaket/coordinators/negotiation.py:415-420 | the OFFER_RECEIVED event records the offer as received and as the last offer received |
| NegotiationCoordination.RoundStartedFold | src/shaket/coordinators/negotiation.py:423-427 | the round event sets the round to the number it carries and changes nothing else |
| NegotiationCoordination.OfferRecordedSteps | src/shaket/coordinators/negotiation.py:407-437 | OFFER_RECEIVED, the round event and the round-limit check together make up the documented offer outcome |
| NegotiationCoordination.StatusEventFold | src/shaket/state/session_state.py:176-187 | the lifecycle events and OFFER_ACCEPTED change only the status (as each prescribes) and the update time |
| NegotiationCoordination.AcceptSteps | src/shaket/coordinators/negotiation.py:451-465 | OFFER_ACCEPTED followed by `_complete_session("completed")` makes up the documented accept outcome |
| NegotiationCoordination.CancelSteps | src/shaket/coordinators/negotiation.py:467-481 | SESSION_CANCELLED followed by `_complete_session("cancelled")` makes up the documented cancel outcome |
| NegotiationCoordination.OutcomeExtends | src/shaket/coordinators/negotiation.py:334-367 | handling a message only appends to the session's log, keeps a stored session a negotiation, adds no session, and any result is about this session |
| NegotiationCoordination.HandledStep | src/shaket/coordinators/negotiation.py:277-285 | handling one more message of a reply extends the trail of handled messages |
| NegotiationCoordination.InactiveUntouched | src/shaket/coordinators/negotiation.py:345-354 | when the session is unknown or not active, every message of a reply is ignored: no event, no change, no result |
| NegotiationCoordination.StepOf | src/shaket/coordinators/negotiation.py:216-218 | a processed reply either ends the loop with its result or exception or lets it go on; it never breaks it |
| NegotiationCoordination.LoopBound | src/shaket/coordinators/negotiation.py:101-102 | the loop bound is `config.get("max_rounds", 100)`: 100 when absent, `range` of a negative number is empty, and a non-integer raises |
| NegotiationCoordination.OfferSentFold | src/shaket/coordinators/negotiation.py:137-142 | the OFFER_SENT event records the offer as sent and as the last offer sent |
| NegotiationCoordination.AcceptedIdPrice | src/shaket/coordinators/negotiation.py:166-175 | the acceptance the agent records names a price exactly when its offer id is non-empty and among the sent or received offers |
| NegotiationCoordination.AcceptTurnExtends | src/shaket/coordinators/negotiation.py:158-198 | an agent's acceptance only appends to the log, never breaks the loop nor lets it go on, and a result it ends with reports the session's resulting status, agreed exactly when completed and with a price |
| NegotiationCoordination.AcceptTurnSteps | src/shaket/coordinators/negotiation.py:158-198 | OFFER_ACCEPTED, the send and `_complete_session("completed")` make up the documented acceptance turn |
| NegotiationCoordination.NegotiationCoordinator.constructor | src/shaket/coordinators/negotiation.py:35-50 | the coordinator keeps its agent, messenger and store, with all counters at zero |
| NegotiationCoordination.NegotiationCoordinator.Record | src/state/state_manager.py:214-271 | an event without offer or updates is logged at the end of the session's log with the given type, data, context and the current time, and folded into the state when there is one |
| NegotiationCoordination.NegotiationCoordinator.RecordOffer | src/shaket/coordinators/negotiation.py:137-142 | an offer event carries the offer's dict form, which reads back as the offer, and is logged and folded like any event |
| NegotiationCoordination.NegotiationCoordinator.RecordStatus | src/shaket/state/session_state.py:176-187 | a status event is logged and changes only the session's status and update time |
| NegotiationCoordination.NegotiationCoordinator.CompleteSession | src/shaket/coordinators/negotiation.py:485-571 | an unknown session gives the "Session not found" result and emits nothing; otherwise SESSION_COMPLETED or SESSION_FAILED is emitted for those statuses only, and the result has the requested status, the current round, the last offer received, agreed exactly when completed, and the final price of the most recent acceptance (or the ValueError) |
| NegotiationCoordination.NegotiationCoordinator.HandleDiscovery | src/shaket/coordinators/negotiation.py:369-389 | exactly one DISCOVERY_RECEIVED event is logged, with the discovery data (`{}` when falsy) under the message's context, and it is stored in the session's discovery list |
| NegotiationCoordination.NegotiationCoordinator.RecordOfferReceived | src/shaket/coordinators/negotiation.py:415-420 | OFFER_RECEIVED with the offer under the message's context is logged and the offer becomes the last offer received |
| NegotiationCoordination.NegotiationCoordinator.RecordRoundStarted | src/shaket/coordinators/negotiation.py:423-427 | a round event numbered one past the current round is logged and the round advances by one |
| NegotiationCoordination.NegotiationCoordinator.RecordOfferRound | src/shaket/coordinators/negotiation.py:415-427 | OFFER_RECEIVED then the round event are logged, in that order, and the state records the offer and the new round |
| NegotiationCoordination.NegotiationCoordinator.HandleOffer | src/shaket/coordinators/negotiation.py:391-437 | nothing for an unknown session or empty offer data; the decoding error for a malformed offer; otherwise OFFER_RECEIVED, the round event, and a failed "Maximum rounds reached without agreement" result (with SESSION_FAILED) once a non-zero `max_rounds` is reached |
| NegotiationCoordination.NegotiationCoordinator.HandleAccept | src/shaket/coordinators/negotiation.py:451-465 | OFFER_ACCEPTED with the message's action data, then SESSION_COMPLETED, and a completed agreed result at the price the acceptance names (or the ValueError) |
| NegotiationCoordination.NegotiationCoordinator.HandleCancel | src/shaket/coordinators/negotiation.py:467-481 | SESSION_CANCELLED with reason "Cancelled by counterparty" and a cancelled result with no agreement |
| NegotiationCoordination.NegotiationCoordinator.HandleAction | src/shaket/coordinators/negotiation.py:439-483 | accept and cancel as above; any other action gives None and changes nothing |
| NegotiationCoordination.NegotiationCoordinator.HandleMessage | src/shaket/coordinators/negotiation.py:334-367 | an unknown or non-active session gives None and no event; otherwise discovery, offer and action messages are routed to their handlers (discovery returning None) |
| NegotiationCoordination.NegotiationCoordinator.HandleNext | src/shaket/coordinators/negotiation.py:277-285 | handling the next message of a reply extends the trail of handled messages by its outcome |
| NegotiationCoordination.NegotiationCoordinator.ProcessResponse | src/shaket/coordinators/negotiation.py:254-287 | the reply's messages are handled in order until the first that gives a result or raises; that is the answer, None means every message was handled without one, and a result reports the session's status after the reply, agreed exactly when completed and exactly when it has a final price |
| NegotiationCoordination.NegotiationCoordinator.StartSession | src/shaket/coordinators/negotiation.py:289-332 | an unknown session raises and changes nothing; otherwise exactly one SESSION_STARTED event with empty data is logged, the session becomes active, and the timeout (when truthy) is handed to the watcher |
| NegotiationCoordination.NegotiationCoordinator.MonitorTimeout | src/shaket/coordinators/negotiation.py:573-591 | only an active session is touched: TIMEOUT_REACHED with the timeout, then SESSION_FAILED with "Timeout reached", leaving it failed |
| NegotiationCoordination.NegotiationCoordinator.CancelSession | src/shaket/coordinators/negotiation.py:611-625 | returns whether the session exists; if so, exactly one SESSION_CANCELLED event with "Cancelled by coordinator" is logged and the session is cancelled |
| NegotiationCoordination.NegotiationCoordinator.RecordOfferSent | src/shaket/coordinators/negotiation.py:137-142 | OFFER_SENT with the new offer and no context is logged and the offer becomes the last offer sent |
| NegotiationCoordination.NegotiationCoordinator.Exchange | src/shaket/coordinators/negotiation.py:144-153 | one message is sent; a failed send raises and changes nothing; a reply is processed message by message, its outcome decides whether the loop ends, and a result it ends with reports the session's new status |
| NegotiationCoordination.NegotiationCoordinator.ExchangeInactive | src/shaket/coordinators/negotiation.py:211-218 | a reply reaching a session that is no longer active changes nothing and lets the loop go on |
| NegotiationCoordination.NegotiationCoordinator.OfferTurn | src/shaket/coordinators/negotiation.py:129-156 | a new offer (next offer id, the session's item, the current time) is logged as OFFER_SENT before it is sent; a failed send raises with only that event logged; a result from the reply reports the session's new status |
| NegotiationCoordination.NegotiationCoordinator.AcceptTurnTaken | src/shaket/coordinators/negotiation.py:158-198 | the agent's acceptance is logged as OFFER_ACCEPTED naming the offer, then sent; on a reply the session is completed at the price the acceptance names |
| NegotiationCoordination.NegotiationCoordinator.DiscoveryTurn | src/shaket/coordinators/negotiation.py:200-218 | the discovery payload (data plus message) is sent; a failed send raises and changes nothing; a result from the reply reports the session's new status |
| NegotiationCoordination.NegotiationCoordinator.TakeTurn | src/shaket/coordinators/negotiation.py:112-224 | one loop iteration: the agent is consulted once on the current state; an agent exception raises and changes nothing; an unknown action breaks the loop and changes nothing; an offer is logged as OFFER_SENT with its dict form; an acceptance is the acceptance turn; every other action sends exactly one message; a result reports the session's new status |
| NegotiationCoordination.NegotiationCoordinator.Pass | src/shaket/coordinators/negotiation.py:104-224 | a loop iteration consults the agent once and only appends to the session's log; an agent exception raises and an unknown action breaks, both changing nothing; any other action sends one message, and an acceptance never lets the loop go on; a result reports the session's new status |
| NegotiationCoordination.NegotiationCoordinator.FailWith | src/shaket/coordinators/negotiation.py:226-235 | an exception in the loop completes the session as failed (SESSION_FAILED with the reason logged, status failed) and gives a failed, not agreed result whose message is "Error: " and the exception's text, with the session's rounds and no price |
| NegotiationCoordination.NegotiationCoordinator.Conclude | src/shaket/coordinators/negotiation.py:237-244 | when the loop ends without a result, `_complete_session` runs with the session's current status and "Negotiation loop completed": the completion event for that status, the rounds, the final price when completed (or its ValueError), agreed exactly when completed |
| NegotiationCoordination.NegotiationCoordinator.RunLoop | src/shaket/coordinators/negotiation.py:101-244 | the loop consults the agent at most `bound` times and only appends to the log; a session not active at the start (or a zero bound) is not consulted and is concluded at once with its status; an active one is consulted at least once; every result reports the session's final status, agreed exactly when completed with a price; an exception gives a failed "Error: …" result, a normal exit "Negotiation loop completed" |
| NegotiationCoordination.NegotiationCoordinator.Start | src/shaket/coordinators/negotiation.py:52-253 | without agent, connection or stored session it raises and changes nothing; otherwise SESSION_STARTED is logged first, the timeout is handed to the watcher, a bad `max_rounds` raises, the agent is consulted at least once and at most `max_rounds` times (default 100; never for 0), and every result reports the session's final status, agreed exactly when completed with a price |
| NegotiationCoordination.NegotiationCoordinator.GetSessionStatus | src/shaket/coordinators/negotiation.py:593-609 | a report exists exactly when the session is stored, giving its status, current round and round limit; the last offer received is reported exactly when there is one, in a dictionary form that reads back as that offer |
| AuctionRules.DefaultMessage | src/shaket/coordinators/reverse_auction.py:290-310 | the default message always starts with "Round r started - please submit your offer."; the market report of the previous round is added exactly when r > 1 and that round's bucket is non-empty, with its round, count and price range |
| AuctionRules.MarketReportBounds | src/shaket/coordinators/reverse_auction.py:296-301 | the reported minimum and maximum are prices of the previous round's offers and bound all of them, and the average lies between them |
| AuctionRules.Custom | src/shaket/coordinators/reverse_auction.py:182-197 | a custom discovery message is used exactly when the agent answered with a SendDiscoveryAction, and its text is the action's message; any other action or an exception falls back to the default |
| AuctionRules.RoundDiscoveryData | src/shaket/coordinators/reverse_auction.py:313-319 | the round payload has keys type, round_number, total_rounds and message plus the agent's keys; every agent key keeps the agent's value, overriding a built-in one, and a built-in key not overridden has its built-in value |
| AuctionRules.Stamp | src/shaket/coordinators/reverse_auction.py:101 | the newer coordinator adds `emitter` with its uuid to event data and changes nothing else; the older one leaves the data as it is |
| AuctionRules.OffersJson | src/shaket/coordinators/reverse_auction.py:495 | the offers in dict form, one per offer, in order |
| AuctionRules.CompletionType | src/shaket/coordinators/reverse_auction.py:489-503 | completion emits SESSION_COMPLETED exactly for "completed", SESSION_CANCELLED exactly for "cancelled", and SESSION_FAILED for anything else |
| AuctionRules.FinalReason | src/shaket/coordinators/reverse_auction.py:239-254 | the reason is "No offers received" exactly when no offer was collected |
| AuctionRules.AuctionSummary | src/shaket/coordinators/reverse_auction.py:511-540 | the reverse-auction result has the requested status and reason, every offer and their count, succeeds exactly when there is an offer, and has a price range exactly then |
| AuctionRules.SummaryFacts | src/shaket/coordinators/reverse_auction.py:511-540 | the result has the requested status and reason, all offers and their count, rounds = current round, `success` exactly when there are offers, and a price range exactly when there are offers, bounding every price with the average between its ends |
| AuctionRules.Report | src/shaket/coordinators/reverse_auction.py:542-554 | a status report exists exactly for a stored reverse auction, with its status and the number of offers received |
| AuctionRules.Opened | src/shaket/state/session_state.py:474-478 | after a round starts, its bucket exists |
| AuctionRules.AuctionStartedFold | src/shaket/state/session_state.py:471-472 | REVERSE_AUCTION_STARTED makes the session active and changes nothing but the update time |
| AuctionRules.RoundOpenFold | src/shaket/state/session_state.py:474-478 | BIDDING_ROUND_STARTED with round r sets the round, its start time and its bucket |
| AuctionRules.QuietFold | src/shaket/state/session_state.py:480-482 | BIDDING_ROUND_ENDED, DISCOVERY_MESSAGE and DISCOVERY_SENT change only the update time |
| AuctionRules.OfferFold | src/shaket/state/session_state.py:484-491 | OFFER_RECEIVED with an offer and a round adds the offer to that round through `add_offer` |
| AuctionRules.CompletionFold | src/shaket/coordinators/reverse_auction.py:505-509 | the completion event sets the matching status and changes nothing else but the update time |
| AuctionRules.DiscoveryReceivedFold | src/shaket/state/session_state.py:494-501 | DISCOVERY_RECEIVED appends one discovery entry with its data, time and context |
| AuctionRules.OfferCollected | src/shaket/coordinators/reverse_auction.py:437-444 | an offer recorded during a round goes into the current round's bucket and the list of all offers |
| AuctionRules.CollectedTrans | src/shaket/coordinators/reverse_auction.py:358-365 | offers collected from one seller after another add up, in that order |
| AuctionRules.ReadReply | src/shaket/coordinators/reverse_auction.py:425-429 | an offer reply with empty offer data records nothing, a malformed one raises, and otherwise it is the decoded offer |
| AuctionRules.Taken | src/shaket/coordinators/reverse_auction.py:349-351 | one reply message yields at most one offer, and none when handling it raises |
| AuctionRules.HarvestedFromReplies | src/shaket/coordinators/reverse_auction.py:347-351 | a seller's reply yields at most one offer per message, and each one decodes from an OFFER message of the reply |
| AuctionRules.RoundNumbersAppend | src/shaket/coordinators/reverse_auction.py:160-222 | the round numbers logged by STARTED (or ENDED) events of a concatenated log are those of the parts, in order |
| AuctionRules.RoundOfNumber | src/shaket/coordinators/reverse_auction.py:170-222 | a round's events carry its number once in BIDDING_ROUND_STARTED and once in BIDDING_ROUND_ENDED |
| AuctionRules.Numbered | src/shaket/coordinators/reverse_auction.py:160 | the round numbers 1..n, in order |
| AuctionRules.NumberedThenCompleted | src/shaket/coordinators/reverse_auction.py:230-254 | the completion event after the rounds leaves the numbering 1..n of the STARTED and ENDED events intact |
| AuctionSteps.RecordQuiet | src/shaket/coordinators/reverse_auction.py:213-222 | a round end or a discovery-sent event is appended to the session's log with the given type, data and context at the current time; the auction state only has its update time changed, and no other session changes |
| AuctionSteps.RecordStart | src/shaket/coordinators/reverse_auction.py:94-103 | REVERSE_AUCTION_STARTED is appended on the session's primary context with the started data, and the replayed state becomes active, with the update time as the only other change |
| AuctionSteps.RecordOpen | src/shaket/coordinators/reverse_auction.py:170-179 | BIDDING_ROUND_STARTED carrying the round number and duration is appended, and the state is the one in which round r is current and has a bucket |
| AuctionSteps.RecordOffer | src/shaket/coordinators/reverse_auction.py:435-444 | OFFER_RECEIVED carrying the offer and the current round is appended on the message's context, and the offer joins that round's bucket and the list of all offers |
| AuctionSteps.OffersQuiet | src/shaket/coordinators/reverse_auction.py:435-444 | every event in a logged run of offers is an OFFER_RECEIVED, one per offer |
| AuctionSteps.HandleOffer | src/shaket/coordinators/reverse_auction.py:418-444 | an unknown session and a message with empty offer data change nothing; a payload Offer.from_dict rejects is returned as the error; otherwise exactly one OFFER_RECEIVED for the decoded offer is logged on the message's context, tagged with the current round |
| AuctionSteps.OffersLoggedMore | src/shaket/coordinators/reverse_auction.py:346-350 | two logged runs of offers in a row are one run carrying both lists of offers in order |
| AuctionSteps.HarvestStep | src/shaket/coordinators/reverse_auction.py:346-356 | one parsed message of a seller's reply: only an offer message records offers, and a decode error stops that seller's task; the offers recorded are logged against the current round |
| AuctionSteps.Harvest | src/shaket/coordinators/reverse_auction.py:346-356 | the offers taken from one reply are exactly the harvested offers of its messages, up to the first failing one, each logged in order against the current round |
| AuctionSteps.ReplyStep | src/shaket/coordinators/reverse_auction.py:336-356 | a send that raised records nothing; an empty reply records nothing; otherwise the reply's offers are recorded as Harvest states |
| AuctionSteps.Collect | src/shaket/coordinators/reverse_auction.py:358-365 | the offers recorded for a round are the concatenation, in send order, of the per-seller harvests, and the state collects exactly those offers |
| AuctionSteps.Complete | src/shaket/coordinators/reverse_auction.py:466-540 | a missing session gives a failed result saying "Session not found" and changes nothing; otherwise exactly one event is logged, completed, cancelled or failed according to the status, with the reason and every offer; the state takes that status, and the result summarises the state found before the call |
| AuctionSteps.Cancel | src/shaket/coordinators/reverse_auction.py:556-572 | the result is true exactly when the session is stored; then SESSION_CANCELLED with the reason "Cancelled by user" is logged and the session is cancelled; otherwise nothing changes |
| AuctionSteps.StartSession | src/shaket/coordinators/reverse_auction.py:65-113 | a session the store does not hold fails with the ValueError text and changes nothing; otherwise REVERSE_AUCTION_STARTED is logged on the primary context, the session becomes active, and the result reports the session id, the active status and the round count |
| AuctionSteps.HandleDiscovery | src/shaket/coordinators/reverse_auction.py:396-416 | DISCOVERY_RECEIVED carrying the discovery data is logged on the message's context; a stored session appends the message, with the time and context, to its discovery list |
| AuctionSteps.HandleMessage | src/shaket/coordinators/reverse_auction.py:367-464 | an unknown or inactive session, or an action other than "cancel", gives no result and changes nothing; an active session behaves as MessageHandled states: a discovery appends one DISCOVERY_RECEIVED on the message's context with the discovery payload and joins the state's discovery list; an offer is logged and collected, its decode error surfacing as a failure; "cancel" appends one SESSION_CANCELLED with reason "Cancelled by participant" (no context), makes the session cancelled and answers with the cancelled summary |
| ReverseAuctionCoordination.SentLogMore | src/shaket/coordinators/reverse_auction.py:329-334 | a run of DISCOVERY_SENT events, one per seller context in order, extended by the event for the next seller, is the run for one more seller |
| ReverseAuctionCoordination.TrafficQuiet | src/shaket/coordinators/reverse_auction.py:320-356 | nothing a round's discovery logs (the announcement, the sends, the offers) starts or ends a round |
| ReverseAuctionCoordination.OffersLoggedPast | src/shaket/coordinators/reverse_auction.py:346-350 | offers logged after an announcement are logged, in the same order and round, within the part of the log past the round's start |
| ReverseAuctionCoordination.ReverseAuctionCoordinator.constructor | src/shaket/coordinators/reverse_auction.py:40-63 | the coordinator keeps the agent, the messenger, the store and its uuid as given, with no agent call and no send made yet |
| ReverseAuctionCoordination.ReverseAuctionCoordinator.Replies | src/shaket/coordinators/reverse_auction.py:358-365 | one reply per seller context, in order, each the messenger's answer to that seller's numbered send |
| ReverseAuctionCoordination.ReverseAuctionCoordinator.OpenRound | src/shaket/coordinators/reverse_auction.py:170-197 | BIDDING_ROUND_STARTED(r, duration) is logged and round r becomes current; the agent, when present, is consulted exactly once on that state; the custom message is the agent's only when it answered with a discovery action |
| ReverseAuctionCoordination.ReverseAuctionCoordinator.SendTo | src/shaket/coordinators/reverse_auction.py:325-340 | DISCOVERY_SENT carrying the payload is logged on the seller's context, then exactly one send to that seller is made, and its reply is the messenger's answer |
| ReverseAuctionCoordination.ReverseAuctionCoordinator.RepliesMore | src/shaket/coordinators/reverse_auction.py:358-365 | the replies for the first i sellers followed by the (i+1)th seller's reply are the replies for the first i+1 sellers |
| ReverseAuctionCoordination.ReverseAuctionCoordinator.Broadcast | src/shaket/coordinators/reverse_auction.py:358-365 | every seller, in key order, gets one DISCOVERY_SENT and one send; the replies are those of Replies, and only the update time of the auction changes |
| ReverseAuctionCoordination.ReverseAuctionCoordinator.Announce | src/shaket/coordinators/reverse_auction.py:320-365 | DISCOVERY_MESSAGE with the payload is logged once, followed by the DISCOVERY_SENT events of every seller in key order |
| ReverseAuctionCoordination.ReverseAuctionCoordinator.RequestOffers | src/shaket/coordinators/reverse_auction.py:256-365 | with no messenger nothing is logged or sent; otherwise the round payload (the agent's message or the default one) is announced and sent once to each seller, and the offers recorded are exactly those gathered from the replies in send order, all logged against the current round; nothing logged starts or ends a round |
| ReverseAuctionCoordination.ReverseAuctionCoordinator.CloseRound | src/shaket/coordinators/reverse_auction.py:204-222 | BIDDING_ROUND_ENDED carrying r and the number of offers round r's bucket holds is logged; only the update time changes |
| ReverseAuctionCoordination.ReverseAuctionCoordinator.RunRound | src/shaket/coordinators/reverse_auction.py:160-222 | a round's events start with BIDDING_ROUND_STARTED(r) and end with BIDDING_ROUND_ENDED(r), each round number appearing once; the gathered offers join round r of the state it opened, and the end event reports that bucket's size |
| ReverseAuctionCoordination.ReverseAuctionCoordinator.Rounds | src/shaket/coordinators/reverse_auction.py:160-228 | with no other handler running in between (see Left out), an active session runs rounds 1 to its round count (none when the count is not positive), in order, each started and ended once; an inactive session runs none; the log only grows, and the status and round count stay, the offers growing by those gathered |
| ReverseAuctionCoordination.ReverseAuctionCoordinator.Finish | src/shaket/coordinators/reverse_auction.py:230-254 | exactly one SESSION_COMPLETED is logged and the session completes; the reason is "No offers received" exactly when there are no offers, and the result carries every offer, their count, and success exactly when there is at least one |
| ReverseAuctionCoordination.ReverseAuctionCoordinator.Execute | src/shaket/coordinators/reverse_auction.py:145-254 | a missing or non-auction session gives the failed result "Invalid session state" and changes nothing; otherwise the rounds run as Rounds states and the log ends with one SESSION_COMPLETED whose offers, reason and success flag are those of all offers gathered |
| ReverseAuctionCoordination.ReverseAuctionCoordinator.Start | src/shaket/coordinators/reverse_auction.py:115-143 | a missing session fails with the ValueError of start_session and changes nothing; otherwise REVERSE_AUCTION_STARTED is logged first, every round from 1 to the round count is run, and the session ends completed with every offer gathered |
| ReverseAuctionCoordination.ReverseAuctionCoordinator.HandleMessage | src/shaket/coordinators/reverse_auction.py:367-464 | the whole of AuctionSteps.HandleMessage's contract (the untouched cases, and MessageHandled for an active session), with every logged event tagged with this coordinator's uuid |
| ReverseAuctionCoordination.ReverseAuctionCoordinator.CancelSession | src/shaket/coordinators/reverse_auction.py:556-572 | true exactly when the session is stored; then SESSION_CANCELLED "Cancelled by user" with the uuid tag is logged and the session is cancelled; otherwise nothing changes |
| ReverseAuctionCoordination.ReverseAuctionCoordinator.GetSessionStatus | src/shaket/coordinators/reverse_auction.py:542-554 | a report exists exactly when the session is a stored auction, and it gives the status, the current round, the round count and the number of offers |
| ReverseAuctionLegacy.LegacyDiscoveryData | src/coordinators/reverse_auction.py:251-283 | the payload sent in round r has exactly the keys type, round_number, total_rounds and message, with type "round_started", the round, the round count and the default market message on round r-1 |
| ReverseAuctionLegacy.LegacyReverseAuctionCoordinator.constructor | src/coordinators/reverse_auction.py:39-60 | the coordinator keeps the agent, the messenger and the store as given, with no send made yet |
| ReverseAuctionLegacy.LegacyReverseAuctionCoordinator.Replies | src/coordinators/reverse_auction.py:300-308 | one reply per seller context, in order, each the messenger's answer to that seller's numbered send |
| ReverseAuctionLegacy.LegacyReverseAuctionCoordinator.Broadcast | src/coordinators/reverse_auction.py:271-308 | every seller, in key order, gets exactly one send of the payload, and the replies are those of Replies |
| ReverseAuctionLegacy.LegacyReverseAuctionCoordinator.RequestOffers | src/coordinators/reverse_auction.py:232-308 | with no messenger nothing is logged or sent; otherwise each seller is sent the round's default payload once, and the offers recorded are exactly those gathered from the replies in send order, each logged untagged against the current round; nothing logged starts or ends a round |
| ReverseAuctionLegacy.LegacyReverseAuctionCoordinator.CloseRound | src/coordinators/reverse_auction.py:183-198 | BIDDING_ROUND_ENDED carrying r and the size of round r's bucket is logged untagged; only the update time changes |
| ReverseAuctionLegacy.LegacyReverseAuctionCoordinator.RunRound | src/coordinators/reverse_auction.py:156-198 | a round's events start with BIDDING_ROUND_STARTED(r) and end with BIDDING_ROUND_ENDED(r), each once; the gathered offers join round r of the state it opened, and the end event reports that bucket's size |
| ReverseAuctionLegacy.LegacyReverseAuctionCoordinator.Rounds | src/coordinators/reverse_auction.py:156-204 | with no other handler running in between (see Left out), an active session runs rounds 1 to its round count (none when the count is not positive), numbered in order at both ends; an inactive one runs none; the log only grows, and every offer gathered joins the auction's list |
| ReverseAuctionLegacy.LegacyReverseAuctionCoordinator.Finish | src/coordinators/reverse_auction.py:206-231 | exactly one untagged SESSION_COMPLETED is logged and the session completes; the reason is "No offers received" exactly when there are no offers; the result carries every offer and success exactly when there is one |
| ReverseAuctionLegacy.LegacyReverseAuctionCoordinator.Execute | src/coordinators/reverse_auction.py:141-231 | a missing or non-auction session gives the failed result "Invalid session state" and changes nothing; otherwise the rounds run as Rounds states and the log ends with one SESSION_COMPLETED carrying every offer gathered |
| ReverseAuctionLegacy.LegacyReverseAuctionCoordinator.Start | src/coordinators/reverse_auction.py:111-140 | a missing session fails with the ValueError of start_session and changes nothing; otherwise REVERSE_AUCTION_STARTED comes first, all rounds 1 to the round count run, and the session ends completed with every offer gathered |
| ReverseAuctionLegacy.LegacyReverseAuctionCoordinator.HandleMessage | src/coordinators/reverse_auction.py:310-406 | the whole of AuctionSteps.HandleMessage's contract with no tag: an unknown or inactive session, or an action other than "cancel", gives no result and changes nothing; a discovery appends one DISCOVERY_RECEIVED on the message's context and joins the discovery list; offers are recorded against the current round with a decode error surfacing as a failure; "cancel" appends one SESSION_CANCELLED with reason "Cancelled by participant" and answers with the cancelled summary |
| ReverseAuctionLegacy.LegacyReverseAuctionCoordinator.CancelSession | src/coordinators/reverse_auction.py:496-512 | true exactly when the session is stored; then SESSION_CANCELLED with only the reason "Cancelled by user" is logged and the session is cancelled; otherwise nothing changes |
| ReverseAuctionLegacy.LegacyReverseAuctionCoordinator.GetSessionStatus | src/coordinators/reverse_auction.py:482-495 | a report exists exactly when the session is a stored auction, giving its status, current round, round count and number of offers |
| AgentExecution.StrOr | src/server/agent_executor.py:499-504 | a field read with a default succeeds exactly when the value found, or the default, is text, and then gives that text |
| AgentExecution.InitItem | src/server/agent_executor.py:498-505 | an empty item dict gives the placeholder item "unknown" / "Unknown Item" with empty description and metadata; otherwise the model's reading succeeds exactly when the values found are of the right kinds (text id, name and description, a None or text category, a dict of metadata; others are refused where the source's `Item(...)` stores them), and it holds the id, name and description found (defaults "unknown", "Unknown Item", ""), the category found (None when absent) and the metadata found (`{}` when absent) |
| AgentExecution.InitDefaults | src/server/agent_executor.py:481-509 | an INIT without action data opens a negotiation over the placeholder item, the peer's role taken as "buyer", so we are the seller |
| AgentExecution.InitRoleFlip | src/server/agent_executor.py:484-509 | of an accepted INIT, the session type is negotiation exactly when none or "negotiation" is named, and we are the seller exactly when the peer names no role or "buyer" |
| AgentExecution.IncomingNegotiationFold | src/server/agent_executor.py:280-357 | logging an incoming message in a negotiation stamps the update time and never moves the last offer sent; an offer becomes the last one received, an accept completes, a cancel cancels, a discovery is appended |
| AgentExecution.IncomingAuctionOffer | src/server/agent_executor.py:297-313 | an offer logged in a reverse auction joins all offers and the current round's bucket, and the status stays |
| AgentExecution.AcceptValidated | src/server/agent_executor.py:572-591 | a counterparty acceptance passes validation exactly when the session is a negotiation whose last offer sent has a non-empty id equal to the offer_id the acceptance names |
| AgentExecution.AgentFor | src/server/agent_executor.py:359-370 | an agent is chosen only for a stored session: the negotiation agent for a negotiation and the reverse-auction agent for an auction |
| AgentExecution.OwnOfferAccepted | src/server/agent_executor.py:396-623 | the offer a SendOffer decision creates becomes the last offer sent, on the session's item at the agent's price; a later ACCEPT naming its id passes validation, and the OFFER_ACCEPTED that records it completes the session |
| AgentExecution.AgentAcceptCompletes | src/server/agent_executor.py:425-440 | after an agent's acceptance is carried out the session is completed, whatever its kind |
| AgentExecution.Answer | src/server/agent_executor.py:148-168 | the A2A task completes exactly when handling returned an answer, which is then the artifact; an exception makes its "Error: " text the artifact and fails the A2A task |
| AgentExecution.ShaketAgentExecutor.constructor | src/server/agent_executor.py:66-85 | the executor holds the store, the context map and the two agents as given, with no decision, offer or payload made yet |
| AgentExecution.ShaketAgentExecutor.SessionIdOf | src/server/agent_executor.py:261-278 | the lookup succeeds exactly when the context is mapped to a non-empty id, which it returns; otherwise it fails with "No session found for context" and the context |
| AgentExecution.ShaketAgentExecutor.RecordIncoming | src/server/agent_executor.py:280-357 | the message is logged as its Incoming entry under the request's context (offer, accept, cancel with its reason or a default, discovery), or nothing for other messages; a reading error logs nothing and is returned; the session's state is the old one with the logged events folded in |
| AgentExecution.ShaketAgentExecutor.HandleAccept | src/server/agent_executor.py:552-623 | an acceptance that fails validation logs nothing, builds nothing and changes no state, an unreadable one raising; a valid one logs one SESSION_COMPLETED with our last offer's price and id and answers with an ACK carrying them |
| AgentExecution.ShaketAgentExecutor.ValidateAccept | src/server/agent_executor.py:572-591 | the checks before completing give exactly the reference validation: nothing for a missing session or an acceptance naming no offer or another offer, the raise for unreadable data or an auction session, else our last offer sent |
| AgentExecution.ShaketAgentExecutor.ExecuteAction | src/server/agent_executor.py:372-473 | a missing session is answered "Error: Session not found" with nothing changed; otherwise the decision is carried out as ActionDone states: a sent offer logged and returned, an acceptance logged as OFFER_ACCEPTED then SESSION_COMPLETED, a discovery payload with the message merged in, an unknown action refused |
| AgentExecution.ShaketAgentExecutor.SendOffer | src/server/agent_executor.py:396-423 | a fresh offer on the session's item at the agent's price, with the next offer id, is logged as OFFER_SENT under the request's context, and the answer is the offer payload |
| AgentExecution.ShaketAgentExecutor.AcceptOffer | src/server/agent_executor.py:425-454 | OFFER_ACCEPTED naming the offer is logged under the request's context, then SESSION_COMPLETED "Offer accepted", and the answer is an ACCEPT whose message defaults to "Deal!" |
| AgentExecution.ShaketAgentExecutor.Respond | src/server/agent_executor.py:234-259 | with no agent for the session the answer is "No agent configured for" its type and nothing changes; an agent that raises is answered with its error text; otherwise its decision is carried out |
| AgentExecution.ShaketAgentExecutor.Route | src/server/agent_executor.py:221-259 | the message is logged first and then answered; when logging raises nothing is logged and the error is returned |
| AgentExecution.ShaketAgentExecutor.AnswerLogged | src/server/agent_executor.py:224-259 | a valid counterparty acceptance is answered with its ACK without asking the agent; an invalid one falls through to the agent like any other message |
| AgentExecution.ShaketAgentExecutor.OpenSession | src/server/agent_executor.py:511-517 | the session is created under the request's context id as its id and primary context, with the type, item and our role asked for, status initialized, and one SESSION_CREATED in its log |
| AgentExecution.ShaketAgentExecutor.HandleInit | src/server/agent_executor.py:475-550 | an INIT whose data cannot be read fails and changes nothing; otherwise the session is opened, the context mapped to it, and the answer is the ACK carrying the context id, type, item name, both roles and the greeting |
| AgentExecution.ShaketAgentExecutor.Initialize | src/server/agent_executor.py:511-550 | the session is opened, the server's map sends the context to it, and the ACK is built as the next payload |
| AgentExecution.ShaketAgentExecutor.HandleMessage | src/server/agent_executor.py:186-259 | an INIT is handled before any lookup; any other message on an unmapped context is answered with the lookup's error text and logs nothing; otherwise it is logged and answered in its session, nothing else in the store changing |
| AgentExecution.ShaketAgentExecutor.Execute | src/server/agent_executor.py:87-168 | a request without a message fails with no artifact and changes nothing; one that does not parse fails with a text artifact and changes nothing; otherwise the A2A task's outcome is Answer of handling the parsed message |
| AgentExecution.CreatedBase | src/server/agent_executor.py:511-517 | folding SESSION_CREATED into a new-born session gives the id, context, type, role and item asked for, with status initialized |

## Left out

- Network, A2A and HTTP: the client, the session messenger, the connection manager and the server wiring are not part of this model. The messenger is a function from a send number and an outbound payload to a reply (a list of parsed messages, or a failure). A2A messages, tasks and parts are reduced to a small `Message`/`Response` datatype.
- Agents: an agent is a function from a consultation number and the session state to a decision or an exception text. The LLM-backed agents and the pydantic action schemas are not modelled beyond the action datatype with its `price > 0` condition.
- Concurrency: `asyncio.gather` over the sellers is modelled in two phases in key order: every seller's DISCOVERY_SENT and send, then every reply handled in send order. Replies arriving in any other order are not modelled.
- ReverseAuctionCoordination.ReverseAuctionCoordinator.Rounds: no other handler runs on the session between the round loop's steps. In the source, `handle_message` (a participant's "cancel" or an incoming offer) and `cancel_session` can run on the same session while the loop awaits the sends and `asyncio.sleep(round_duration)` (src/shaket/coordinators/reverse_auction.py:160-228). The per-round `if state.status != "active": break` check therefore fires in the model only before round 1, and "an active session runs every round" holds only under this exclusion. A cancel in mid-auction is not modelled, and neither is the SESSION_COMPLETED that the code after the loop (src/shaket/coordinators/reverse_auction.py:231-254) would then log after the SESSION_CANCELLED.
- ReverseAuctionLegacy.LegacyReverseAuctionCoordinator.Rounds: the same exclusion holds for the older coordinator. Its loop awaits the sends and the sleep (src/coordinators/reverse_auction.py:156-204), during which `handle_message` and `cancel_session` can run on the session. The mid-auction cancel and offer, and the completion logged after it, are not modelled.
- `asyncio.sleep` is not modelled: the clock does not move within one coordinator call. The round duration and the timeout are recorded but never waited for.
- `_monitor_timeout` is a separately callable method, and `start` returns the timeout it would have watched instead of creating a task.
- Clock: `datetime.now()` is the store's `clock` field. `emit_event` reads it once for both the event timestamp and the state's `updated_at`, where the source reads it twice. Timestamps are whole ticks, and their ISO text is modelled as decimal text that round-trips.
- `uuid4`: ids are 12 lowercase hex digits of a per-owner counter (`Text.HexId`). Freshness is a consequence of the counter, and the full-width random uuid is not modelled.
- Floating point: prices are integers, and so are the negotiation `timeout`, the auction `round_duration` and every other duration, which the source accepts as floats. The average price is a `real`. The `:.2f` rendering of the market report is abstracted to a text built from the numbers.
- Exceptions: a value that raises in the source (a missing key, an offer payload that is not a dict, a timestamp that is not ISO text, an unknown enum value) gives a `Failure` carrying the exception's text. Only the exceptions the handlers catch or propagate by design keep their place in the control flow. Two conventions hold for that text:
  - NegotiationCoordination.NamedPrice, NegotiationCoordination.FinalPrice and NegotiationCoordination.AcceptedPrice give exactly `str(e)`, as the loop logs it in "Error: {str(e)}": the two ValueErrors of `_complete_session` with the session id (and the accepted id) they name, "unhashable type: 'list'" and "'list' object has no attribute 'get'" with the offending type's name.
  - Every other modelled exception text is "<Type>: <message>", not Python's `str(e)`, and its message is approximate. This is the text that NegotiationCoordination.NegotiationCoordinator.FailWith, NegotiationCoordination.NegotiationCoordinator.RunLoop and AgentExecution.ShaketAgentExecutor.Execute put after "Error: " when the failure comes from Json.RequireStr, Json.RequireNum, Json.OptionalStr, Json.ObjectField, AgentExecution.StrOr, Types.ParseTimestamp, Events.EventFromDict, AgentExecution.InitPlan, the message parser (MessageParsing.ParseA2AMessage, MessageParsing.ParseResponse) or StateManagement.StateManager.CreateSession. For example, an offer without `price` gives "KeyError: price", where the source's `str(e)` is "'price'".
- Ill-typed values the source stores as found are not stored as found. The decoders refuse them:
  - Types.ItemFromDict: a present id, name or description that is not text, a category that is neither None nor text, or a metadata value that is not a dict fails. `Item.from_dict` stores it as found (src/shaket/core/types.py:53-61).
  - Types.OfferFromJson: a present offer_id or item_id that is not text, a price that is not a whole number, a message, from, to or signature that is neither None nor text, or a metadata value that is not a dict fails. `Offer.from_dict` stores it as found (src/shaket/core/types.py:113-129), so an offer `{"offer_id": "o", "price": "12", "item_id": "i"}` is logged by `_handle_offer` of the reverse auction but refused by AuctionSteps.HandleOffer, and the incoming-offer paths of the negotiation coordinator and the executor refuse it likewise.
  - Events.EventFromDict: a present event_id, session_id, event_type or context_id of the wrong kind, or data or metadata that is not a dict, fails. `Event.from_dict` stores it as found (src/shaket/state/events.py:156-174); only an unknown type value, a missing key or a timestamp that is not text raises there.
  - AgentExecution.InitItem: an INIT item whose id, name or description is present but not text, whose category is neither None nor text, or whose metadata is not a dict fails. The source's `Item(...)` stores it as found (src/server/agent_executor.py:498-505).
- Ill-typed event payload values are not stored as found either. The fold substitutes a default or ignores the field instead:
  - `NumOr`: a `round_number` that is present but not a whole number (null, text, a float) is treated as absent, so the round becomes the old round plus one. The source stores whatever value is there (src/shaket/state/session_state.py:313, :475).
  - `RoundArg`: an OFFER_RECEIVED whose `round` is present but neither a whole number nor null is filed under the current round. The source files it under that value as a key (src/shaket/state/session_state.py:484-520); a null `round` goes to the current round in both.
  - `JoinedCounterparty`: a COUNTERPARTY_JOINED whose endpoint or context id is truthy but not text is ignored, and a truthy `name` that is not text is dropped. The source stores them (src/shaket/state/session_state.py:189-197).
  - `UpdatedStatus`, `UpdatedContext`, `UpdatedMetadata`: a STATE_UPDATED value of the wrong type for its field (a status that is not one of the five names, a non-text context id, a non-dict metadata) leaves the field as it was. The source's `setattr` assigns any value (src/shaket/state/session_state.py:199-205).
- StateManagement.StateManager.ListSessions: the listed sessions come as a map from session id, because the store's tables are maps. The order of the source's list (the order in which the sessions were stored) is not modelled.
- NegotiationCoordination.NegotiationCoordinator.Pass: states how a pass ends, what it changes as a whole and what a result it produces reports. The events an offer or an acceptance logs are stated by TakeTurn, which Pass calls; Pass leaves them out so that the loop's proof stays small.
- NegotiationCoordination.NegotiationCoordinator.RunLoop: when the loop ends without a result, the contract does not say which of the three exits (the bound reached, the session no longer active, an unknown action) was taken. Only the case of a session inactive from the start is stated exactly.
- Aliasing: the store holds session states as values. The source hands out the live object from `get_session`, which the caller can mutate in place. The session classes in SessionStates model that object on its own.
- `STATE_UPDATED` may name only `status`, `context_id` and `metadata`. The source's `setattr` over any existing attribute (which could break the round-bucket invariant) is not modelled.
- Coordinator preconditions: every coordinator method requires the session, if stored, to be of the coordinator's kind. Calling, say, the negotiation coordinator on an auction session (an AttributeError in the source) is not modelled.
- Construction of a coordinator without a state manager (a ValueError in the source) is excluded by the type: the store is a non-null reference.
- The "Session not found" completion after the reverse-auction round loop is not modelled: the session cannot disappear during the loop, because nothing in the model deletes it.
- The executor's check for a missing state before asking the agent (src/server/agent_executor.py:245-247) is not modelled. The session was looked up just before, so the check cannot fail.
- AgentExecution.ShaketAgentExecutor.HandleInit: the "Failed to create session" branch is not modelled, since `create_session` returns a state whenever it does not raise.
- AgentExecution.ShaketAgentExecutor.Initialize: does not state that a later `SessionIdOf` of the context gives the new session. This follows from the context map update the contract does state.
- `cancel` of the executor (which always raises "unsupported") and the `submitted`/`working` task status updates of `execute` are not modelled.
- AgentExecution.ShaketAgentExecutor.ExecuteAction: the unknown-action answer is the text "Unknown action type" without the Python type name that follows it in the source.
- Logging and printing are not modelled.
- The demo programs, the re-exporting `__init__` modules and the abstract coordinator interface are not part of this model.
